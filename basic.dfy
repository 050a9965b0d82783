/** Sinclair BASIC program text as make_tap.py writes it: numeric literals
    (`number_encoding`), program lines (`make_basic_line`) and the three-line
    loader `10 CLEAR start-1 / 20 LOAD ""CODE / 30 RANDOMIZE USR start`. */
module Basic {
  import opened Wrappers
  import opened Bytes

  /** Marks the end of a literal's text and the start of its 5-byte form. */
  const NUMBER_MARKER: byte := 0x0E
  /** Ends every program line. */
  const END_OF_LINE: byte := 0x0D
  const MINUS_SIGN: byte := 0x2D
  const CLEAR_TOKEN: byte := 0xFD
  const LOAD_TOKEN: byte := 0xEF
  const QUOTE: byte := 0x22
  const CODE_TOKEN: byte := 0xAF
  const RANDOMIZE_TOKEN: byte := 0xF9
  const USR_TOKEN: byte := 0xC0

  /** The loader's line numbers. */
  const CLEAR_LINE := 10
  const LOAD_LINE := 20
  const RUN_LINE := 30

  predicate IsDigit(b: byte) {
    0x30 <= b <= 0x39
  }

  /** The ASCII character of the decimal digit `d`. */
  function DigitChar(d: int): (c: byte)
    requires 0 <= d < 10
    ensures IsDigit(c)
  {
    0x30 + d
  }

  /** ASCII decimal digits of `n`, as `str(n)` writes a non-negative number. */
  function DecimalDigits(n: nat): (r: seq<byte>)
    ensures 1 <= |r|
    decreases n
  {
    if n < 10 then [DigitChar(n)]
    else DecimalDigits(n / 10) + [DigitChar(n % 10)]
  }

  predicate AllDigits(s: seq<byte>) {
    forall i | 0 <= i < |s| :: IsDigit(s[i])
  }

  /** The text of a number is only digits, and has no leading zero. */
  lemma {:induction false} DecimalDigitsShape(n: nat)
    ensures AllDigits(DecimalDigits(n))
    ensures DecimalDigits(n)[0] == 0x30 ==> n == 0
    decreases n
  {
    if n >= 10 {
      DecimalDigitsShape(n / 10);
    }
  }

  /** The number a string of ASCII digits spells. */
  function ParseDecimal(s: seq<byte>): int
  {
    if s == [] then 0 else 10 * ParseDecimal(s[..|s| - 1]) + (s[|s| - 1] as int - 0x30)
  }

  lemma {:induction false} DecimalRoundTrip(n: nat)
    ensures ParseDecimal(DecimalDigits(n)) == n
  {
    var d := DecimalDigits(n);
    var c := DigitChar(n % 10);
    if n < 10 {
      assert d == [] + [c];
    } else {
      var p := DecimalDigits(n / 10);
      assert d == p + [c];
      assert d[..|d| - 1] == p;
      DecimalRoundTrip(n / 10);
      assert ParseDecimal(d) == 10 * (n / 10) + n % 10;
    }
  }

  function Pow10(k: nat): nat
  {
    if k == 0 then 1 else 10 * Pow10(k - 1)
  }

  /** A number below 10^k has at most k digits. */
  lemma {:induction false} DigitsAtMost(n: nat, k: nat)
    requires 1 <= k && n < Pow10(k)
    ensures |DecimalDigits(n)| <= k
  {
    if n >= 10 {
      assert 2 <= k;
      assert n / 10 < Pow10(k - 1);
      DigitsAtMost(n / 10, k - 1);
    }
  }

  /** A number of at least 10^(k-1) has at least k digits. */
  lemma {:induction false} DigitsAtLeast(n: nat, k: nat)
    requires 1 <= k && Pow10(k - 1) <= n
    ensures k <= |DecimalDigits(n)|
  {
    if k > 1 {
      assert Pow10(k - 2) <= n / 10;
      DigitsAtLeast(n / 10, k - 1);
    }
  }

  /** `str(n)`: a minus sign before the digits of a negative number. */
  function IntText(n: int): seq<byte>
  {
    if n < 0 then [MINUS_SIGN] + DecimalDigits(-n) else DecimalDigits(n)
  }

  /** What `number_encoding` writes after the marker: the 5-byte small-integer
      form `00 00 lo hi 00` with `lo = n & 0xFF` and `hi = (n >> 8) & 0xFF`
      (all zero for 0), and nothing at all from 65536 on. */
  function SmallIntForm(n: int): seq<byte>
  {
    if n == 0 then [0x00, 0x00, 0x00, 0x00, 0x00]
    else if n < 65536 then [0x00, 0x00, LowByte(n), HighByte(n), 0x00]
    else []
  }

  /** `number_encoding(n)`: the text, the marker, then the 5-byte form. */
  function NumberLiteral(n: int): seq<byte>
  {
    IntText(n) + [NUMBER_MARKER] + SmallIntForm(n)
  }

  /** `number_encoding`: the literal grows by append/extend. */
  method NumberEncoding(n: int) returns (result: seq<byte>)
    ensures result == NumberLiteral(n)
  {
    result := [];
    result := result + IntText(n);
    result := result + [NUMBER_MARKER];
    ghost var text := result;
    if n == 0 {
      result := result + [0x00, 0x00, 0x00, 0x00, 0x00];
    } else if n < 65536 {
      var lo, hi := LowByte(n), HighByte(n);
      result := result + [0x00];
      result := result + [0x00];
      result := result + [lo];
      result := result + [hi];
      result := result + [0x00];
      assert result == text + [0x00, 0x00, lo, hi, 0x00];
    }
    assert result == text + SmallIntForm(n);
  }

  /** The value the interpreter executes: the 5-byte small-integer form is
      `00 sign lo hi 00`, with sign 00 for a value and FF for value - 65536. */
  function SmallIntValue(b: seq<byte>): Option<int>
  {
    if |b| != 5 || b[0] != 0 || b[4] != 0 then None
    else if b[1] == 0x00 then Some(Word(b[2], b[3]))
    else if b[1] == 0xFF then Some(Word(b[2], b[3]) - 65536)
    else None
  }

  /** Number of leading ASCII digits. */
  function DigitRun(s: seq<byte>): (k: nat)
    ensures k <= |s|
  {
    if s == [] || !IsDigit(s[0]) then 0 else 1 + DigitRun(s[1..])
  }

  lemma {:induction false} DigitRunStops(a: seq<byte>, t: seq<byte>)
    requires AllDigits(a)
    requires t == [] || !IsDigit(t[0])
    ensures DigitRun(a + t) == |a|
  {
    if a == [] {
      assert a + t == t;
    } else {
      assert (a + t)[1..] == a[1..] + t;
      DigitRunStops(a[1..], t);
    }
  }

  /** A literal as the interpreter sees it: the number its text shows and the
      number its 5-byte form holds. */
  datatype Literal = Literal(text: int, value: int)

  /** Reads an unsigned literal: digits, the marker, and a 5-byte form that
      ends the input. */
  function DecodeLiteral(s: seq<byte>): Option<Literal>
  {
    var k := DigitRun(s);
    if k == 0 || |s| != k + 6 || s[k] != NUMBER_MARKER then None
    else match SmallIntValue(s[k + 1..])
      case None => None
      case Some(v) => Some(Literal(ParseDecimal(s[..k]), v))
  }

  /** For every value the loader uses, the literal's text and its 5-byte
      form both denote `n`. */
  lemma NumberLiteralRoundTrip(n: int)
    requires 0 <= n <= MAX_U16
    ensures DecodeLiteral(NumberLiteral(n)) == Some(Literal(n, n))
  {
    var d := DecimalDigits(n);
    var f := SmallIntForm(n);
    var s := NumberLiteral(n);
    assert s == d + ([NUMBER_MARKER] + f);
    DecimalDigitsShape(n);
    DigitRunStops(d, [NUMBER_MARKER] + f);
    assert s[..|d|] == d;
    assert s[|d| + 1..] == f;
    DecimalRoundTrip(n);
    SmallIntFormValue(n);
  }

  /** The 5-byte form of an address or length holds exactly that number. */
  lemma SmallIntFormValue(n: int)
    requires 0 <= n <= MAX_U16
    ensures SmallIntValue(SmallIntForm(n)) == Some(n)
  {
    BytesOfU16(n);
  }

  /** Zero is written as the text "0" and the all-zero 5-byte form. */
  lemma NumberLiteralZero()
    ensures NumberLiteral(0) == [0x30, NUMBER_MARKER, 0x00, 0x00, 0x00, 0x00, 0x00]
  {
    assert DecimalDigits(0) == [0x30];
  }

  /** From 65536 on nothing follows the marker, so the literal is malformed. */
  lemma NumberLiteralOverflow(n: int)
    requires n > MAX_U16
    ensures NumberLiteral(n) == DecimalDigits(n) + [NUMBER_MARKER]
    ensures DecodeLiteral(NumberLiteral(n)) == None
  {
    var d := DecimalDigits(n);
    DecimalDigitsShape(n);
    DigitRunStops(d, [NUMBER_MARKER]);
  }

  /** `number_encoding(-1)`, which `make_loader_tap` computes for start 0:
      the text says -1 while the 5-byte form holds 65535. */
  lemma NegativeLiteralMismatch()
    ensures NumberLiteral(-1) == [MINUS_SIGN, 0x31, NUMBER_MARKER, 0x00, 0x00, 0xFF, 0xFF, 0x00]
    ensures SmallIntValue(NumberLiteral(-1)[3..]) == Some(65535)
  {
    assert DecimalDigits(1) == [0x31];
    assert (-1) % 256 == 255 && (-1) / 256 == -1;
    assert NumberLiteral(-1)[3..] == [0x00, 0x00, 0xFF, 0xFF, 0x00];
  }

  /** One program line with its number and its tokens. */
  datatype Line = Line(number: int, tokens: seq<byte>)

  /** Both 16-bit fields of the line fit (otherwise `struct.pack` fails). */
  predicate Serialisable(lineNum: int, tokens: seq<byte>) {
    IsU16(lineNum) && |tokens| + 1 <= MAX_U16
  }

  /** A program line: number big-endian, length of tokens and terminator
      little-endian, the tokens, then END_OF_LINE. */
  function BasicLine(lineNum: int, tokens: seq<byte>): seq<byte>
    requires Serialisable(lineNum, tokens)
  {
    U16BE(lineNum) + U16LE(|tokens| + 1) + tokens + [END_OF_LINE]
  }

  /** `make_basic_line`: the line grows, then its 4-byte header is prepended. */
  method MakeBasicLine(lineNum: int, tokens: seq<byte>) returns (result: seq<byte>)
    requires Serialisable(lineNum, tokens)
    ensures result == BasicLine(lineNum, tokens)
  {
    var line: seq<byte> := [];
    line := line + tokens;
    line := line + [END_OF_LINE];
    var header := U16BE(lineNum) + U16LE(|line|);
    result := header + line;
    assert result == U16BE(lineNum) + U16LE(|tokens| + 1) + (tokens + [END_OF_LINE]);
  }

  lemma BasicLineLayout(lineNum: int, tokens: seq<byte>)
    requires Serialisable(lineNum, tokens)
    ensures var b := BasicLine(lineNum, tokens);
      && |b| == |tokens| + 5
      && Word(b[1], b[0]) == lineNum
      && Word(b[2], b[3]) == |tokens| + 1
      && b[4..4 + |tokens|] == tokens
      && b[|b| - 1] == END_OF_LINE
  {
    var b := BasicLine(lineNum, tokens);
    assert b[4..4 + |tokens|] == tokens;
  }

  /** A line read off the front of a program, and what follows it. */
  datatype LineSplit = LineSplit(line: Line, rest: seq<byte>)

  /** Reads one line as the interpreter does: the length field says where it
      ends, and the last byte of that span must be END_OF_LINE. */
  function ParseLine(s: seq<byte>): (r: Option<LineSplit>)
    ensures r.Some? ==> |r.value.rest| < |s|
  {
    if |s| < 4 then None
    else
      var len := Word(s[2], s[3]);
      if len < 1 || |s| < 4 + len || s[3 + len] != END_OF_LINE then None
      else Some(LineSplit(Line(Word(s[1], s[0]), s[4..3 + len]), s[4 + len..]))
  }

  /** Reads a whole program as back-to-back lines. */
  function ParseProgram(s: seq<byte>): Option<seq<Line>>
    decreases |s|
  {
    if s == [] then Some([])
    else match ParseLine(s)
      case None => None
      case Some(sp) =>
        match ParseProgram(sp.rest)
        case None => None
        case Some(ls) => Some([sp.line] + ls)
  }

  /** The reader's view of a line at the front of `s`, field by field. */
  lemma LineAtFront(s: seq<byte>, l: Line, rest: seq<byte>)
    requires |s| == |l.tokens| + 5 + |rest|
    requires Word(s[1], s[0]) == l.number
    requires Word(s[2], s[3]) == |l.tokens| + 1
    requires s[4..4 + |l.tokens|] == l.tokens
    requires s[4 + |l.tokens|] == END_OF_LINE
    requires s[|l.tokens| + 5..] == rest
    ensures ParseLine(s) == Some(LineSplit(l, rest))
  {
  }

  /** The same, for a line `b` followed by `rest`. */
  lemma LineBytesAtFront(b: seq<byte>, l: Line, rest: seq<byte>)
    requires |b| == |l.tokens| + 5
    requires Word(b[1], b[0]) == l.number
    requires Word(b[2], b[3]) == |l.tokens| + 1
    requires b[4..4 + |l.tokens|] == l.tokens
    requires b[|b| - 1] == END_OF_LINE
    ensures ParseLine(b + rest) == Some(LineSplit(l, rest))
  {
    var s := b + rest;
    assert Word(s[1], s[0]) == l.number;
    assert Word(s[2], s[3]) == |l.tokens| + 1;
    assert s[4..4 + |l.tokens|] == l.tokens;
    assert s[4 + |l.tokens|] == END_OF_LINE;
    assert s[|l.tokens| + 5..] == rest;
    LineAtFront(s, l, rest);
  }

  /** Reading a serialised line back yields its number and tokens, even when
      the tokens contain END_OF_LINE bytes. */
  lemma BasicLineParses(lineNum: int, tokens: seq<byte>, rest: seq<byte>)
    requires Serialisable(lineNum, tokens)
    ensures ParseLine(BasicLine(lineNum, tokens) + rest)
         == Some(LineSplit(Line(lineNum, tokens), rest))
  {
    BasicLineLayout(lineNum, tokens);
    LineBytesAtFront(BasicLine(lineNum, tokens), Line(lineNum, tokens), rest);
  }

  lemma ParseProgramCons(lineNum: int, tokens: seq<byte>, rest: seq<byte>)
    requires Serialisable(lineNum, tokens)
    requires ParseProgram(rest).Some?
    ensures ParseProgram(BasicLine(lineNum, tokens) + rest)
         == Some([Line(lineNum, tokens)] + ParseProgram(rest).value)
  {
    BasicLineParses(lineNum, tokens, rest);
  }

  /** Line 10: `CLEAR start-1`. */
  function ClearTokens(start: int): seq<byte>
  {
    [CLEAR_TOKEN] + NumberLiteral(start - 1)
  }

  /** Line 20: `LOAD ""CODE`. */
  function LoadTokens(): seq<byte>
  {
    [LOAD_TOKEN, QUOTE, QUOTE, CODE_TOKEN]
  }

  /** Line 30: `RANDOMIZE USR start`. */
  function RunTokens(start: int): seq<byte>
  {
    [RANDOMIZE_TOKEN, USR_TOKEN] + NumberLiteral(start)
  }

  /** The literals of an address have at most 5 digits, so every loader line fits. */
  lemma LoaderLinesFit(start: int)
    requires 1 <= start <= MAX_U16
    ensures |DecimalDigits(start - 1)| <= 5 && |DecimalDigits(start)| <= 5
    ensures Serialisable(CLEAR_LINE, ClearTokens(start))
    ensures Serialisable(LOAD_LINE, LoadTokens())
    ensures Serialisable(RUN_LINE, RunTokens(start))
  {
    assert Pow10(5) == 100000;
    DigitsAtMost(start - 1, 5);
    DigitsAtMost(start, 5);
  }

  /** The loader program of `make_loader_tap`, unframed. */
  function Loader(start: int): seq<byte>
    requires 1 <= start <= MAX_U16
  {
    LoaderLinesFit(start);
    BasicLine(CLEAR_LINE, ClearTokens(start))
      + BasicLine(LOAD_LINE, LoadTokens())
      + BasicLine(RUN_LINE, RunTokens(start))
  }

  /** Serialises a list of lines back to back; the inverse of ParseProgram. */
  function Program(ls: seq<Line>): seq<byte>
    requires forall i | 0 <= i < |ls| :: Serialisable(ls[i].number, ls[i].tokens)
  {
    if ls == [] then []
    else BasicLine(ls[0].number, ls[0].tokens) + Program(ls[1..])
  }

  /** Every list of serialisable lines is read back exactly from its program text. */
  lemma {:induction false} ProgramParses(ls: seq<Line>)
    requires forall i | 0 <= i < |ls| :: Serialisable(ls[i].number, ls[i].tokens)
    ensures ParseProgram(Program(ls)) == Some(ls)
  {
    if ls != [] {
      ProgramParses(ls[1..]);
      ParseProgramCons(ls[0].number, ls[0].tokens, Program(ls[1..]));
      assert [ls[0]] + ls[1..] == ls;
    }
  }

  /** The loader is exactly three lines, 10, 20 and 30 in that order. */
  lemma LoaderLines(start: int)
    requires 1 <= start <= MAX_U16
    ensures ParseProgram(Loader(start)) == Some([
      Line(CLEAR_LINE, ClearTokens(start)),
      Line(LOAD_LINE, LoadTokens()),
      Line(RUN_LINE, RunTokens(start))])
  {
    LoaderLinesFit(start);
    var ls := [Line(CLEAR_LINE, ClearTokens(start)), Line(LOAD_LINE, LoadTokens()), Line(RUN_LINE, RunTokens(start))];
    assert ls[1..][1..][1..] == [];
    assert Program(ls[1..][1..]) == BasicLine(RUN_LINE, RunTokens(start)) + [];
    assert Program(ls) == Loader(start);
    ProgramParses(ls);
  }

  /** The literals after CLEAR and after RANDOMIZE USR denote start-1 and
      start, in both their text and their binary form. */
  lemma LoaderLiterals(start: int)
    requires 1 <= start <= MAX_U16
    ensures DecodeLiteral(ClearTokens(start)[1..]) == Some(Literal(start - 1, start - 1))
    ensures DecodeLiteral(RunTokens(start)[2..]) == Some(Literal(start, start))
  {
    assert ClearTokens(start)[1..] == NumberLiteral(start - 1);
    assert RunTokens(start)[2..] == NumberLiteral(start);
    NumberLiteralRoundTrip(start - 1);
    NumberLiteralRoundTrip(start);
  }

  /** The loader's length: 12 + d1 bytes for line 10, 9 for line 20 and
      13 + d2 for line 30, where d1 and d2 count the digits of start-1 and start. */
  lemma LoaderLength(start: int)
    requires 1 <= start <= MAX_U16
    ensures |Loader(start)| == 34 + |DecimalDigits(start - 1)| + |DecimalDigits(start)|
    ensures 36 <= |Loader(start)| <= 44
  {
    LoaderLinesFit(start);
  }
}
