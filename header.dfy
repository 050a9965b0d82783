/** The 17-byte tape header that precedes every data block, and the
    10-character file name it carries (`name.ljust(10)[:10]`). */
module Header {
  import opened Wrappers
  import opened Bytes

  const NAME_LENGTH := 10
  /** Header type of a BASIC program. */
  const PROGRAM_TYPE: byte := 0x00
  /** Header type of a block of bytes (machine code). */
  const CODE_TYPE: byte := 0x03
  /** The line the loader program starts at. */
  const AUTOSTART_LINE := 10
  /** Third parameter of a code header, written whatever the start address. */
  const CODE_PARAM2 := 0x8000

  /** `name.ljust(10)[:10]`. */
  function NormaliseName(name: string): (r: string)
    ensures |r| == NAME_LENGTH
  {
    if |name| >= NAME_LENGTH then name[..NAME_LENGTH]
    else name + seq(NAME_LENGTH - |name|, _ => ' ')
  }

  /** The normalised name is exactly 10 characters: those of `name`, padded
      on the right with spaces when it is shorter, cut after the tenth when
      it is longer. */
  lemma NormaliseNameSpec(name: string)
    ensures forall i | 0 <= i < NAME_LENGTH ::
      NormaliseName(name)[i] == if i < |name| then name[i] else ' '
  {
  }

  /** Normalising an already normalised name changes nothing. */
  lemma NormaliseNameIdempotent(name: string)
    ensures NormaliseName(NormaliseName(name)) == NormaliseName(name)
  {
    NormaliseNameSpec(name);
  }

  /** The characters that reach `encode('ascii')` are ASCII. */
  predicate AsciiName(name: string) {
    forall i | 0 <= i < |name| && i < NAME_LENGTH :: name[i] as int < 128
  }

  predicate IsAscii(s: string) {
    forall i | 0 <= i < |s| :: s[i] as int < 128
  }

  /** `encode('ascii')` of a string whose characters are all ASCII. */
  function AsciiBytes(s: string): (r: seq<byte>)
    requires IsAscii(s)
    ensures |r| == |s|
  {
    if s == [] then []
    else
      [s[0] as int] + AsciiBytes(s[1..])
  }

  /** Each byte is the code of the character in its place. */
  lemma {:induction false} AsciiBytesSpec(s: string)
    requires IsAscii(s)
    ensures forall i | 0 <= i < |s| :: AsciiBytes(s)[i] == s[i] as int
  {
    if s != [] {
      AsciiBytesSpec(s[1..]);
      assert forall i | 1 <= i < |s| :: AsciiBytes(s)[i] == AsciiBytes(s[1..])[i - 1];
    }
  }

  /** The normalised name as ASCII bytes. */
  function NameBytes(name: string): (r: seq<byte>)
    requires AsciiName(name)
    ensures |r| == NAME_LENGTH
  {
    NormaliseNameSpec(name);
    AsciiBytes(NormaliseName(name))
  }

  /** The fields of a header: type, 10-byte name and three 16-bit parameters. */
  datatype Header = Header(kind: byte, name: seq<byte>, param0: int, param1: int, param2: int)

  predicate Encodable(h: Header) {
    |h.name| == NAME_LENGTH && IsU16(h.param0) && IsU16(h.param1) && IsU16(h.param2)
  }

  /** Header layout: type, name, then the three parameters little-endian. */
  function EncodeHeader(h: Header): (r: seq<byte>)
    requires Encodable(h)
    ensures |r| == 17
  {
    [h.kind] + h.name + U16LE(h.param0) + U16LE(h.param1) + U16LE(h.param2)
  }

  /** Reads the 17 bytes of a header back into its fields. */
  function DecodeHeader(b: seq<byte>): Option<Header>
  {
    if |b| != 17 then None
    else Some(Header(b[0], b[1..11], Word(b[11], b[12]), Word(b[13], b[14]), Word(b[15], b[16])))
  }

  lemma HeaderRoundTrip(h: Header)
    requires Encodable(h)
    ensures DecodeHeader(EncodeHeader(h)) == Some(h)
  {
    var b := EncodeHeader(h);
    var p0, p1, p2 := U16LE(h.param0), U16LE(h.param1), U16LE(h.param2);
    assert b == [h.kind] + h.name + p0 + p1 + p2;
    assert b[1..11] == h.name;
    assert b[11] == p0[0] && b[12] == p0[1];
    assert b[13] == p1[0] && b[14] == p1[1];
    assert b[15] == p2[0] && b[16] == p2[1];
  }

  /** Every 17-byte string is the encoding of the header it decodes to. */
  lemma HeaderDecodeEncode(b: seq<byte>)
    requires |b| == 17
    ensures DecodeHeader(b).Some? && Encodable(DecodeHeader(b).value)
    ensures EncodeHeader(DecodeHeader(b).value) == b
  {
    var h := DecodeHeader(b).value;
    U16LEOfWord(b[11], b[12]);
    U16LEOfWord(b[13], b[14]);
    U16LEOfWord(b[15], b[16]);
    assert b == [b[0]] + b[1..11] + b[11..13] + b[13..15] + b[15..17];
  }

  /** The header of the BASIC loader (type 0): program length, autostart
      line, program length again. */
  function ProgramHeader(name: string, basicLen: int): seq<byte>
    requires AsciiName(name) && IsU16(basicLen)
  {
    EncodeHeader(Header(PROGRAM_TYPE, NameBytes(name), basicLen, AUTOSTART_LINE, basicLen))
  }

  /** The header of the code block (type 3): code length, start address, 0x8000. */
  function CodeHeader(name: string, codeLen: int, start: int): seq<byte>
    requires AsciiName(name) && IsU16(codeLen) && IsU16(start)
  {
    EncodeHeader(Header(CODE_TYPE, NameBytes(name), codeLen, start, CODE_PARAM2))
  }

  lemma ProgramHeaderFields(name: string, basicLen: int)
    requires AsciiName(name) && IsU16(basicLen)
    ensures |ProgramHeader(name, basicLen)| == 17
    ensures DecodeHeader(ProgramHeader(name, basicLen))
         == Some(Header(PROGRAM_TYPE, NameBytes(name), basicLen, AUTOSTART_LINE, basicLen))
  {
    HeaderRoundTrip(Header(PROGRAM_TYPE, NameBytes(name), basicLen, AUTOSTART_LINE, basicLen));
  }

  lemma CodeHeaderFields(name: string, codeLen: int, start: int)
    requires AsciiName(name) && IsU16(codeLen) && IsU16(start)
    ensures |CodeHeader(name, codeLen, start)| == 17
    ensures DecodeHeader(CodeHeader(name, codeLen, start))
         == Some(Header(CODE_TYPE, NameBytes(name), codeLen, start, CODE_PARAM2))
  {
    HeaderRoundTrip(Header(CODE_TYPE, NameBytes(name), codeLen, start, CODE_PARAM2));
  }

  /** Where the fields of a code header sit. */
  lemma CodeHeaderBytes(name: string, codeLen: int, start: int)
    requires AsciiName(name) && IsU16(codeLen) && IsU16(start)
    ensures var h := CodeHeader(name, codeLen, start);
      && |h| == 17
      && h[0] == CODE_TYPE
      && h[1..11] == NameBytes(name)
      && Word(h[11], h[12]) == codeLen
      && Word(h[13], h[14]) == start
      && h[15..17] == [0x00, 0x80]
  {
    var h := CodeHeader(name, codeLen, start);
    CodeHeaderFields(name, codeLen, start);
    assert h[15..17] == U16LE(CODE_PARAM2);
  }

  /** Short names are padded with spaces, long ones cut at 10 characters. */
  lemma NameExamples()
    ensures NormaliseName("AB") == "AB        "
    ensures NormaliseName("TwelveChars!") == "TwelveChar"
  {
    assert NormaliseName("AB") == "AB" + "        ";
  }

  /** A code header for 100 bytes at 0x8000 ends `64 00 00 80 00 80`. */
  lemma CodeHeaderExample()
    ensures CodeHeader("X", 100, 0x8000)[11..] == [0x64, 0x00, 0x00, 0x80, 0x00, 0x80]
  {
    var h := CodeHeader("X", 100, 0x8000);
    CodeHeaderBytes("X", 100, 0x8000);
    HeaderWordBytes(h[11], h[12], 100);
    HeaderWordBytes(h[13], h[14], 0x8000);
    assert h[11..] == [h[11], h[12], h[13], h[14]] + h[15..17];
  }

  /** The two bytes of a little-endian word, from the value they spell. */
  lemma HeaderWordBytes(lo: byte, hi: byte, n: int)
    requires Word(lo, hi) == n
    ensures lo == n % 256 && hi == n / 256
  {
  }
}
