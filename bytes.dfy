/** The result wrappers: an optional value, and a value or the reason there is none. */
module Wrappers {

  datatype Option<+T> = None | Some(value: T)

  datatype Result<+T, +E> = Ok(value: T) | Err(error: E)
}

/** Byte-level building blocks shared by both encoders: the 16-bit field
    packers that stand in for `struct.pack('<H')` and `struct.pack('>H')`,
    and the XOR checksum of a TAP block. */
module Bytes {

  /** A byte as the scripts handle it: an element of a `bytearray`, an
      integer from 0 to 255. */
  type byte = x: int | 0 <= x < 256

  /** Why an encoder refuses its input: a 16-bit header field would not hold
      its number, or a block's length prefix would not hold its length. Both
      are the `struct.error` of `struct.pack('<H', ...)` in the scripts. */
  datatype EncodeError = OutOfRange | EncodingTooLarge

  /** The largest value a 16-bit field of the tape format can hold. */
  const MAX_U16 := 0xFFFF

  /** `struct.pack('<H', n)` and `struct.pack('>H', n)` succeed exactly for these. */
  predicate IsU16(n: int) {
    0 <= n <= MAX_U16
  }

  /** The value of the 16-bit field whose low byte is `lo` and high byte is `hi`. */
  function Word(lo: byte, hi: byte): (r: int)
    ensures IsU16(r)
  {
    lo + 256 * hi
  }

  /** `n & 0xFF`: the low byte of `n` in two's complement, by repeated
      subtraction (or addition) of 256. */
  function LowByte(n: int): byte
    decreases n < 0, if n < 0 then -n else n
  {
    if n < 0 then LowByte(n + 256)
    else if n < 256 then n
    else LowByte(n - 256)
  }

  /** `n >> 8`: `n` divided by 256, rounded down. */
  function Shift8(n: int): int
    decreases n < 0, if n < 0 then -n else n
  {
    if n < 0 then Shift8(n + 256) - 1
    else if n < 256 then 0
    else Shift8(n - 256) + 1
  }

  /** `(n >> 8) & 0xFF`: the second byte of `n` in two's complement. */
  function HighByte(n: int): byte
  {
    LowByte(Shift8(n))
  }

  /** The low byte and the shifted rest put `n` back together. */
  lemma {:induction false} LowByteShift8(n: int)
    ensures LowByte(n) + 256 * Shift8(n) == n
    decreases n < 0, if n < 0 then -n else n
  {
    if n < 0 {
      LowByteShift8(n + 256);
    } else if n >= 256 {
      LowByteShift8(n - 256);
    }
  }

  /** They are Python's `n & 0xFF` and `n >> 8`: the remainder and the
      quotient of division by 256 rounded down (Dafny's `%` and `/` for a
      positive divisor). */
  lemma LowByteShift8Spec(n: int)
    ensures LowByte(n) == n % 256 && Shift8(n) == n / 256
  {
    LowByteShift8(n);
  }

  /** The bytes of a 16-bit value: low byte, and a high byte that is all of
      the rest. */
  lemma {:induction false} BytesOfU16(n: int)
    requires IsU16(n)
    ensures LowByte(n) + 256 * HighByte(n) == n
  {
    LowByteShift8(n);
    var q := Shift8(n);
    assert 0 <= q < 256;
    assert LowByte(q) == q;
  }

  /** Little-endian 16-bit field: reading it back gives `n`. */
  function U16LE(n: int): (r: seq<byte>)
    requires IsU16(n)
    ensures |r| == 2 && Word(r[0], r[1]) == n
  {
    BytesOfU16(n);
    [LowByte(n), HighByte(n)]
  }

  /** Big-endian 16-bit field: reading it back (high byte first) gives `n`. */
  function U16BE(n: int): (r: seq<byte>)
    requires IsU16(n)
    ensures |r| == 2 && Word(r[1], r[0]) == n
  {
    BytesOfU16(n);
    [HighByte(n), LowByte(n)]
  }

  /** The packers are also onto: every pair of bytes is the little-endian
      field of the word it spells. */
  lemma U16LEOfWord(lo: byte, hi: byte)
    ensures U16LE(Word(lo, hi)) == [lo, hi]
  {
    var n := Word(lo, hi);
    LowByteShift8Spec(n);
    assert n % 256 == lo && n / 256 == hi;
    assert LowByte(hi) == hi;
  }

  predicate Odd(a: nat) {
    a % 2 == 1
  }

  /** Python's `^` on non-negative integers, one binary digit at a time:
      a digit of the result is 1 exactly when the digits of `a` and `b` differ. */
  function Xor(a: nat, b: nat): nat
    decreases a + b
  {
    if a == 0 && b == 0 then 0
    else 2 * Xor(a / 2, b / 2) + (if Odd(a) != Odd(b) then 1 else 0)
  }

  /** The lowest digit and the remaining digits of `a ^ b`. */
  lemma XorDigits(a: nat, b: nat)
    ensures Odd(Xor(a, b)) == (Odd(a) != Odd(b))
    ensures Xor(a, b) / 2 == Xor(a / 2, b / 2)
  {
  }

  /** Zero is the identity of `^`. */
  lemma {:induction false} XorZero(a: nat)
    ensures Xor(a, 0) == a && Xor(0, a) == a
    decreases a
  {
    if a != 0 {
      XorZero(a / 2);
    }
  }

  /** Every number cancels itself. */
  lemma {:induction false} XorSelf(a: nat)
    ensures Xor(a, a) == 0
    decreases a
  {
    if a != 0 {
      XorSelf(a / 2);
    }
  }

  /** The order of the operands does not matter. */
  lemma {:induction false} XorCommutes(a: nat, b: nat)
    ensures Xor(a, b) == Xor(b, a)
    decreases a + b
  {
    if a != 0 || b != 0 {
      XorCommutes(a / 2, b / 2);
    }
  }

  /** Nor does the grouping, so a checksum can be folded in any order of parts. */
  lemma {:induction false} XorAssociates(a: nat, b: nat, c: nat)
    ensures Xor(Xor(a, b), c) == Xor(a, Xor(b, c))
    decreases a + b + c
  {
    if a != 0 || b != 0 || c != 0 {
      XorAssociates(a / 2, b / 2, c / 2);
      XorHalvesAgree(a, b, c);
      XorLowDigitsAgree(a, b, c);
      SameDigits(Xor(Xor(a, b), c), Xor(a, Xor(b, c)));
    }
  }

  /** If the remaining digits associate, so do the whole numbers' remaining digits. */
  lemma XorHalvesAgree(a: nat, b: nat, c: nat)
    requires Xor(Xor(a / 2, b / 2), c / 2) == Xor(a / 2, Xor(b / 2, c / 2))
    ensures Xor(Xor(a, b), c) / 2 == Xor(a, Xor(b, c)) / 2
  {
    XorDigits(a, b);
    XorDigits(b, c);
    XorDigits(Xor(a, b), c);
    XorDigits(a, Xor(b, c));
  }

  /** The lowest digits of both groupings agree. */
  lemma XorLowDigitsAgree(a: nat, b: nat, c: nat)
    ensures Odd(Xor(Xor(a, b), c)) == Odd(Xor(a, Xor(b, c)))
  {
    XorDigits(a, b);
    XorDigits(b, c);
    XorDigits(Xor(a, b), c);
    XorDigits(a, Xor(b, c));
  }

  /** Two numbers with the same lowest digit and the same remaining digits are equal. */
  lemma SameDigits(x: nat, y: nat)
    requires Odd(x) == Odd(y) && x / 2 == y / 2
    ensures x == y
  {
  }

  /** The XOR of two numbers below 2^k is below 2^k; in particular the XOR
      of two bytes is a byte. */
  lemma {:induction false} XorBelow(a: nat, b: nat, k: nat, p: nat)
    requires p == Pow2(k) && a < p && b < p
    ensures Xor(a, b) < p
    decreases k
  {
    if k > 0 && (a != 0 || b != 0) {
      XorBelow(a / 2, b / 2, k - 1, Pow2(k - 1));
    }
  }

  function Pow2(k: nat): nat
  {
    if k == 0 then 1 else 2 * Pow2(k - 1)
  }

  /** `^` on two bytes. */
  function XorByte(a: byte, b: byte): byte
  {
    assert Pow2(8) == 256;
    XorBelow(a, b, 8, 256);
    Xor(a, b)
  }

  /** XOR of every byte of `s`, the fold `cs ^= b` of make_tap.py and bin2tap.py. */
  function XorFold(s: seq<byte>): byte
  {
    if s == [] then 0 else XorByte(XorFold(s[..|s| - 1]), s[|s| - 1])
  }

  /** The fold distributes over concatenation. */
  lemma {:induction false} XorFoldAppend(a: seq<byte>, b: seq<byte>)
    ensures XorFold(a + b) == XorByte(XorFold(a), XorFold(b))
  {
    if b == [] {
      assert a + b == a;
      XorZero(XorFold(a));
    } else {
      var b' := b[..|b| - 1];
      assert (a + b)[..|a + b| - 1] == a + b';
      XorFoldAppend(a, b');
      XorAssociates(XorFold(a), XorFold(b'), b[|b| - 1]);
    }
  }

  /** The checksum of a flag followed by a payload is the flag XOR the payload's fold. */
  lemma XorFoldCons(x: byte, s: seq<byte>)
    ensures XorFold([x] + s) == XorByte(x, XorFold(s))
  {
    XorFoldAppend([x], s);
    assert [x][..0] == [];
    XorZero(x);
  }

  /** Appending its own checksum makes a byte string fold to 0: this is
      what a loader checks when it reads a block. */
  lemma XorFoldClosed(s: seq<byte>)
    ensures XorFold(s + [XorFold(s)]) == 0
  {
    assert (s + [XorFold(s)])[..|s|] == s;
    XorSelf(XorFold(s));
  }

  /** Conversely, a byte string with its last byte replaced folds to 0 only
      when that byte is the checksum of the rest: the checksum detects every
      single-byte corruption of the final byte. */
  lemma XorFoldClosedOnly(s: seq<byte>, c: byte)
    requires XorFold(s + [c]) == 0
    ensures c == XorFold(s)
  {
    var f := XorFold(s);
    assert (s + [c])[..|s|] == s;
    assert Xor(f, c) == 0;
    XorAssociates(f, f, c);
    XorSelf(f);
    XorZero(c);
    XorZero(f);
    assert c == Xor(Xor(f, f), c) == Xor(f, Xor(f, c)) == Xor(f, 0) == f;
  }

  /** `xor_checksum`: the accumulator loop over the data. */
  method XorChecksum(data: seq<byte>) returns (cs: byte)
    ensures cs == XorFold(data)
  {
    cs := 0;
    for i := 0 to |data|
      invariant cs == XorFold(data[..i])
    {
      assert data[..i + 1][..i] == data[..i];
      cs := XorByte(cs, data[i]);
    }
    assert data[..|data|] == data;
  }
}
