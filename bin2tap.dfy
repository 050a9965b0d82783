/** `make_tap` of bin2tap.py: a tape of just the code header block and the
    code data block, each with its XOR checksum. The
    code bytes come in as a value and the tape goes out as one; reading and
    writing the files is not part of this model. */
module Bin2Tap {
  import opened Wrappers
  import opened Bytes
  import opened Tape
  import opened Header
  import opened MakeTap

  /** The tape bin2tap.py's `make_tap` writes, or the reason it cannot: the
      code length or start address is not a 16-bit value, or the data block's
      length does not fit its prefix (`struct.pack` fails in each case). */
  function CodeTap(data: seq<byte>, name: string := DEFAULT_NAME, startAddr: int := DEFAULT_START): Result<seq<byte>, EncodeError>
    requires AsciiName(name)
  {
    if |data| > MAX_U16 || !IsU16(startAddr) then Err(OutOfRange)
    else if !Frameable(data) then Err(EncodingTooLarge)
    else Ok(CodeBlocks(data, name, startAddr))
  }

  /** Lines 17-29 of bin2tap.py: the header block's flag and fields, then
      the XOR of all of them (the accumulator loop of lines 26-28) appended. Fails when the
      code length or the start address is not a 16-bit value. */
  method HeaderBody(name: string, codeLength: int, startAddr: int) returns (r: Result<seq<byte>, EncodeError>)
    requires AsciiName(name) && 0 <= codeLength
    ensures r.Ok? <==> IsU16(codeLength) && IsU16(startAddr)
    ensures r.Err? ==> r.error == OutOfRange
    ensures r.Ok? ==> var body := [HEADER_FLAG] + CodeHeader(name, codeLength, startAddr);
      r.value == body + [XorFold(body)]
  {
    var padded := NormaliseName(name);
    assert AsciiBytes(padded) == NameBytes(name);
    var header: seq<byte> := [];
    header := header + [HEADER_FLAG];
    header := header + [CODE_TYPE];
    header := header + AsciiBytes(padded);
    if !IsU16(codeLength) {
      return Err(OutOfRange);
    }
    header := header + U16LE(codeLength);
    if !IsU16(startAddr) {
      return Err(OutOfRange);
    }
    header := header + U16LE(startAddr);
    header := header + U16LE(CODE_PARAM2);
    ghost var fields := [CODE_TYPE] + NameBytes(name) + U16LE(codeLength) + U16LE(startAddr) + U16LE(CODE_PARAM2);
    assert fields == CodeHeader(name, codeLength, startAddr);
    assert header == [HEADER_FLAG] + fields;

    var checksum := XorChecksum(header);
    r := Ok(header + [checksum]);
  }

  /** Lines 36-44 of bin2tap.py: the data block's flag and the code, then
      the XOR of all of them (the accumulator loop of lines 41-43) appended. */
  method DataBody(data: seq<byte>) returns (datablock: seq<byte>)
    ensures datablock == [DATA_FLAG] + data + [XorFold([DATA_FLAG] + data)]
  {
    datablock := [];
    datablock := datablock + [DATA_FLAG];
    datablock := datablock + data;
    assert datablock == [DATA_FLAG] + data;
    var checksum := XorChecksum(datablock);
    datablock := datablock + [checksum];
  }

  /** A checksummed body with its length prefix is the framed block; the
      prefix fits exactly when the payload is frameable. */
  lemma Framed(flag: byte, data: seq<byte>, body: seq<byte>)
    requires body == [flag] + data + [XorFold([flag] + data)]
    ensures IsU16(|body|) <==> Frameable(data)
    ensures Frameable(data) ==> U16LE(|body|) + body == TapBlock(flag, data)
  {
  }

  /** bin2tap.py's `make_tap`: each body gets its 2-byte length prefix and is
      appended to the tape; a length that does not fit 16 bits fails. */
  method Bin2Tap(data: seq<byte>, name: string := DEFAULT_NAME, startAddr: int := DEFAULT_START) returns (r: Result<seq<byte>, EncodeError>)
    requires AsciiName(name)
    ensures r == CodeTap(data, name, startAddr)
  {
    var codeLength := |data|;
    var tap: seq<byte> := [];
    var header := HeaderBody(name, codeLength, startAddr);
    if header.Err? {
      return Err(header.error);
    }
    ghost var fields := CodeHeader(name, codeLength, startAddr);
    Framed(HEADER_FLAG, fields, header.value);
    tap := tap + U16LE(|header.value|);
    tap := tap + header.value;
    var headerBlock := tap;
    assert headerBlock == TapBlock(HEADER_FLAG, fields);

    var datablock := DataBody(data);
    if !IsU16(|datablock|) {
      return Err(EncodingTooLarge);
    }
    Framed(DATA_FLAG, data, datablock);
    tap := tap + U16LE(|datablock|);
    tap := tap + datablock;
    assert tap == headerBlock + TapBlock(DATA_FLAG, data);
    r := Ok(tap);
  }

  /** On success the tape is header block `13 00 | 00 03 name len start 00 80
      checksum` and data block `len+2 | FF data checksum`, 25 bytes besides
      the code; it succeeds exactly for 16-bit start addresses and code that
      fits one block. */
  lemma CodeTapLayout(data: seq<byte>, name: string, startAddr: int)
    requires AsciiName(name)
    ensures CodeTap(data, name, startAddr).Ok? <==> Frameable(data) && IsU16(startAddr)
    ensures CodeTap(data, name, startAddr).Ok? ==> var t := CodeTap(data, name, startAddr).value;
      && |t| == |data| + 25
      && t[..4] == [0x13, 0x00, HEADER_FLAG, CODE_TYPE]
      && t[4..14] == NameBytes(name)
      && Word(t[14], t[15]) == |data|
      && Word(t[16], t[17]) == startAddr
      && t[18..20] == [0x00, 0x80]
      && XorFold(t[2..21]) == 0
      && Word(t[21], t[22]) == |data| + 2
      && t[23] == DATA_FLAG
      && t[24..24 + |data|] == data
      && t[|t| - 1] == XorByte(DATA_FLAG, XorFold(data))
  {
    if Frameable(data) && IsU16(startAddr) {
      CodeBlocksLayout(data, name, startAddr);
    }
  }

  /** For every start address make_tap.py accepts, bin2tap.py succeeds and
      fails on the same inputs, with the same error, and its tape is exactly
      the part of make_tap.py's tape after the loader's two blocks. */
  lemma CodeTapIsLoaderTapTail(data: seq<byte>, name: string, startAddr: int)
    requires AsciiName(name) && 1 <= startAddr
    ensures CodeTap(data, name, startAddr).Ok? <==> LoaderTap(data, name, startAddr).Ok?
    ensures CodeTap(data, name, startAddr).Err? ==>
      CodeTap(data, name, startAddr).error == LoaderTap(data, name, startAddr).error
    ensures CodeTap(data, name, startAddr).Ok? ==>
      LoaderTap(data, name, startAddr).value == ProgramBlocks(name, startAddr) + CodeTap(data, name, startAddr).value
  {
  }

  /** On success the tape reads back as exactly two blocks: the code header,
      then the code. */
  lemma CodeTapBlocks(data: seq<byte>, name: string, startAddr: int)
    requires AsciiName(name)
    requires CodeTap(data, name, startAddr).Ok?
    ensures ParseBlocks(CodeTap(data, name, startAddr).value) == Some([
      Block(HEADER_FLAG, CodeHeader(name, |data|, startAddr)),
      Block(DATA_FLAG, data)])
  {
    CodeHeaderFields(name, |data|, startAddr);
    TwoBlocksParse(Block(HEADER_FLAG, CodeHeader(name, |data|, startAddr)), Block(DATA_FLAG, data));
  }

  /** Three bytes of code at 0x8000, under any name: a 28-byte tape whose
      data block is its length `05 00`, the FF flag, the code verbatim and
      its checksum `0D`. */
  lemma CodeTapExample(name: string)
    requires AsciiName(name)
    ensures CodeTap([0x3E, 0x05, 0xC9], name, 0x8000).Ok?
    ensures var t := CodeTap([0x3E, 0x05, 0xC9], name, 0x8000).value;
      |t| == 28 && t[21..] == [0x05, 0x00, DATA_FLAG, 0x3E, 0x05, 0xC9, 0x0D]
  {
    var data: seq<byte> := [0x3E, 0x05, 0xC9];
    CodeTapLayout(data, name, 0x8000);
    ExampleChecksum();
    DataBlockOfThree(CodeTap(data, name, 0x8000).value, data, 0x0D);
  }

  /** The last seven bytes of a two-block tape whose code is three bytes. */
  lemma DataBlockOfThree(t: seq<byte>, data: seq<byte>, c: byte)
    requires |data| == 3 && |t| == 28
    requires Word(t[21], t[22]) == 5 && t[23] == DATA_FLAG && t[24..27] == data && t[27] == c
    ensures t[21..] == [0x05, 0x00, DATA_FLAG, data[0], data[1], data[2], c]
  {
    U16LEOfWord(t[21], t[22]);
    assert t[24] == data[0] && t[25] == data[1] && t[26] == data[2];
  }

  /** `FF ^ 3E ^ 05 ^ C9` is `0D`, one step of the fold at a time. */
  lemma ExampleChecksum()
    ensures XorByte(DATA_FLAG, XorFold([0x3E, 0x05, 0xC9])) == 0x0D
  {
    FoldOfThree([0x3E, 0x05, 0xC9]);
    XorZero(0x3E);
    XorOfExample();
  }

  /** The fold of three bytes, step by step. */
  lemma FoldOfThree(s: seq<byte>)
    requires |s| == 3
    ensures XorFold(s) == XorByte(XorByte(XorByte(0, s[0]), s[1]), s[2])
  {
    var s2 := s[..2];
    var s1 := s2[..1];
    assert s1[..0] == [];
    assert XorFold(s1) == XorByte(0, s[0]);
    assert XorFold(s2) == XorByte(XorFold(s1), s[1]);
  }

  /** The three XORs of the example, each down to a case `XorZero` or
      `XorSelf` settles, one binary digit per step. */
  lemma XorOfExample()
    ensures Xor(0x3E, 0x05) == 0x3B && Xor(0x3B, 0xC9) == 0xF2 && Xor(0xFF, 0xF2) == 0x0D
  {
    XorZero(7);
    assert Xor(15, 1) == 14;
    assert Xor(31, 2) == 29;
    assert Xor(62, 5) == 59;
    XorZero(3);
    assert Xor(1, 6) == 7;
    assert Xor(3, 12) == 15;
    assert Xor(7, 25) == 30;
    assert Xor(14, 50) == 60;
    assert Xor(29, 100) == 121;
    assert Xor(59, 201) == 242;
    XorSelf(15);
    assert Xor(31, 30) == 1;
    assert Xor(63, 60) == 3;
    assert Xor(127, 121) == 6;
    assert Xor(255, 242) == 13;
  }

  /** 70000 bytes of code are refused as out of range, the length field
      cannot hold them. */
  lemma CodeTapTooLong(code: seq<byte>, name: string, startAddr: int)
    requires AsciiName(name) && |code| == 70000
    ensures CodeTap(code, name, startAddr) == Err(OutOfRange)
  {
  }

  /** With both defaults, as the script's entry point calls it: the tape is
      made exactly for code that fits one block, and it is the tail of
      make_tap.py's default tape after the loader's two blocks. */
  lemma DefaultCodeTap(code: seq<byte>)
    ensures (DefaultNameAscii(); CodeTap(code).Ok? <==> Frameable(code))
    ensures (DefaultNameAscii(); CodeTap(code).Ok? ==>
      LoaderTap(code).value == ProgramBlocks(DEFAULT_NAME, DEFAULT_START) + CodeTap(code).value)
  {
    DefaultNameAscii();
    CodeTapIsLoaderTapTail(code, DEFAULT_NAME, DEFAULT_START);
  }

  /** The two entry points, each called with nothing but the code. */
  method DefaultTapes(code: seq<byte>) returns (loaderTape: Result<seq<byte>, EncodeError>, codeTape: Result<seq<byte>, EncodeError>)
    ensures (DefaultNameAscii(); loaderTape == LoaderTap(code) && codeTape == CodeTap(code))
    ensures loaderTape.Ok? <==> Frameable(code)
    ensures codeTape.Ok? <==> Frameable(code)
    ensures loaderTape.Ok? ==> loaderTape.value == ProgramBlocks(DEFAULT_NAME, DEFAULT_START) + codeTape.value
  {
    DefaultNameAscii();
    DefaultLoaderTap(code);
    DefaultCodeTap(code);
    loaderTape := MakeLoaderTap(code);
    codeTape := Bin2Tap(code);
  }
}
