/** `make_loader_tap` of make_tap.py: a tape holding the BASIC loader
    (header and data block) followed by the machine code (header and data
    block). The code bytes come in as a value and the tape goes out as one;
    reading and writing the files is not part of this model. */
module MakeTap {
  import opened Wrappers
  import opened Bytes
  import opened Tape
  import opened Basic
  import opened Header

  /** The name and the start address `make_loader_tap` and bin2tap.py's
      `make_tap` use when the caller gives none. */
  const DEFAULT_NAME := "TicTacToe"
  const DEFAULT_START := 0x8000

  /** The two blocks that carry the loader program. */
  function ProgramBlocks(name: string, start: int): seq<byte>
    requires AsciiName(name) && 1 <= start <= MAX_U16
  {
    LoaderLength(start);
    TapBlock(HEADER_FLAG, ProgramHeader(name, |Loader(start)|)) + TapBlock(DATA_FLAG, Loader(start))
  }

  /** The two blocks that carry the machine code. */
  function CodeBlocks(code: seq<byte>, name: string, start: int): seq<byte>
    requires AsciiName(name) && Frameable(code) && IsU16(start)
  {
    TapBlock(HEADER_FLAG, CodeHeader(name, |code|, start)) + TapBlock(DATA_FLAG, code)
  }

  /** The tape `make_loader_tap` writes, or the reason it cannot: a start
      address outside 1..65535 or a code length outside 0..65535 is out of
      range, and code longer than 65533 bytes does not fit one block. */
  function LoaderTap(code: seq<byte>, name: string := DEFAULT_NAME, start: int := DEFAULT_START): Result<seq<byte>, EncodeError>
    requires AsciiName(name)
  {
    if start < 1 || start > MAX_U16 || |code| > MAX_U16 then Err(OutOfRange)
    else if !Frameable(code) then Err(EncodingTooLarge)
    else Ok(ProgramBlocks(name, start) + CodeBlocks(code, name, start))
  }

  /** Lines 58-79 of `make_loader_tap`: the three loader lines grow token by
      token and are appended to the program. */
  method BuildLoader(start: int) returns (basic: seq<byte>)
    requires 1 <= start <= MAX_U16
    ensures basic == Loader(start)
  {
    LoaderLinesFit(start);
    basic := [];
    var line10: seq<byte> := [];
    line10 := line10 + [CLEAR_TOKEN];
    var literal := NumberEncoding(start - 1);
    line10 := line10 + literal;
    assert line10 == ClearTokens(start);
    var line := MakeBasicLine(CLEAR_LINE, line10);
    basic := basic + line;
    ghost var first := BasicLine(CLEAR_LINE, ClearTokens(start));
    assert basic == first;

    var line20: seq<byte> := [];
    line20 := line20 + [LOAD_TOKEN];
    line20 := line20 + [QUOTE];
    line20 := line20 + [QUOTE];
    line20 := line20 + [CODE_TOKEN];
    assert line20 == LoadTokens();
    line := MakeBasicLine(LOAD_LINE, line20);
    basic := basic + line;
    ghost var second := first + BasicLine(LOAD_LINE, LoadTokens());
    assert basic == second;

    var line30: seq<byte> := [];
    line30 := line30 + [RANDOMIZE_TOKEN];
    line30 := line30 + [USR_TOKEN];
    literal := NumberEncoding(start);
    line30 := line30 + literal;
    assert line30 == RunTokens(start);
    line := MakeBasicLine(RUN_LINE, line30);
    basic := basic + line;
    assert basic == second + BasicLine(RUN_LINE, RunTokens(start));
  }

  /** Lines 84-89 of `make_loader_tap`: the program header, field by field. */
  method BuildProgramHeader(name: string, basicLen: int) returns (headerData: seq<byte>)
    requires AsciiName(name) && IsU16(basicLen)
    ensures headerData == ProgramHeader(name, basicLen)
  {
    headerData := [];
    headerData := headerData + [PROGRAM_TYPE];
    headerData := headerData + NameBytes(name);
    headerData := headerData + U16LE(basicLen);
    headerData := headerData + U16LE(AUTOSTART_LINE);
    headerData := headerData + U16LE(basicLen);
  }

  /** Lines 98-103 of `make_loader_tap`: the code header, field by field. */
  method BuildCodeHeader(name: string, codeLen: int, start: int) returns (codeHeader: seq<byte>)
    requires AsciiName(name) && IsU16(codeLen) && IsU16(start)
    ensures codeHeader == CodeHeader(name, codeLen, start)
  {
    codeHeader := [];
    codeHeader := codeHeader + [CODE_TYPE];
    codeHeader := codeHeader + NameBytes(name);
    codeHeader := codeHeader + U16LE(codeLen);
    codeHeader := codeHeader + U16LE(start);
    codeHeader := codeHeader + U16LE(CODE_PARAM2);
  }

  /** `make_loader_tap`: the four blocks are appended to the tape in the
      order the script builds them. */
  method MakeLoaderTap(code: seq<byte>, name: string := DEFAULT_NAME, start: int := DEFAULT_START) returns (r: Result<seq<byte>, EncodeError>)
    requires AsciiName(name)
    ensures r == LoaderTap(code, name, start)
  {
    if start < 1 || start > MAX_U16 {
      return Err(OutOfRange);
    }
    var codeLen := |code|;
    var tap: seq<byte> := [];
    var basic := BuildLoader(start);
    var basicLen := |basic|;
    LoaderLength(start);
    var headerData := BuildProgramHeader(name, basicLen);
    var programHeaderBlock := MakeTapBlock(HEADER_FLAG, headerData);
    tap := tap + programHeaderBlock;
    var basicBlock := MakeTapBlock(DATA_FLAG, basic);
    tap := tap + basicBlock;
    assert tap == programHeaderBlock + basicBlock;
    assert programHeaderBlock + basicBlock == ProgramBlocks(name, start);

    if codeLen > MAX_U16 {
      return Err(OutOfRange);
    }
    var codeHeader := BuildCodeHeader(name, codeLen, start);
    if !Frameable(code) {
      return Err(EncodingTooLarge);
    }
    var codeHeaderBlock := MakeTapBlock(HEADER_FLAG, codeHeader);
    tap := tap + codeHeaderBlock;
    var codeBlock := MakeTapBlock(DATA_FLAG, code);
    tap := tap + codeBlock;
    assert codeHeaderBlock + codeBlock == CodeBlocks(code, name, start);
    assert tap == (programHeaderBlock + basicBlock) + (codeHeaderBlock + codeBlock);
    r := Ok(tap);
  }

  /** The tape is the four framed blocks one after the other. */
  lemma LoaderTapValue(code: seq<byte>, name: string, start: int)
    requires AsciiName(name)
    requires 1 <= start <= MAX_U16 && Frameable(code)
    ensures (LoaderLength(start);
      LoaderTap(code, name, start).value
        == TapBlock(HEADER_FLAG, ProgramHeader(name, |Loader(start)|)) + TapBlock(DATA_FLAG, Loader(start))
         + TapBlock(HEADER_FLAG, CodeHeader(name, |code|, start)) + TapBlock(DATA_FLAG, code))
  {
    LoaderLength(start);
    var ph, basic, ch := ProgramHeader(name, |Loader(start)|), Loader(start), CodeHeader(name, |code|, start);
    var t1, t2, t3, t4 := TapBlock(HEADER_FLAG, ph), TapBlock(DATA_FLAG, basic), TapBlock(HEADER_FLAG, ch), TapBlock(DATA_FLAG, code);
    assert LoaderTap(code, name, start).value == (t1 + t2) + (t3 + t4);
    assert (t1 + t2) + (t3 + t4) == t1 + t2 + t3 + t4;
  }

  /** The tape is made exactly when start is in 1..65535 and the code fits a
      block, and it reads back as exactly four blocks in fixed order:
      program header, loader, code header, code. */
  lemma LoaderTapBlocks(code: seq<byte>, name: string, start: int)
    requires AsciiName(name)
    ensures LoaderTap(code, name, start).Ok? <==> 1 <= start <= MAX_U16 && Frameable(code)
    ensures 1 <= start <= MAX_U16 && Frameable(code) ==>
      (LoaderLength(start);
       ParseBlocks(LoaderTap(code, name, start).value) == Some([
         Block(HEADER_FLAG, ProgramHeader(name, |Loader(start)|)),
         Block(DATA_FLAG, Loader(start)),
         Block(HEADER_FLAG, CodeHeader(name, |code|, start)),
         Block(DATA_FLAG, code)]))
  {
    if 1 <= start <= MAX_U16 && Frameable(code) {
      LoaderLength(start);
      var ph, basic, ch := ProgramHeader(name, |Loader(start)|), Loader(start), CodeHeader(name, |code|, start);
      ProgramHeaderFields(name, |basic|);
      CodeHeaderFields(name, |code|, start);
      var t1, t2, t3, t4 := TapBlock(HEADER_FLAG, ph), TapBlock(DATA_FLAG, basic), TapBlock(HEADER_FLAG, ch), TapBlock(DATA_FLAG, code);
      var t := LoaderTap(code, name, start).value;
      LoaderTapValue(code, name, start);
      assert t == t1 + t2 + t3 + t4;
      FourBlocksParse(Block(HEADER_FLAG, ph), Block(DATA_FLAG, basic), Block(HEADER_FLAG, ch), Block(DATA_FLAG, code));
      assert ParseBlocks(t1 + t2 + t3 + t4) == Some([Block(HEADER_FLAG, ph), Block(DATA_FLAG, basic), Block(HEADER_FLAG, ch), Block(DATA_FLAG, code)]);
    }
  }

  /** The tape's length: four blocks of 17 + 4, loader + 4, 17 + 4 and code + 4 bytes. */
  lemma LoaderTapLength(code: seq<byte>, name: string, start: int)
    requires AsciiName(name)
    requires LoaderTap(code, name, start).Ok?
    ensures |LoaderTap(code, name, start).value|
         == (17 + 4) + (|Loader(start)| + 4) + (17 + 4) + (|code| + 4)
  {
    LoaderLength(start);
    ProgramHeaderFields(name, |Loader(start)|);
    CodeHeaderFields(name, |code|, start);
    TapBlockLayout(HEADER_FLAG, ProgramHeader(name, |Loader(start)|));
    TapBlockLayout(DATA_FLAG, Loader(start));
    TapBlockLayout(HEADER_FLAG, CodeHeader(name, |code|, start));
    TapBlockLayout(DATA_FLAG, code);
  }

  /** The code blocks byte by byte: header block `13 00 00 03`, the name,
      length, start and `00 80`, its checksum; then the data block's length,
      `FF`, the code verbatim and its checksum. 25 bytes besides the code. */
  lemma CodeBlocksLayout(code: seq<byte>, name: string, start: int)
    requires AsciiName(name) && Frameable(code) && IsU16(start)
    ensures var t := CodeBlocks(code, name, start);
      && |t| == |code| + 25
      && t[..4] == [0x13, 0x00, HEADER_FLAG, CODE_TYPE]
      && t[4..14] == NameBytes(name)
      && Word(t[14], t[15]) == |code|
      && Word(t[16], t[17]) == start
      && t[18..20] == [0x00, 0x80]
      && t[20] == XorFold(t[2..20])
      && XorFold(t[2..21]) == 0
      && Word(t[21], t[22]) == |code| + 2
      && t[23] == DATA_FLAG
      && t[24..24 + |code|] == code
      && t[|t| - 1] == XorByte(DATA_FLAG, XorFold(code))
  {
    var h := CodeHeader(name, |code|, start);
    CodeHeaderBytes(name, |code|, start);
    HeaderAndDataLayout(h, code);
    HeaderFieldsInTape(CodeBlocks(code, name, start), h, NameBytes(name), |code|, start);
  }

  /** Where the fields of a code header end up once its block starts a tape. */
  lemma HeaderFieldsInTape(t: seq<byte>, h: seq<byte>, nameBytes: seq<byte>, codeLen: int, start: int)
    requires |t| >= 21 && |h| == 17 && t[..2] == [0x13, 0x00] && t[2] == HEADER_FLAG && t[3..20] == h
    requires h[0] == CODE_TYPE && h[1..11] == nameBytes && h[15..17] == [0x00, 0x80]
    requires Word(h[11], h[12]) == codeLen && Word(h[13], h[14]) == start
    ensures t[..4] == [0x13, 0x00, HEADER_FLAG, CODE_TYPE]
    ensures t[4..14] == nameBytes
    ensures Word(t[14], t[15]) == codeLen && Word(t[16], t[17]) == start
    ensures t[18..20] == [0x00, 0x80]
  {
    SubSlice(t, 3, 20, h, 1, 11);
    SubSlice(t, 3, 20, h, 15, 17);
    assert t[14] == h[11] && t[15] == h[12] && t[16] == h[13] && t[17] == h[14];
    assert t[..4] == t[..2] + [t[2], h[0]];
  }

  /** Start address 0 would make line 10 `CLEAR -1`, and 70000 bytes of code
      do not fit the length field: both are refused as out of range. */
  lemma LoaderTapRefusals(code: seq<byte>, name: string)
    requires AsciiName(name)
    ensures LoaderTap(code, name, 0) == Err(OutOfRange)
    ensures |code| == 70000 ==> LoaderTap(code, name, 0x8000) == Err(OutOfRange)
  {
  }

  /** The default name is ASCII, so the defaults are always accepted. */
  lemma DefaultNameAscii()
    ensures AsciiName(DEFAULT_NAME)
  {
  }

  /** With both defaults, as the script's entry point calls it: the loader
      for 0x8000 is 44 bytes, and the tape is made exactly for code that fits
      one block, 94 bytes longer than the code. */
  lemma DefaultLoaderTap(code: seq<byte>)
    ensures (DefaultNameAscii(); LoaderTap(code).Ok? <==> Frameable(code))
    ensures (DefaultNameAscii(); LoaderTap(code).Ok? ==> |LoaderTap(code).value| == |code| + 94)
  {
    DefaultNameAscii();
    DefaultsDigits();
    LoaderLength(DEFAULT_START);
    if Frameable(code) {
      LoaderTapLength(code, DEFAULT_NAME, DEFAULT_START);
    }
  }

  /** 32767 and 32768 are both written with five digits. */
  lemma DefaultsDigits()
    ensures |DecimalDigits(DEFAULT_START - 1)| == 5 && |DecimalDigits(DEFAULT_START)| == 5
  {
    DigitsAtMost(DEFAULT_START - 1, 5);
    DigitsAtMost(DEFAULT_START, 5);
    DigitsAtLeast(DEFAULT_START - 1, 5);
    DigitsAtLeast(DEFAULT_START, 5);
  }
}
