/** TAP block framing: `make_tap_block` of make_tap.py, and a reader of the
    framed form that recovers flag and payload and checks the checksum. */
module Tape {
  import opened Wrappers
  import opened Bytes

  /** Flag byte of a header (descriptor) block. */
  const HEADER_FLAG: byte := 0x00
  /** Flag byte of a data block. */
  const DATA_FLAG: byte := 0xFF

  /** One block of a tape: its flag and its payload. */
  datatype Block = Block(flag: byte, payload: seq<byte>)

  /** The length prefix `len(data) + 2` fits in 16 bits (otherwise `struct.pack` fails). */
  predicate Frameable(data: seq<byte>) {
    |data| + 2 <= MAX_U16
  }

  /** The framed block: 2-byte little-endian length of flag, payload and
      checksum, then the flag, the payload and the XOR checksum of both. */
  function TapBlock(flag: byte, data: seq<byte>): seq<byte>
    requires Frameable(data)
  {
    U16LE(|data| + 2) + [flag] + data + [XorFold([flag] + data)]
  }

  /** `make_tap_block`: the block grows by append/extend, then the length is prepended. */
  method MakeTapBlock(flag: byte, data: seq<byte>) returns (result: seq<byte>)
    requires Frameable(data)
    ensures result == TapBlock(flag, data)
  {
    var block: seq<byte> := [];
    block := block + [flag];
    block := block + data;
    assert block == [flag] + data;
    var cs := XorChecksum(block);
    block := block + [cs];
    result := U16LE(|block|) + block;
    assert result == U16LE(|data| + 2) + ([flag] + data + [cs]);
  }

  /** Field placement in a framed block, and the checksum property: the
      bytes after the length prefix fold to 0. */
  lemma TapBlockLayout(flag: byte, data: seq<byte>)
    requires Frameable(data)
    ensures var b := TapBlock(flag, data);
      && |b| == |data| + 4
      && Word(b[0], b[1]) == |data| + 2
      && b[2] == flag
      && b[3..3 + |data|] == data
      && b[|b| - 1] == XorByte(flag, XorFold(data))
      && XorFold(b[2..]) == 0
  {
    var b := TapBlock(flag, data);
    XorFoldCons(flag, data);
    assert b[2..] == ([flag] + data) + [XorFold([flag] + data)];
    XorFoldClosed([flag] + data);
    assert b[3..3 + |data|] == data;
  }

  /** A block read off the front of a tape, and what follows it. */
  datatype Split = Split(block: Block, rest: seq<byte>)

  /** Reads one block: the length prefix, then that many bytes, which must
      hold at least flag and checksum and must fold to 0. */
  function ParseBlock(s: seq<byte>): (r: Option<Split>)
    ensures r.Some? ==> |r.value.rest| < |s|
  {
    if |s| < 2 then None
    else
      var n := Word(s[0], s[1]);
      if n < 2 || |s| < 2 + n then None
      else if XorFold(s[2..2 + n]) != 0 then None
      else Some(Split(Block(s[2], s[3..1 + n]), s[2 + n..]))
  }

  /** Reads a whole tape as back-to-back blocks; fails unless every byte
      belongs to a well-formed block. */
  function ParseBlocks(s: seq<byte>): Option<seq<Block>>
    decreases |s|
  {
    if s == [] then Some([])
    else match ParseBlock(s)
      case None => None
      case Some(sp) =>
        match ParseBlocks(sp.rest)
        case None => None
        case Some(bs) => Some([sp.block] + bs)
  }

  /** Reading a framed block back yields its flag and payload, whatever follows it. */
  lemma TapBlockParses(flag: byte, data: seq<byte>, rest: seq<byte>)
    requires Frameable(data)
    ensures ParseBlock(TapBlock(flag, data) + rest) == Some(Split(Block(flag, data), rest))
  {
    var b := TapBlock(flag, data);
    var s := b + rest;
    var n := |data| + 2;
    TapBlockLayout(flag, data);
    assert s[..2] == b[..2];
    assert Word(s[0], s[1]) == n;
    assert s[2..2 + n] == b[2..];
    assert s[3..1 + n] == b[3..3 + |data|];
    assert s[2 + n..] == rest;
  }

  /** Conversely, the reader accepts nothing but framed blocks: whatever it
      reads off the front of a tape is a frameable block whose framed form,
      followed by the rest, is the whole tape. */
  lemma ParseBlockFramed(s: seq<byte>)
    requires ParseBlock(s).Some?
    ensures var sp := ParseBlock(s).value;
      Frameable(sp.block.payload) && s == TapBlock(sp.block.flag, sp.block.payload) + sp.rest
  {
    var sp := ParseBlock(s).value;
    var n := Word(s[0], s[1]);
    var body := s[2..1 + n];
    var c := s[1 + n];
    assert s[2..2 + n] == body + [c];
    XorFoldClosedOnly(body, c);
    assert body == [sp.block.flag] + sp.block.payload;
    U16LEOfWord(s[0], s[1]);
    assert s[..2] == U16LE(|sp.block.payload| + 2);
    assert s == s[..2] + (body + [c]) + sp.rest;
  }

  /** A tape that starts with a framed block reads as that block followed by
      the blocks of the rest. */
  lemma ParseBlocksCons(flag: byte, data: seq<byte>, rest: seq<byte>)
    requires Frameable(data)
    requires ParseBlocks(rest).Some?
    ensures ParseBlocks(TapBlock(flag, data) + rest)
         == Some([Block(flag, data)] + ParseBlocks(rest).value)
  {
    TapBlockParses(flag, data, rest);
  }

  /** Frames a list of blocks back to back; the inverse of ParseBlocks. */
  function Container(bs: seq<Block>): seq<byte>
    requires forall i | 0 <= i < |bs| :: Frameable(bs[i].payload)
  {
    if bs == [] then []
    else TapBlock(bs[0].flag, bs[0].payload) + Container(bs[1..])
  }

  /** Every list of frameable blocks is read back exactly from its container. */
  lemma {:induction false} ContainerParses(bs: seq<Block>)
    requires forall i | 0 <= i < |bs| :: Frameable(bs[i].payload)
    ensures ParseBlocks(Container(bs)) == Some(bs)
  {
    if bs != [] {
      ContainerParses(bs[1..]);
      ParseBlocksCons(bs[0].flag, bs[0].payload, Container(bs[1..]));
      assert [bs[0]] + bs[1..] == bs;
    }
  }

  /** The container of four blocks is their four framed forms in order. */
  lemma ContainerOfFour(b1: Block, b2: Block, b3: Block, b4: Block)
    requires Frameable(b1.payload) && Frameable(b2.payload)
    requires Frameable(b3.payload) && Frameable(b4.payload)
    ensures Container([b1, b2, b3, b4])
      == TapBlock(b1.flag, b1.payload) + TapBlock(b2.flag, b2.payload)
       + TapBlock(b3.flag, b3.payload) + TapBlock(b4.flag, b4.payload)
  {
    var t1, t2 := TapBlock(b1.flag, b1.payload), TapBlock(b2.flag, b2.payload);
    var t3, t4 := TapBlock(b3.flag, b3.payload), TapBlock(b4.flag, b4.payload);
    assert [b4][1..] == [];
    assert Container([b4]) == t4 + [] == t4;
    assert [b3, b4][1..] == [b4];
    assert Container([b3, b4]) == t3 + t4;
    assert [b2, b3, b4][1..] == [b3, b4];
    assert Container([b2, b3, b4]) == t2 + (t3 + t4);
    assert [b1, b2, b3, b4][1..] == [b2, b3, b4];
    assert Container([b1, b2, b3, b4]) == t1 + (t2 + (t3 + t4));
  }

  /** A tape of four framed blocks reads back as exactly those four blocks. */
  lemma FourBlocksParse(b1: Block, b2: Block, b3: Block, b4: Block)
    requires Frameable(b1.payload) && Frameable(b2.payload)
    requires Frameable(b3.payload) && Frameable(b4.payload)
    ensures ParseBlocks(
        TapBlock(b1.flag, b1.payload) + TapBlock(b2.flag, b2.payload)
      + TapBlock(b3.flag, b3.payload) + TapBlock(b4.flag, b4.payload))
      == Some([b1, b2, b3, b4])
  {
    ContainerOfFour(b1, b2, b3, b4);
    ContainerParses([b1, b2, b3, b4]);
  }

  /** A tape of two framed blocks reads back as exactly those two blocks. */
  lemma TwoBlocksParse(b1: Block, b2: Block)
    requires Frameable(b1.payload) && Frameable(b2.payload)
    ensures ParseBlocks(TapBlock(b1.flag, b1.payload) + TapBlock(b2.flag, b2.payload))
      == Some([b1, b2])
  {
    var t1, t2 := TapBlock(b1.flag, b1.payload), TapBlock(b2.flag, b2.payload);
    assert [b2][1..] == [];
    assert Container([b2]) == t2 + [] == t2;
    assert [b1, b2][1..] == [b2];
    assert Container([b1, b2]) == t1 + t2;
    ContainerParses([b1, b2]);
  }

  /** A slice of a slice is a slice of the whole. */
  lemma SubSlice<T>(t: seq<T>, a: nat, b: nat, h: seq<T>, i: nat, j: nat)
    requires a <= b <= |t| && t[a..b] == h && i <= j <= |h|
    ensures t[a + i..a + j] == h[i..j]
  {
    assert forall k | i <= k < j :: t[a + k] == h[k];
  }

  /** A framed 17-byte header: prefix `13 00`, the flag, the header, and a
      checksum that closes the 19-byte body to 0. */
  lemma HeaderBlockLayout(h: seq<byte>)
    requires |h| == 17
    ensures var hb := TapBlock(HEADER_FLAG, h);
      && |hb| == 21
      && hb[..2] == [0x13, 0x00]
      && hb[2] == HEADER_FLAG
      && hb[3..20] == h
      && hb[20] == XorFold(hb[2..20])
      && XorFold(hb[2..]) == 0
  {
    var hb := TapBlock(HEADER_FLAG, h);
    TapBlockLayout(HEADER_FLAG, h);
    assert hb[2..20] == [HEADER_FLAG] + h;
    assert hb[3..20] == h;
    XorFoldCons(HEADER_FLAG, h);
  }

  /** A framed 17-byte header followed by a framed data block. */
  lemma HeaderAndDataLayout(h: seq<byte>, data: seq<byte>)
    requires |h| == 17 && Frameable(data)
    ensures var t := TapBlock(HEADER_FLAG, h) + TapBlock(DATA_FLAG, data);
      && |t| == |data| + 25
      && t[..2] == [0x13, 0x00]
      && t[2] == HEADER_FLAG
      && t[3..20] == h
      && t[20] == XorFold(t[2..20])
      && XorFold(t[2..21]) == 0
      && Word(t[21], t[22]) == |data| + 2
      && t[23] == DATA_FLAG
      && t[24..24 + |data|] == data
      && t[|t| - 1] == XorByte(DATA_FLAG, XorFold(data))
  {
    var hb := TapBlock(HEADER_FLAG, h);
    var db := TapBlock(DATA_FLAG, data);
    var t := hb + db;
    HeaderBlockLayout(h);
    TapBlockLayout(DATA_FLAG, data);
    assert t[..21] == hb;
    assert t[21..] == db;
    assert t[..2] == hb[..2];
    assert t[3..20] == hb[3..20];
    assert t[2..20] == hb[2..20];
    assert t[2..21] == hb[2..];
    assert t[24..24 + |data|] == db[3..3 + |data|];
  }
}
