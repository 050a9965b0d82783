# ZX Spectrum .tap encoder

A Dafny model of the two encoders of the zx-tictactoe tools that turn a raw
Z80 binary into a ZX Spectrum `.tap` cassette image:

- `make_tap.py` builds a four-block tape: a program header, a three-line
  Sinclair BASIC loader (`10 CLEAR start-1`, `20 LOAD ""CODE`,
  `30 RANDOMIZE USR start`), a code header, and the code.
- `bin2tap.py` builds the two code blocks only.

Every block is framed as a 2-byte little-endian length, a flag byte (`00`
header, `FF` data), the payload, and the XOR of flag and payload. Headers are
17 bytes: type, a 10-character name padded with spaces or cut, and three
little-endian 16-bit parameters. Numeric literals in the loader are the ASCII
digits, the marker `0E` and a 5-byte small-integer form.

Modules, one per concern:

- `Bytes` (`bytes.dfy`): 16-bit packing, the XOR fold, and `xor_checksum`.
- `Tape` (`tape.dfy`): `make_tap_block` and a block reader.
- `Basic` (`basic.dfy`): `number_encoding`, `make_basic_line`, a line and
  literal reader, and the loader program.
- `Header` (`header.dfy`): name normalisation and the header encoding, with its
  decoder.
- `MakeTap` (`make_tap.dfy`): `make_loader_tap`.
- `Bin2Tap` (`bin2tap.dfy`): bin2tap's `make_tap`.

Each of the scripts' imperative functions is a `method`. It appends to local
sequences in the same order as the script, its loops carry invariants, and it
is proved equal to a specification function. The properties of these formats
are lemmas about the specification functions, for example:

- a reader recovers every framed block, line and header, and every literal of 0..65535;
- the block reader accepts nothing but framed blocks;
- a block's body XORs to 0;
- the tape's exact layout;
- how the two scripts agree.

`struct.pack('<H')` and `struct.pack('>H')` succeed only for 0..65535. The
two entry points, `MakeTap.MakeLoaderTap` and `Bin2Tap.Bin2Tap`, check these
ranges before they call a helper and return an `Err` where the scripts would raise
`struct.error`:

- `OutOfRange` when a header field (code length, start address) does not fit;
- `EncodingTooLarge` when a block's length prefix does not fit.

Both name the exception the script raises, at the point where it raises it.

The helpers they call (`Tape.MakeTapBlock`, `Basic.MakeBasicLine`,
`MakeTap.BuildProgramHeader`, `MakeTap.BuildCodeHeader`)
instead require these ranges of their callers.

Both entry points take the scripts' defaults, name `"TicTacToe"` and start
address 0x8000, as default-valued parameters (`MakeTap.DEFAULT_NAME`,
`MakeTap.DEFAULT_START`).

A byte is an integer from 0 to 255, as an element of a Python `bytearray` is.
`^` is defined one binary digit at a time, and its algebra is proved from that
definition: zero is the identity, every number cancels itself, and it is
commutative and associative. `n & 0xFF` and `(n >> 8) & 0xFF` are written with
Python's meaning for every integer, negative ones included.

## Model

| member | source | states |
|---|---|---|
| Bytes.U16LE | zx-tictactoe/make_tap.py:19 | the little-endian field of n is two bytes that read back as n |
| Bytes.U16BE | zx-tictactoe/make_tap.py:27 | the big-endian field of n is two bytes that read back (high byte first) as n |
| Bytes.U16LEOfWord | zx-tictactoe/make_tap.py:19 | every byte pair is the little-endian field of the word it spells, so packing is onto |
| Bytes.LowByteShift8Spec | zx-tictactoe/make_tap.py:41-42 | `n & 0xFF` and `n >> 8` are the remainder and the quotient of n by 256, rounded down, for negative n too |
| Bytes.BytesOfU16 | zx-tictactoe/make_tap.py:41-42 | for n in 0..65535 the low byte and 256 times the high byte add up to n |
| Bytes.XorZero | zx-tictactoe/make_tap.py:7-9 | 0 is the identity of `^` on either side |
| Bytes.XorSelf | zx-tictactoe/make_tap.py:7-9 | every number XORed with itself is 0 |
| Bytes.XorCommutes | zx-tictactoe/make_tap.py:7-9 | `a ^ b == b ^ a` |
| Bytes.XorAssociates | zx-tictactoe/make_tap.py:7-9 | `(a ^ b) ^ c == a ^ (b ^ c)` |
| Bytes.XorBelow | zx-tictactoe/make_tap.py:9 | the XOR of two numbers below 2^k is below 2^k, so the checksum of bytes is a byte |
| Bytes.XorFoldAppend | zx-tictactoe/make_tap.py:6-10 | the checksum of a concatenation is the XOR of the parts' checksums |
| Bytes.XorFoldCons | zx-tictactoe/make_tap.py:14-17 | the checksum of flag + payload is the flag XOR the payload's checksum |
| Bytes.XorFoldClosed | zx-tictactoe/make_tap.py:17-18 | bytes followed by their own checksum XOR to 0 |
| Bytes.XorFoldClosedOnly | zx-tictactoe/make_tap.py:17-18 | conversely, a final byte that makes the whole XOR to 0 is exactly the checksum of the rest |
| Bytes.XorChecksum | zx-tictactoe/make_tap.py:6-10 | the accumulator loop returns the XOR of every byte of the data |
| Tape.MakeTapBlock | zx-tictactoe/make_tap.py:12-20 | the appended block with its prepended length is the framed block of flag and payload |
| Tape.TapBlockLayout | zx-tictactoe/make_tap.py:12-20 | a framed block is payload + 4 bytes: length field = payload + 2, then the flag, the payload verbatim, flag XOR payload checksum; everything after the prefix XORs to 0 |
| Tape.TapBlockParses | zx-tictactoe/make_tap.py:12-20 | reading a framed block off the front of any tape gives back its flag, its payload and the rest of the tape |
| Tape.ParseBlockFramed | zx-tictactoe/make_tap.py:12-20 | conversely, whatever the reader takes off the front of a tape is a frameable block whose framed form, followed by the rest, is the whole tape |
| Tape.ParseBlocksCons | zx-tictactoe/make_tap.py:12-20 | a tape that starts with a framed block reads as that block followed by the blocks of the rest |
| Tape.ContainerParses | zx-tictactoe/make_tap.py:91-108 | any list of frameable blocks framed back to back reads back as exactly that list |
| Tape.ContainerOfFour | zx-tictactoe/make_tap.py:91-108 | four blocks framed back to back are their four framed forms in order |
| Tape.FourBlocksParse | zx-tictactoe/make_tap.py:91-108 | four framed blocks in a row read back as exactly those four blocks |
| Tape.TwoBlocksParse | zx-tictactoe/bin2tap.py:31-48 | two framed blocks in a row read back as exactly those two blocks |
| Tape.HeaderBlockLayout | zx-tictactoe/make_tap.py:91 | a framed 17-byte header is 21 bytes `13 00 00 h… cs`, and its body XORs to 0 |
| Tape.HeaderAndDataLayout | zx-tictactoe/make_tap.py:105-108 | a framed header followed by a framed data block: every field at its offset, 25 bytes besides the data |
| Basic.DecimalDigitsShape | zx-tictactoe/make_tap.py:33 | `str(n)` of a non-negative n is ASCII digits only, with no leading zero unless n is 0 |
| Basic.DecimalRoundTrip | zx-tictactoe/make_tap.py:33 | the digits written for n spell n |
| Basic.DigitsAtMost | zx-tictactoe/make_tap.py:33 | a number below 10^k has at most k digits |
| Basic.DigitsAtLeast | zx-tictactoe/make_tap.py:33 | a number of at least 10^(k-1) has at least k digits |
| Basic.DigitRunStops | zx-tictactoe/make_tap.py:33-34 | the run of digits of a literal ends at the marker |
| Basic.NumberEncoding | zx-tictactoe/make_tap.py:30-44 | the appended literal is text, marker, then the 5-byte form: zeros for 0, `00 00 lo hi 00` below 65536, nothing from 65536 on |
| Basic.NumberLiteralRoundTrip | zx-tictactoe/make_tap.py:30-44 | for 0..65535 the text and the 5-byte form of the literal both read back as n |
| Basic.SmallIntFormValue | zx-tictactoe/make_tap.py:36-43 | for 0..65535 the 5-byte form holds exactly n |
| Basic.NumberLiteralZero | zx-tictactoe/make_tap.py:36-37 | 0 is written as `30 0E 00 00 00 00 00` |
| Basic.NumberLiteralOverflow | zx-tictactoe/make_tap.py:38-44 | from 65536 on nothing follows the marker, and the literal does not read back |
| Basic.NegativeLiteralMismatch | zx-tictactoe/make_tap.py:30-44 | `number_encoding(-1)` writes the text -1 but a 5-byte form that holds 65535 |
| Basic.MakeBasicLine | zx-tictactoe/make_tap.py:22-28 | the built line is the number big-endian, the token length + 1 little-endian, the tokens and `0D` |
| Basic.BasicLineLayout | zx-tictactoe/make_tap.py:22-28 | a line is tokens + 5 bytes, with the number, the length and the tokens at their offsets and `0D` last |
| Basic.BasicLineParses | zx-tictactoe/make_tap.py:22-28 | reading a line off the front of any program gives back its number, its tokens and the rest |
| Basic.LineAtFront | zx-tictactoe/make_tap.py:22-28 | a program whose first bytes hold a line number, length, tokens and `0D` reads that line first, then exactly the rest |
| Basic.LineBytesAtFront | zx-tictactoe/make_tap.py:22-28 | a line laid out as the script writes it reads back from the front of any program |
| Basic.ParseProgramCons | zx-tictactoe/make_tap.py:22-28 | a program that starts with a serialised line reads as that line followed by the lines of the rest |
| Basic.ProgramParses | zx-tictactoe/make_tap.py:58-79 | any list of serialisable lines written back to back reads back as exactly that list |
| Basic.LoaderLinesFit | zx-tictactoe/make_tap.py:58-79 | for start in 1..65535 both literals have at most 5 digits and each loader line fits its fields |
| Basic.LoaderLines | zx-tictactoe/make_tap.py:58-79 | the loader reads back as exactly lines 10, 20, 30 with their CLEAR, LOAD ""CODE and RANDOMIZE USR tokens |
| Basic.LoaderLiterals | zx-tictactoe/make_tap.py:63-78 | the literal after CLEAR denotes start-1 and the one after USR denotes start, in text and in binary form |
| Basic.LoaderLength | zx-tictactoe/make_tap.py:58-81 | the loader is 34 bytes plus the digits of start-1 and start, between 36 and 44 |
| Header.NormaliseNameSpec | zx-tictactoe/make_tap.py:86 | `name.ljust(10)[:10]` keeps the first ten characters and pads with spaces |
| Header.NormaliseNameIdempotent | zx-tictactoe/make_tap.py:86 | normalising a normalised name changes nothing |
| Header.AsciiBytesSpec | zx-tictactoe/make_tap.py:86 | each byte of `encode('ascii')` is the code of the character in its place |
| Header.HeaderRoundTrip | zx-tictactoe/make_tap.py:84-89 | decoding an encoded header gives back all of its fields |
| Header.HeaderDecodeEncode | zx-tictactoe/make_tap.py:84-89 | every 17-byte string decodes to a header whose encoding is that string |
| Header.ProgramHeaderFields | zx-tictactoe/make_tap.py:84-89 | the program header is 17 bytes holding type 0, the name, the length, autostart line 10 and the length again |
| Header.CodeHeaderFields | zx-tictactoe/make_tap.py:98-103 | the code header is 17 bytes holding type 3, the name, the code length, the start and 0x8000 |
| Header.CodeHeaderBytes | zx-tictactoe/make_tap.py:98-103 | where each field of the code header sits, with `00 80` last |
| Header.NameExamples | zx-tictactoe/make_tap.py:86 | "AB" is padded to "AB" + 8 spaces, "TwelveChars!" is cut to "TwelveChar" |
| Header.CodeHeaderExample | zx-tictactoe/make_tap.py:98-103 | the code header for 100 bytes at 0x8000 ends `64 00 00 80 00 80` |
| MakeTap.BuildLoader | zx-tictactoe/make_tap.py:58-79 | the three lines appended in order are the loader program |
| MakeTap.BuildProgramHeader | zx-tictactoe/make_tap.py:84-89 | the appended fields are the program header |
| MakeTap.BuildCodeHeader | zx-tictactoe/make_tap.py:98-103 | the appended fields are the code header |
| MakeTap.MakeLoaderTap | zx-tictactoe/make_tap.py:50-108 | the built tape, or the error it stops at, is `MakeTap.LoaderTap`: the four blocks, or `OutOfRange` / `EncodingTooLarge` where a field or the code block's length does not fit 16 bits (start checked to be 1..65535) |
| MakeTap.LoaderTapValue | zx-tictactoe/make_tap.py:91-108 | the tape is the four framed blocks one after another |
| MakeTap.LoaderTapBlocks | zx-tictactoe/make_tap.py:91-108 | a tape is made exactly when start is 1..65535 and the code fits a block, and it reads back as exactly program header, loader, code header, code |
| MakeTap.LoaderTapLength | zx-tictactoe/make_tap.py:91-108 | the tape is 21 + (loader + 4) + 21 + (code + 4) bytes |
| MakeTap.CodeBlocksLayout | zx-tictactoe/make_tap.py:98-108 | the code blocks byte by byte: `13 00 00 03`, name, length, start, `00 80`, checksum, then length + 2, `FF`, code, checksum |
| MakeTap.LoaderTapRefusals | zx-tictactoe/make_tap.py:63-102 | start 0 and 70000 bytes of code are both refused as out of range |
| MakeTap.DefaultNameAscii | zx-tictactoe/make_tap.py:46 | the default name "TicTacToe" is ASCII, so it is always accepted |
| MakeTap.DefaultsDigits | zx-tictactoe/make_tap.py:46 | the default start 0x8000 and 0x8000-1 are both written with five digits |
| MakeTap.DefaultLoaderTap | zx-tictactoe/make_tap.py:46-108 | with the default name and start the tape is made exactly for code that fits one block, and it is 94 bytes longer than the code |
| Bin2Tap.HeaderBody | zx-tictactoe/bin2tap.py:17-29 | the header body is flag, code header and their checksum (the loop of lines 26-28 is the one of `xor_checksum`, Bytes.XorChecksum); it fails as out of range exactly when length or start address is not 16-bit |
| Bin2Tap.DataBody | zx-tictactoe/bin2tap.py:36-44 | the data body is `FF`, the code and their checksum, computed by the same loop |
| Bin2Tap.Framed | zx-tictactoe/bin2tap.py:31-33 | a checksummed body's length fits 16 bits exactly when its payload is frameable, and body with prefix is the framed block |
| Bin2Tap.Bin2Tap | zx-tictactoe/bin2tap.py:11-48 | the built tape, or the error it stops at, is `Bin2Tap.CodeTap`: the two code blocks, or `OutOfRange` / `EncodingTooLarge` where a field or the data block's length does not fit 16 bits |
| Bin2Tap.CodeTapLayout | zx-tictactoe/bin2tap.py:11-48 | the tape exists exactly for frameable code and a 16-bit start; byte by byte it is the code header block then the data block |
| Bin2Tap.CodeTapIsLoaderTapTail | zx-tictactoe/bin2tap.py:11-48 | for start ≥ 1 bin2tap succeeds and fails exactly when make_tap (with the same error), and its tape is make_tap's with the loader's two blocks removed |
| Bin2Tap.CodeTapBlocks | zx-tictactoe/bin2tap.py:11-48 | the tape reads back as exactly the code header and the code |
| Bin2Tap.CodeTapExample | zx-tictactoe/bin2tap.py:36-48 | code `3E 05 C9` at 0x8000, under any name, gives a 28-byte tape whose data block has length field `05 00`, then `FF 3E 05 C9` and the checksum `0D` |
| Bin2Tap.DefaultCodeTap | zx-tictactoe/bin2tap.py:7-48 | with the default name and start the tape is made exactly for code that fits one block, and it is make_tap.py's default tape without the loader's two blocks |
| Bin2Tap.DefaultTapes | zx-tictactoe/bin2tap.py:55-56 | both entry points called with the code alone, as the scripts' main blocks call them at make_tap.py line 119 and here, give the default tapes, both made exactly for code that fits one block |
| Bin2Tap.ExampleChecksum | zx-tictactoe/bin2tap.py:40-44 | the checksum of the example's data block `FF 3E 05 C9` is `0D` |
| Bin2Tap.CodeTapTooLong | zx-tictactoe/bin2tap.py:21 | 70000 bytes of code are refused as out of range |

## Left out

- Reading the input binary and writing the `.tap` file are left out. So are the `print` summaries and the `__main__` entry points. The code bytes are a parameter, and each script's output is the returned byte sequence.
- `encode('ascii')` raises `UnicodeEncodeError` when one of the first ten characters of the name is not ASCII (make_tap.py line 86, bin2tap.py line 20). The model does not include that failure: it requires those characters to be ASCII (`Header.AsciiName`).
- `struct` is modelled by what `pack('<H')` and `pack('>H')` compute and when they fail, not as a library.
- MakeTap.MakeLoaderTap: the script finds an out-of-range start only when it packs the start into the code header. The model checks it first. No byte is written in either case, so the result is the same.
- MakeTap.LoaderTap: it refuses start 0, where the script as written produces a tape (see Findings).
- Basic.NumberLiteralRoundTrip: it covers only 0..65535, the values both literals take for start 1..65535. Below 0 and from 65536 on, the script writes a literal whose text and value disagree, or one with no value at all (Basic.NegativeLiteralMismatch, Basic.NumberLiteralOverflow).
- Basic.NumberEncoding: the script calls `number_encoding` only with start-1 and start, but the function accepts any integer, and the model follows the code (Basic.NegativeLiteralMismatch, Basic.NumberLiteralOverflow).
- Bin2Tap.Bin2Tap: it takes the name before the start address, the order `make_loader_tap` uses; bin2tap.py's `make_tap` puts `start_addr` first. Both have defaults, so the callers in the scripts, which give neither, call it the same way.

## Findings

| source | as written | input that shows it | evidently intended | confidence | as-written member | corrected member |
|---|---|---|---|---|---|---|
| zx-tictactoe/make_tap.py:63 | `make_loader_tap` accepts start 0 and writes line 10 with `number_encoding(-1)`: the text `-1` and the 5-byte form `00 00 FF FF 00`, which holds 65535 | start = 0 | a start address that makes the CLEAR address negative is refused as out of range | not executed | Basic.NegativeLiteralMismatch | MakeTap.LoaderTapRefusals |
