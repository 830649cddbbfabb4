# PNG chunk type registry

A Dafny model of the chunk type registry of a PNG steganography tool
(`src/filetype_support/png.rs`). The registry holds:

- the 8-byte PNG signature `89 50 4E 47 0D 0A 1A 0A`;
- `ChunkType`, a 4-byte type code that is compared by value;
- 23 named chunk types in three groups: critical (`IHDR`, `PLTE`, `IDAT`,
  `IEND`), ancillary (`tRNS` … `sBIT`) and the animated-PNG extension
  (`acTL`, `fcTL`, `fdAT`);
- four classifiers, `is_critical`, `is_private`, `reserved_set` and
  `safe_to_copy`. Each one tests bit 5 (value 32) of one byte of the code.

These follow the chunk naming rules in section 5.4 of the W3C PNG
Specification (section 3.3 of RFC 2083). A chunk name is four ASCII letters,
and the case of each letter is one property bit: upper case means bit 5 is
clear. The signature is section 5.2 of the W3C PNG Specification (section
3.1 of RFC 2083).

Everything in the source file is pure, so the model uses only functions,
constants and lemmas:

- `png.dfy`, module `Png`: the data model and the operations.
  - `Byte` is `bv8`.
  - `ChunkType(code)` wraps a `seq<Byte>` of length exactly 4.
  - There is one constant per named chunk type. Each is written as its
    hexadecimal bytes, and lemmas prove that these bytes spell the
    byte-string literal (`*b"IHDR"`) the source declares it with.
  - The four classifiers `IsCritical`, `IsPrivate`, `ReservedSet` and
    `SafeToCopy` are written exactly as the source's mask tests. Their
    contracts give two independent readings of each test: arithmetic (the
    binary digit of weight 32) and case (upper or lower case letter).
- `png_properties.dfy`, module `PngProperties`: the lemmas.
  - Which bit each classifier reads, and that it reads nothing else.
  - The four classifiers together split a name into its case-folded letters
    and four independent property bits. This is a round trip in both
    directions.
  - What every named constant spells, that the constants are distinct, and
    what all four classifiers return for each of them.

## Model

| member | source | states |
|---|---|---|
| `Png.IsCritical` | src/filetype_support/png.rs:91-94 | true exactly when the binary digit of weight 32 of byte 0 is 0; when byte 0 is an ASCII letter, true exactly when that letter is upper case |
| `Png.IsPrivate` | src/filetype_support/png.rs:96-99 | true exactly when the binary digit of weight 32 of byte 1 is 1; when byte 1 is an ASCII letter, true exactly when that letter is lower case |
| `Png.ReservedSet` | src/filetype_support/png.rs:101-105 | true exactly when the binary digit of weight 32 of byte 2 is 1; when byte 2 is an ASCII letter, true exactly when that letter is lower case |
| `Png.SafeToCopy` | src/filetype_support/png.rs:107-110 | true exactly when the binary digit of weight 32 of byte 3 is 1; when byte 3 is an ASCII letter, true exactly when that letter is lower case |
| `Png.PropertyBitIsCase` | src/filetype_support/png.rs:92-110 | the mask test `b & 32 != 0` equals the arithmetic binary digit of weight 32, and on an ASCII letter it holds exactly for lower case |
| `Png.Spell` | src/filetype_support/png.rs:37-87 | the text a code spells (the meaning of a `b"…"` literal): as long as the bytes, and each character has the code of the byte at the same position |
| `PngProperties.ClassifiersReadOnlyTheirBit` | src/filetype_support/png.rs:92-110 | two chunk types whose byte i has the same bit 5 get the same answer from classifier i, whatever their other bytes and the other bits of byte i |
| `PngProperties.ToggleInvertsOneClassifier` | src/filetype_support/png.rs:92-110 | flipping the case of letter i (bit 5 of byte i) inverts classifier i and leaves the other three classifiers unchanged |
| `PngProperties.PropertiesOfWithProperties` | src/filetype_support/png.rs:92-110 | the classifiers are independent: any letters given any one of the 16 case patterns get exactly the requested four answers, and the letters stay the same up to case |
| `PngProperties.WithPropertiesOfChunkType` | src/filetype_support/png.rs:92-110 | the classifiers lose only the letters: every chunk type is rebuilt from its case-folded code and its four answers |
| `PngProperties.EqualIffSameLettersAndProperties` | src/filetype_support/png.rs:92-110 | two chunk types with the same case-folded letters are equal values exactly when all four classifiers agree on them |
| `PngProperties.MagicLayout` | src/filetype_support/png.rs:28 | the signature has 8 bytes: a first byte with the high bit set (0x89), then "PNG", CR LF, the DOS end-of-file byte 0x1A, and LF |
| `PngProperties.SpellFour` | src/filetype_support/png.rs:31-32 | a 4-byte code spells its four characters in order |
| `PngProperties.CriticalNames` | src/filetype_support/png.rs:34-43 | IHDR, PLTE, IDAT and IEND hold the bytes of their literals |
| `PngProperties.AncillaryNames` | src/filetype_support/png.rs:45-78 | each of the 16 ancillary constants holds the bytes of its literal |
| `PngProperties.ExtensionNames` | src/filetype_support/png.rs:80-87 | acTL, fcTL and fdAT hold the bytes of their literals |
| `PngProperties.KnownChunksDistinct` | src/filetype_support/png.rs:31-87 | the three groups have 4, 16 and 3 members, and the 23 named chunk types are pairwise different values |
| `PngProperties.CriticalChunkProperties` | src/filetype_support/png.rs:34-43 | each critical constant is critical, public, has the reserved bit clear and is unsafe to copy |
| `PngProperties.AncillaryChunkProperties` | src/filetype_support/png.rs:45-78 | each ancillary constant is not critical, is public and has the reserved bit clear; safe to copy exactly for pHYs, eXIf, tEXt, zTXt and iTXt |
| `PngProperties.ExtensionChunkProperties` | src/filetype_support/png.rs:80-87 | acTL, fcTL and fdAT are not critical, have the reserved bit clear and are unsafe to copy; their lower-case second letter makes them private |
| `PngProperties.PrivateAncillaryExample` | src/filetype_support/png.rs:92-110 | an example private ancillary code, `abCD`: not critical, private, reserved bit clear, not safe to copy |

## Left out

- The imports from `file_encoding_support` (`src/filetype_support/png.rs:19-22`) are left out. These are `FileEncoding`, `FileEncodingFunctionDerivation`, `FileEncodingMethod`, `FileEncodingSupport`, `Pixel` and the LSB embed/extract functions. Their code is not part of this model.
- The `std::fs::File`, `std::io::{Read, Write}`, `std::mem` and `std::process::exit` imports (`src/filetype_support/png.rs:23-26`) are left out. They give file I/O and process exit, and no code in this file uses them.
- Chunk stream reading and writing, CRC-32 checking, IHDR field parsing and the embed/extract façade are left out. None of them appears in `src/filetype_support/png.rs`, so the model does not invent them.
- The derived `Hash`, `Clone` and `Copy` of `ChunkType` have no counterpart here. Dafny datatype values are immutable and copied by value. The derived `PartialEq`/`Eq` is Dafny's structural equality on `ChunkType`.
- The constants are written as hexadecimal byte lists, not as `b"…"` literals. The `CriticalNames`, `AncillaryNames` and `ExtensionNames` lemmas prove that each list spells its name.
