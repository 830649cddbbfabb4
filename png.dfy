/**
 * The PNG chunk type registry: the 8-byte file signature, the 4-byte chunk
 * type code, the named chunk types the program recognises, and the four
 * classifier predicates that read the property bits of a chunk name.
 *
 * The naming convention is section 5.4 of the W3C PNG Specification
 * (section 3.3 of RFC 2083): a chunk type is four ASCII letters, and bit 5
 * (value 32) of each letter, which is its case, is a property bit.  The
 * signature is section 5.2 of the W3C PNG Specification (section 3.1 of
 * RFC 2083).
 */
module Png {

  /** An unsigned 8-bit value, the element type of the program's `[u8; N]` arrays. */
  type Byte = bv8

  /** Exactly four bytes, as the program's `[u8; 4]`. */
  type Code = s: seq<Byte> | |s| == 4 witness [0x41, 0x41, 0x41, 0x41]

  /** A chunk type, compared by value (the derived `PartialEq`/`Eq` is Dafny's datatype equality). */
  datatype ChunkType = ChunkType(code: Code)

  /** Bit 5 of a name byte, the property bit carried by the case of each letter. */
  const PropertyBit: Byte := 32

  /**
   * The text a byte sequence spells, one character per byte: the code of a
   * byte-string literal `b"IHDR"` is the `c` with `Spell(c) == "IHDR"`.
   */
  function Spell(c: seq<Byte>): (s: string)
    ensures |s| == |c|
    ensures forall i :: 0 <= i < |c| ==> s[i] as int == c[i] as int
  {
    if c == [] then "" else [c[0] as char] + Spell(c[1..])
  }

  /** The 8-byte signature every PNG file starts with. */
  const PngMagic: seq<Byte> := [0x89, 0x50, 0x4E, 0x47, 0x0D, 0x0A, 0x1A, 0x0A]

  // -- Critical chunks --

  /** Image header */
  const IHDR := ChunkType([0x49, 0x48, 0x44, 0x52])
  /** Palette */
  const PLTE := ChunkType([0x50, 0x4C, 0x54, 0x45])
  /** Image data */
  const IDAT := ChunkType([0x49, 0x44, 0x41, 0x54])
  /** Image trailer */
  const IEND := ChunkType([0x49, 0x45, 0x4E, 0x44])

  // -- Ancillary chunks --

  /** Transparency */
  const tRNS := ChunkType([0x74, 0x52, 0x4E, 0x53])
  /** Background colour */
  const bKGD := ChunkType([0x62, 0x4B, 0x47, 0x44])
  /** Image last-modification time */
  const tIME := ChunkType([0x74, 0x49, 0x4D, 0x45])
  /** Physical pixel dimensions */
  const pHYs := ChunkType([0x70, 0x48, 0x59, 0x73])
  /** Source system's pixel chromaticities */
  const cHRM := ChunkType([0x63, 0x48, 0x52, 0x4D])
  /** Source system's gamma value */
  const gAMA := ChunkType([0x67, 0x41, 0x4D, 0x41])
  /** sRGB colour space */
  const sRGB := ChunkType([0x73, 0x52, 0x47, 0x42])
  /** ICC profile */
  const iCCP := ChunkType([0x69, 0x43, 0x43, 0x50])
  /** Coding-independent code points for video signal type identification */
  const cICP := ChunkType([0x63, 0x49, 0x43, 0x50])
  /** Mastering display colour volume */
  const mDCV := ChunkType([0x6D, 0x44, 0x43, 0x56])
  /** Content light level information */
  const cLLI := ChunkType([0x63, 0x4C, 0x4C, 0x49])
  /** EXIF metadata */
  const eXIf := ChunkType([0x65, 0x58, 0x49, 0x66])
  /** Latin-1 uncompressed textual data */
  const tEXt := ChunkType([0x74, 0x45, 0x58, 0x74])
  /** Latin-1 compressed textual data */
  const zTXt := ChunkType([0x7A, 0x54, 0x58, 0x74])
  /** UTF-8 textual data */
  const iTXt := ChunkType([0x69, 0x54, 0x58, 0x74])
  /** Significant bits */
  const sBIT := ChunkType([0x73, 0x42, 0x49, 0x54])

  // -- Extension chunks (animated PNG) --

  /** Animation control */
  const acTL := ChunkType([0x61, 0x63, 0x54, 0x4C])
  /** Frame control */
  const fcTL := ChunkType([0x66, 0x63, 0x54, 0x4C])
  /** Frame data */
  const fdAT := ChunkType([0x66, 0x64, 0x41, 0x54])

  /** The named constants, in the three groups and the order in which they are declared. */
  const CriticalChunks: seq<ChunkType> := [IHDR, PLTE, IDAT, IEND]
  const AncillaryChunks: seq<ChunkType> :=
    [tRNS, bKGD, tIME, pHYs, cHRM, gAMA, sRGB, iCCP, cICP, mDCV, cLLI, eXIf, tEXt, zTXt, iTXt, sBIT]
  const ExtensionChunks: seq<ChunkType> := [acTL, fcTL, fdAT]
  const KnownChunks: seq<ChunkType> := CriticalChunks + AncillaryChunks + ExtensionChunks

  // -- Chunk type determination --

  /** Bit 5 of `b` read arithmetically: the binary digit of weight 32 of the byte's value. */
  function Bit5(b: Byte): (d: nat)
    ensures d <= 1
  {
    (b as int / 32) % 2
  }

  predicate IsAsciiUpper(b: Byte) { 0x41 <= b <= 0x5A }
  predicate IsAsciiLower(b: Byte) { 0x61 <= b <= 0x7A }
  predicate IsAsciiLetter(b: Byte) { IsAsciiUpper(b) || IsAsciiLower(b) }

  /**
   * The mask test `b & 32 != 0` is the binary digit of weight 32, and on
   * an ASCII letter it is the case of the letter: set exactly for lower case.
   */
  lemma PropertyBitIsCase(b: Byte)
    ensures (b & PropertyBit != 0) <==> Bit5(b) == 1
    ensures IsAsciiLetter(b) ==> ((b & PropertyBit != 0) <==> IsAsciiLower(b))
  {
  }

  /** True if the chunk is critical: bit 5 of the first byte is clear (an upper-case first letter). */
  function IsCritical(t: ChunkType): (r: bool)
    ensures r <==> Bit5(t.code[0]) == 0
    ensures IsAsciiLetter(t.code[0]) ==> (r <==> IsAsciiUpper(t.code[0]))
  {
    PropertyBitIsCase(t.code[0]);
    t.code[0] & PropertyBit == 0
  }

  /** True if the chunk is private: bit 5 of the second byte is set (a lower-case second letter). */
  function IsPrivate(t: ChunkType): (r: bool)
    ensures r <==> Bit5(t.code[1]) == 1
    ensures IsAsciiLetter(t.code[1]) ==> (r <==> IsAsciiLower(t.code[1]))
  {
    PropertyBitIsCase(t.code[1]);
    t.code[1] & PropertyBit != 0
  }

  /**
   * True if the reserved bit, bit 5 of the third byte, is set (a lower-case
   * third letter); a chunk name with this bit set is invalid.
   */
  function ReservedSet(t: ChunkType): (r: bool)
    ensures r <==> Bit5(t.code[2]) == 1
    ensures IsAsciiLetter(t.code[2]) ==> (r <==> IsAsciiLower(t.code[2]))
  {
    PropertyBitIsCase(t.code[2]);
    t.code[2] & PropertyBit != 0
  }

  /**
   * True if an editor that does not know the chunk may copy it unchanged:
   * bit 5 of the fourth byte is set (a lower-case fourth letter).
   */
  function SafeToCopy(t: ChunkType): (r: bool)
    ensures r <==> Bit5(t.code[3]) == 1
    ensures IsAsciiLetter(t.code[3]) ==> (r <==> IsAsciiLower(t.code[3]))
  {
    PropertyBitIsCase(t.code[3]);
    t.code[3] & PropertyBit != 0
  }
}
