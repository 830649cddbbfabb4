/**
 * What the four classifiers of the chunk type registry read, how they
 * split a chunk name into its letters and its property bits, and what they
 * say about every named chunk type.
 */
module PngProperties {
  import opened Png

  // -- Each classifier reads one bit of one byte --

  /**
   * Each classifier depends on bit 5 of its own byte and on nothing else:
   * two chunk types whose byte `i` agree on bit 5 get the same answer from
   * classifier `i`, whatever their other bytes and other bits.
   */
  lemma ClassifiersReadOnlyTheirBit(t: ChunkType, u: ChunkType)
    ensures t.code[0] & PropertyBit == u.code[0] & PropertyBit ==> IsCritical(t) == IsCritical(u)
    ensures t.code[1] & PropertyBit == u.code[1] & PropertyBit ==> IsPrivate(t) == IsPrivate(u)
    ensures t.code[2] & PropertyBit == u.code[2] & PropertyBit ==> ReservedSet(t) == ReservedSet(u)
    ensures t.code[3] & PropertyBit == u.code[3] & PropertyBit ==> SafeToCopy(t) == SafeToCopy(u)
  {
  }

  /** The chunk type with the case of letter `i` swapped: bit 5 of byte `i` inverted. */
  function TogglePropertyBit(t: ChunkType, i: nat): (u: ChunkType)
    requires i < 4
    ensures forall j :: 0 <= j < 4 && j != i ==> u.code[j] == t.code[j]
    ensures u.code[i] & !PropertyBit == t.code[i] & !PropertyBit
    ensures (u.code[i] & PropertyBit == 0) != (t.code[i] & PropertyBit == 0)
  {
    ChunkType(t.code[i := t.code[i] ^ PropertyBit])
  }

  /** Swapping the case of letter `i` inverts classifier `i` and leaves the other three unchanged. */
  lemma ToggleInvertsOneClassifier(t: ChunkType, i: nat)
    requires i < 4
    ensures IsCritical(TogglePropertyBit(t, i)) == (IsCritical(t) != (i == 0))
    ensures IsPrivate(TogglePropertyBit(t, i)) == (IsPrivate(t) != (i == 1))
    ensures ReservedSet(TogglePropertyBit(t, i)) == (ReservedSet(t) != (i == 2))
    ensures SafeToCopy(TogglePropertyBit(t, i)) == (SafeToCopy(t) != (i == 3))
  {
  }

  // -- A chunk name is its letters plus its four property bits --

  /** The four answers of the classifiers for one chunk type. */
  datatype Properties = Properties(critical: bool, private: bool, reserved: bool, safeToCopy: bool)

  function PropertiesOf(t: ChunkType): Properties {
    Properties(IsCritical(t), IsPrivate(t), ReservedSet(t), SafeToCopy(t))
  }

  /** The code with bit 5 of every byte cleared: for letters, the name in upper case. */
  function FoldCase(c: Code): Code {
    seq(4, i requires 0 <= i < 4 => c[i] & !PropertyBit)
  }

  /** `b` with bit 5 set when `on` holds and cleared otherwise. */
  function WithBit5(b: Byte, on: bool): (r: Byte)
    ensures r & !PropertyBit == b & !PropertyBit
    ensures (r & PropertyBit != 0) == on
  {
    if on then b | PropertyBit else b & !PropertyBit
  }

  /** The chunk type spelled with the letters of `c` and the cases that carry the properties `p`. */
  function WithProperties(c: Code, p: Properties): ChunkType {
    ChunkType([WithBit5(c[0], !p.critical), WithBit5(c[1], p.private),
               WithBit5(c[2], p.reserved), WithBit5(c[3], p.safeToCopy)])
  }

  /** The four classifiers are independent: every combination of answers is spelled by some case pattern. */
  lemma PropertiesOfWithProperties(c: Code, p: Properties)
    ensures PropertiesOf(WithProperties(c, p)) == p
    ensures FoldCase(WithProperties(c, p).code) == FoldCase(c)
  {
  }

  /** Together the four classifiers lose nothing but the letters: a chunk type is rebuilt from its folded letters and its properties. */
  lemma WithPropertiesOfChunkType(t: ChunkType)
    ensures WithProperties(FoldCase(t.code), PropertiesOf(t)) == t
  {
  }

  /** Two chunk types with the same letters up to case are equal exactly when the four classifiers agree on them. */
  lemma EqualIffSameLettersAndProperties(t: ChunkType, u: ChunkType)
    requires FoldCase(t.code) == FoldCase(u.code)
    ensures t == u <==> PropertiesOf(t) == PropertiesOf(u)
  {
    WithPropertiesOfChunkType(t);
    WithPropertiesOfChunkType(u);
  }

  // -- The named constants --

  /** The signature: a non-ASCII byte, "PNG", CR LF, the DOS end-of-file byte 0x1A, LF. */
  lemma MagicLayout()
    ensures |PngMagic| == 8
    ensures PngMagic[0] == 0x89 && PngMagic[0] & 0x80 != 0
    ensures Spell(PngMagic[1..4]) == "PNG"
    ensures Spell(PngMagic[4..6]) == "\r\n"
    ensures PngMagic[6] == 0x1A
    ensures Spell(PngMagic[7..]) == "\n"
  {
  }

  /** A four-byte code spells its four characters in order. */
  lemma SpellFour(c: Code)
    ensures Spell(c) == [c[0] as char, c[1] as char, c[2] as char, c[3] as char]
  {
  }

  /** Each constant under "Critical chunks" holds the bytes of the literal it is declared with. */
  lemma CriticalNames()
    ensures Spell(IHDR.code) == "IHDR" && Spell(PLTE.code) == "PLTE" && Spell(IDAT.code) == "IDAT" && Spell(IEND.code) == "IEND"
  {
  }

  /** Each constant under "Ancillary chunks" holds the bytes of the literal it is declared with. */
  lemma AncillaryNames()
    ensures Spell(tRNS.code) == "tRNS" && Spell(bKGD.code) == "bKGD" && Spell(tIME.code) == "tIME" && Spell(pHYs.code) == "pHYs"
    ensures Spell(cHRM.code) == "cHRM" && Spell(gAMA.code) == "gAMA" && Spell(sRGB.code) == "sRGB" && Spell(iCCP.code) == "iCCP"
    ensures Spell(cICP.code) == "cICP" && Spell(mDCV.code) == "mDCV" && Spell(cLLI.code) == "cLLI" && Spell(eXIf.code) == "eXIf"
    ensures Spell(tEXt.code) == "tEXt" && Spell(zTXt.code) == "zTXt" && Spell(iTXt.code) == "iTXt" && Spell(sBIT.code) == "sBIT"
  {
    AncillaryNamesFirstHalf();
    AncillaryNamesSecondHalf();
  }

  lemma AncillaryNamesFirstHalf()
    ensures Spell(tRNS.code) == "tRNS" && Spell(bKGD.code) == "bKGD" && Spell(tIME.code) == "tIME" && Spell(pHYs.code) == "pHYs"
    ensures Spell(cHRM.code) == "cHRM" && Spell(gAMA.code) == "gAMA" && Spell(sRGB.code) == "sRGB" && Spell(iCCP.code) == "iCCP"
  {
    assert Spell(tRNS.code) == "tRNS" by { SpellFour(tRNS.code); }
    assert Spell(bKGD.code) == "bKGD" by { SpellFour(bKGD.code); }
    assert Spell(tIME.code) == "tIME" by { SpellFour(tIME.code); }
    assert Spell(pHYs.code) == "pHYs" by { SpellFour(pHYs.code); }
    assert Spell(cHRM.code) == "cHRM" by { SpellFour(cHRM.code); }
    assert Spell(gAMA.code) == "gAMA" by { SpellFour(gAMA.code); }
    assert Spell(sRGB.code) == "sRGB" by { SpellFour(sRGB.code); }
    assert Spell(iCCP.code) == "iCCP" by { SpellFour(iCCP.code); }
  }

  lemma AncillaryNamesSecondHalf()
    ensures Spell(cICP.code) == "cICP" && Spell(mDCV.code) == "mDCV" && Spell(cLLI.code) == "cLLI" && Spell(eXIf.code) == "eXIf"
    ensures Spell(tEXt.code) == "tEXt" && Spell(zTXt.code) == "zTXt" && Spell(iTXt.code) == "iTXt" && Spell(sBIT.code) == "sBIT"
  {
    assert Spell(cICP.code) == "cICP" by { SpellFour(cICP.code); }
    assert Spell(mDCV.code) == "mDCV" by { SpellFour(mDCV.code); }
    assert Spell(cLLI.code) == "cLLI" by { SpellFour(cLLI.code); }
    assert Spell(eXIf.code) == "eXIf" by { SpellFour(eXIf.code); }
    assert Spell(tEXt.code) == "tEXt" by { SpellFour(tEXt.code); }
    assert Spell(zTXt.code) == "zTXt" by { SpellFour(zTXt.code); }
    assert Spell(iTXt.code) == "iTXt" by { SpellFour(iTXt.code); }
    assert Spell(sBIT.code) == "sBIT" by { SpellFour(sBIT.code); }
  }

  /** Each constant under "Extension chunks" holds the bytes of the literal it is declared with. */
  lemma ExtensionNames()
    ensures Spell(acTL.code) == "acTL" && Spell(fcTL.code) == "fcTL" && Spell(fdAT.code) == "fdAT"
  {
  }

  /** The 23 named chunk types are pairwise different values. */
  lemma KnownChunksDistinct()
    ensures |CriticalChunks| == 4 && |AncillaryChunks| == 16 && |ExtensionChunks| == 3
    ensures |KnownChunks| == 23
    ensures forall i, j :: 0 <= i < j < |KnownChunks| ==> KnownChunks[i] != KnownChunks[j]
  {
  }

  /** The four answers, named by the kinds of chunk they describe. */
  const CriticalUnsafe := Properties(critical := true, private := false, reserved := false, safeToCopy := false)
  const AncillaryUnsafe := Properties(critical := false, private := false, reserved := false, safeToCopy := false)
  const AncillarySafe := Properties(critical := false, private := false, reserved := false, safeToCopy := true)
  const PrivateAncillaryUnsafe := Properties(critical := false, private := true, reserved := false, safeToCopy := false)

  /** The constants under "Critical chunks" are critical, public and unsafe to copy. */
  lemma CriticalChunkProperties()
    ensures PropertiesOf(IHDR) == CriticalUnsafe && PropertiesOf(PLTE) == CriticalUnsafe
    ensures PropertiesOf(IDAT) == CriticalUnsafe && PropertiesOf(IEND) == CriticalUnsafe
  {
  }

  /**
   * The constants under "Ancillary chunks" are ancillary and public; pHYs,
   * eXIf, tEXt, zTXt and iTXt are safe to copy, the other eleven are not.
   */
  lemma AncillaryChunkProperties()
    ensures PropertiesOf(tRNS) == AncillaryUnsafe && PropertiesOf(bKGD) == AncillaryUnsafe
    ensures PropertiesOf(tIME) == AncillaryUnsafe && PropertiesOf(pHYs) == AncillarySafe
    ensures PropertiesOf(cHRM) == AncillaryUnsafe && PropertiesOf(gAMA) == AncillaryUnsafe
    ensures PropertiesOf(sRGB) == AncillaryUnsafe && PropertiesOf(iCCP) == AncillaryUnsafe
    ensures PropertiesOf(cICP) == AncillaryUnsafe && PropertiesOf(mDCV) == AncillaryUnsafe
    ensures PropertiesOf(cLLI) == AncillaryUnsafe && PropertiesOf(eXIf) == AncillarySafe
    ensures PropertiesOf(tEXt) == AncillarySafe && PropertiesOf(zTXt) == AncillarySafe
    ensures PropertiesOf(iTXt) == AncillarySafe && PropertiesOf(sBIT) == AncillaryUnsafe
  {
  }

  /**
   * The animation constants under "Extension chunks" are ancillary and unsafe
   * to copy, and their lower-case second letter makes them private.
   */
  lemma ExtensionChunkProperties()
    ensures PropertiesOf(acTL) == PrivateAncillaryUnsafe && PropertiesOf(fcTL) == PrivateAncillaryUnsafe
    ensures PropertiesOf(fdAT) == PrivateAncillaryUnsafe
  {
  }

  /** A private ancillary code, lower-case first and second letters, is classified as such. */
  lemma PrivateAncillaryExample()
    ensures !IsCritical(ChunkType([0x61, 0x62, 0x43, 0x44])) && IsPrivate(ChunkType([0x61, 0x62, 0x43, 0x44]))
    ensures !ReservedSet(ChunkType([0x61, 0x62, 0x43, 0x44])) && !SafeToCopy(ChunkType([0x61, 0x62, 0x43, 0x44]))
  {
  }
}
