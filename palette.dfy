// DMG colour palettes and the CGB 15-bit colour conversion.
//
// A DMG game draws in four shades; the emulator's chosen system palette
// turns those into RGBA colours, with its own tables for the background and
// the two sprite palettes.

module Palettes {
  import opened Utils

  const DMG_PAL_SIZE: int := 4
  const CGB_PAL_SIZE: int := 32

  /// The selectable system palettes.
  datatype SysPalette =
    | GRAYSCALE | BROWN | BLUE | PASTEL | GREEN | RED
    | DARK_BLUE | ORANGE | DARK_GREEN | DARK_BROWN | YELLOW | INVERTED

  /// One RGBA colour per DMG shade.
  type Table = seq<seq<bv8>>

  /// A table of four opaque RGBA colours.
  predicate Opaque(t: Table)
  {
    |t| == DMG_PAL_SIZE && forall i :: 0 <= i < |t| ==> |t[i]| == COLOR_CHANNELS && t[i][3] == 0xFF
  }

  /// The palettes whose sprite colours are the background colours.
  const SHARED_WITH_BKGD: set<SysPalette> := {GRAYSCALE, BROWN, PASTEL, ORANGE, GREEN, INVERTED}

  /// The palettes with a second sprite palette of their own.
  const OWN_OBJ1: set<SysPalette> := {RED, BLUE, DARK_BLUE, YELLOW}

  /// `get_bg_pal`, by system palette.
  function BgTable(p: SysPalette): (t: Table)
    ensures Opaque(t)
  {
    match p
    case GRAYSCALE => [[255, 255, 255, 255], [128, 128, 128, 255], [64, 64, 64, 255], [0, 0, 0, 255]]
    case BROWN => [[255, 255, 255, 255], [255, 173, 99, 255], [131, 49, 0, 255], [0, 0, 0, 255]]
    case RED => [[255, 255, 255, 255], [255, 133, 132, 255], [148, 58, 58, 255], [0, 0, 0, 255]]
    case DARK_BROWN => [[255, 231, 197, 255], [206, 156, 133, 255], [132, 107, 41, 255], [91, 49, 9, 255]]
    case BLUE => [[255, 255, 255, 255], [101, 164, 155, 255], [0, 0, 254, 255], [0, 0, 0, 255]]
    case DARK_BLUE => [[255, 255, 255, 255], [139, 140, 222, 255], [83, 82, 140, 255], [0, 0, 0, 255]]
    case PASTEL => [[255, 255, 165, 255], [254, 148, 148, 255], [147, 148, 254, 255], [0, 0, 0, 255]]
    case ORANGE => [[255, 255, 255, 255], [255, 255, 0, 255], [254, 0, 0, 255], [0, 0, 0, 255]]
    case YELLOW => [[255, 255, 255, 255], [255, 255, 0, 255], [125, 73, 0, 255], [0, 0, 0, 255]]
    case GREEN => [[255, 255, 255, 255], [81, 255, 0, 255], [255, 66, 0, 255], [0, 0, 0, 255]]
    case DARK_GREEN => [[255, 255, 255, 255], [81, 255, 0, 255], [1, 99, 198, 255], [0, 0, 0, 255]]
    case INVERTED => [[0, 0, 0, 255], [0, 132, 134, 255], [255, 222, 0, 255], [255, 255, 255, 255]]
  }

  /// `get_obj0_pal`, by system palette.
  function Obj0Table(p: SysPalette): (t: Table)
    ensures Opaque(t)
  {
    match p
    case GRAYSCALE => BgTable(p)
    case BROWN => BgTable(p)
    case PASTEL => BgTable(p)
    case ORANGE => BgTable(p)
    case GREEN => BgTable(p)
    case INVERTED => BgTable(p)
    case RED => [[255, 255, 255, 255], [123, 255, 48, 255], [0, 131, 0, 255], [0, 0, 0, 255]]
    case DARK_BROWN => [[255, 255, 255, 255], [255, 173, 99, 255], [131, 49, 0, 255], [0, 0, 0, 255]]
    case BLUE => [[255, 255, 255, 255], [255, 133, 132, 255], [131, 49, 0, 255], [0, 0, 0, 255]]
    case DARK_BLUE => [[255, 255, 255, 255], [255, 133, 132, 255], [148, 58, 58, 255], [0, 0, 0, 255]]
    case YELLOW => [[255, 255, 255, 255], [101, 164, 155, 255], [0, 0, 254, 255], [0, 0, 0, 255]]
    case DARK_GREEN => [[255, 255, 255, 255], [255, 133, 132, 255], [148, 58, 58, 255], [0, 0, 0, 255]]
  }

  /// `get_obj1_pal`, by system palette.
  function Obj1Table(p: SysPalette): (t: Table)
    ensures Opaque(t)
  {
    match p
    case GRAYSCALE => BgTable(p)
    case BROWN => BgTable(p)
    case PASTEL => BgTable(p)
    case ORANGE => BgTable(p)
    case GREEN => BgTable(p)
    case INVERTED => BgTable(p)
    case DARK_BROWN => Obj0Table(p)
    case DARK_GREEN => Obj0Table(p)
    case RED => [[255, 255, 255, 255], [101, 164, 155, 255], [0, 0, 254, 255], [0, 0, 0, 255]]
    case BLUE => [[255, 255, 255, 255], [123, 255, 48, 255], [0, 131, 0, 255], [0, 0, 0, 255]]
    case DARK_BLUE => [[255, 255, 255, 255], [101, 164, 155, 255], [0, 0, 254, 255], [0, 0, 0, 255]]
    case YELLOW => [[255, 255, 255, 255], [123, 255, 48, 255], [0, 131, 0, 255], [0, 0, 0, 255]]
  }

  /// `Palette`: the system palette the DMG renders with.
  datatype Palette = Palette(sysPal: SysPalette)
  {
    /// `set_sys_pal`.
    function SetSysPal(pal: SysPalette): (r: Palette)
      ensures r.GetBgPal() == BgTable(pal) && r.GetSprPal(0) == Ok(Obj0Table(pal))
    {
      Palette(pal)
    }

    /// `get_bg_pal`.
    function GetBgPal(): (t: Table)
      ensures Opaque(t)
    {
      BgTable(sysPal)
    }

    /// `get_obj0_pal`.
    function GetObj0Pal(): (t: Table)
      ensures Opaque(t)
    {
      Obj0Table(sysPal)
    }

    /// `get_obj1_pal`.
    function GetObj1Pal(): (t: Table)
      ensures Opaque(t)
    {
      Obj1Table(sysPal)
    }

    /// `get_spr_pal(pal)`: OBP0's colours for 0, OBP1's for 1; any other
    /// index is refused.
    function GetSprPal(pal: bv8): (r: Result<Table>)
      ensures r.Ok? <==> pal <= 1
      ensures pal == 0 ==> r == Ok(GetObj0Pal())
      ensures pal == 1 ==> r == Ok(GetObj1Pal())
    {
      if pal == 0 then Ok(GetObj0Pal())
      else if pal == 1 then Ok(GetObj1Pal())
      else Err("DMG palette index cannot be greater than 1")
    }
  }

  /// `Palette::new`.
  const Initial := Palette(GRAYSCALE)

  /// A new palette renders in grayscale: white, two grays and black.
  lemma InitialIsGrayscale()
    ensures Initial.GetBgPal()[0] == [255, 255, 255, 255] && Initial.GetBgPal()[3] == [0, 0, 0, 255]
    ensures Initial.GetObj0Pal() == Initial.GetBgPal() && Initial.GetObj1Pal() == Initial.GetBgPal()
  {
  }

  /// Sprite palette 0 is the background palette exactly for the palettes
  /// that share it.
  lemma Obj0SharesBkgd(p: SysPalette)
    ensures Obj0Table(p) == BgTable(p) <==> p in SHARED_WITH_BKGD
  {
    if p !in SHARED_WITH_BKGD {
      assert Obj0Table(p)[1] != BgTable(p)[1];
    }
  }

  /// Sprite palette 1 is the background palette exactly for the same
  /// palettes.
  lemma Obj1SharesBkgd(p: SysPalette)
    ensures Obj1Table(p) == BgTable(p) <==> p in SHARED_WITH_BKGD
  {
    if p !in SHARED_WITH_BKGD {
      assert Obj1Table(p)[1] != BgTable(p)[1];
    }
  }

  /// The two sprite palettes agree exactly when the system palette has no
  /// second sprite palette of its own; DARK_BROWN and DARK_GREEN reuse
  /// sprite palette 0.
  lemma Obj1SharesObj0(p: SysPalette)
    ensures Obj1Table(p) == Obj0Table(p) <==> p !in OWN_OBJ1
  {
    if p in OWN_OBJ1 {
      assert Obj1Table(p)[1] != Obj0Table(p)[1];
    }
  }

  // ---------------------------------------------------------------------
  // CGB colours
  // ---------------------------------------------------------------------

  /// `five_bit_to_eight_bit` as written: the channel is divided by 31
  /// before it is scaled, so only 31 survives.
  function FiveBitToEightBitAsWritten(fiveBit: bv8): (r: bv8)
    requires fiveBit <= 0x1F
    ensures r == 0xFF <==> fiveBit == 0x1F
    ensures r == 0 <==> fiveBit != 0x1F
  {
    (fiveBit / 0x1F) * 0xFF
  }

  /// The scaling the conversion evidently means: 0-31 spread over 0-255.
  function FiveBitToEightBit(fiveBit: bv8): (r: bv8)
    requires fiveBit <= 0x1F
    ensures r == 0 <==> fiveBit == 0
    ensures r == 0xFF <==> fiveBit == 0x1F
  {
    ((fiveBit as bv16 * 0xFF) / 0x1F) as bv8
  }

  /// The scaled channel keeps its five bits as its top five bits, so no
  /// two channel values collide.
  lemma FiveBitRoundTrip(x: bv8)
    requires x <= 0x1F
    ensures FiveBitToEightBit(x) >> 3 == x
  {
  }

  /// Brighter channels stay brighter.
  lemma FiveBitMonotone(x: bv8, y: bv8)
    requires x < y <= 0x1F
    ensures FiveBitToEightBit(x) < FiveBitToEightBit(y)
  {
    FiveBitRoundTrip(x);
    FiveBitRoundTrip(y);
  }

  /// Channel 16 of 31 should be mid-range but comes out black.
  lemma FiveBitDividesFirst()
    ensures FiveBitToEightBitAsWritten(0x10) == 0
    ensures FiveBitToEightBit(0x10) == 0x83
  {
  }

  /// `gbc2rgba` as written: red from bits 0-4, green through the mask
  /// 0x1F0 (bits 4-8, so only bits 5-8 survive the shift), blue from bits
  /// 10-14, alpha 0xFF.
  function Gbc2RgbaAsWritten(gbc: bv16): (rgba: seq<bv8>)
    ensures |rgba| == COLOR_CHANNELS && rgba[3] == 0xFF
  {
    [FiveBitToEightBitAsWritten((gbc & 0x1F) as bv8),
     FiveBitToEightBitAsWritten(((gbc & 0x1F0) >> 5) as bv8),
     FiveBitToEightBitAsWritten(((gbc & 0x7C00) >> 10) as bv8),
     0xFF]
  }

  /// Full green (bits 5-9 set) loses its top bit and reads as no green.
  lemma GreenMaskDropsBit9()
    ensures Gbc2RgbaAsWritten(0x03E0)[1] == 0
    ensures Gbc2Rgba(0x03E0)[1] == 0xFF
  {
  }

  /// The conversion the CGB colour format calls for: red bits 0-4, green
  /// bits 5-9, blue bits 10-14, each scaled to eight bits; bit 15 is unused.
  function Gbc2Rgba(gbc: bv16): (rgba: seq<bv8>)
    ensures |rgba| == COLOR_CHANNELS && rgba[3] == 0xFF
  {
    [FiveBitToEightBit((gbc & 0x1F) as bv8),
     FiveBitToEightBit(((gbc >> 5) & 0x1F) as bv8),
     FiveBitToEightBit(((gbc >> 10) & 0x1F) as bv8),
     0xFF]
  }

  /// Each channel's top five bits are its field of the CGB colour.
  lemma Gbc2RgbaChannels(gbc: bv16)
    ensures Gbc2Rgba(gbc)[0] >> 3 == (gbc & 0x1F) as bv8
    ensures Gbc2Rgba(gbc)[1] >> 3 == ((gbc >> 5) & 0x1F) as bv8
    ensures Gbc2Rgba(gbc)[2] >> 3 == ((gbc >> 10) & 0x1F) as bv8
  {
    FiveBitRoundTrip((gbc & 0x1F) as bv8);
    FiveBitRoundTrip(((gbc >> 5) & 0x1F) as bv8);
    FiveBitRoundTrip(((gbc >> 10) & 0x1F) as bv8);
  }

  /// Bit 15 never matters.
  lemma Gbc2RgbaIgnoresBit15(gbc: bv16)
    ensures Gbc2Rgba(gbc) == Gbc2Rgba(gbc & 0x7FFF)
    ensures Gbc2RgbaAsWritten(gbc) == Gbc2RgbaAsWritten(gbc & 0x7FFF)
  {
    assert (gbc >> 10) & 0x1F == ((gbc & 0x7FFF) >> 10) & 0x1F;
    assert gbc & 0x7C00 == (gbc & 0x7FFF) & 0x7C00;
  }
}
