// OAM sprite attributes (core/src/ppu/sprite.rs): the four raw bytes an
// object has in object attribute memory, and the fields parsed out of them
// as each byte is written.
//
// Byte 0 is the Y coordinate plus 16, byte 1 the X coordinate plus 8, byte 2
// the tile number, and byte 3 the flags: bit 7 clear draws the sprite above
// the background, bit 6 flips it vertically, bit 5 horizontally, bit 4
// picks the DMG object palette, and on the CGB bit 3 is the VRAM bank and
// bits 0-2 the palette.
//
// `SpriteState` is a sprite as a value (the Rust struct is `Copy`); the
// `Sprite` class keeps the raw bytes in a four-byte array and its methods
// are proved to follow the functions on `SpriteState`.

module OamSprite {
  import opened Utils

  const X_OFFSET: int := 8
  const Y_OFFSET: int := 16
  const X_OFFSCREEN: int := 168
  const Y_OFFSCREEN: int := 160

  const Y_POS_BYTE: int := 0
  const X_POS_BYTE: int := 1
  const TILE_NUM_BYTE: int := 2
  const FLAG_BYTE: int := 3
  const OAM_BYTE_SIZE: int := 4

  const PAL_NUM_BIT: bv8 := 4
  const X_FLIP_BIT: bv8 := 5
  const Y_FLIP_BIT: bv8 := 6
  const BG_PRIORITY_BIT: bv8 := 7

  /// A value of Rust's `u16`, the type of a byte offset.
  type U16 = i: int | 0 <= i < 0x10000

  /// The fields of `Sprite`.  The coordinates are Rust `i16`s; every value
  /// the parser stores (-16 to 247) fits.
  datatype SpriteState = SpriteState(
    data: seq<bv8>,
    tileNum: bv8,
    x: int,
    y: int,
    aboveBkgd: bool,
    xFlip: bool,
    yFlip: bool,
    palette: bv8,
    vramBank: bv8)

  /// The raw data always has one byte per OAM byte.
  predicate WellFormed(s: SpriteState)
  {
    |s.data| == OAM_BYTE_SIZE
  }

  /// `Sprite::new`.
  const Initial := SpriteState([0, 0, 0, 0], 0, 0, 0, true, false, false, 0, 0)

  /// `Sprite::new` gives zero data and coordinates, a sprite drawn above
  /// the background, no flip, palette 0 and bank 0.
  lemma InitialSpec()
    ensures WellFormed(Initial)
    ensures forall i :: 0 <= i < OAM_BYTE_SIZE ==> Initial.data[i] == 0
    ensures Initial.x == 0 && Initial.y == 0 && Initial.tileNum == 0
    ensures Initial.aboveBkgd && !Initial.xFlip && !Initial.yFlip
    ensures Initial.palette == 0 && Initial.vramBank == 0
  {
  }

  // ---------------------------------------------------------------------
  // Parsing the four bytes

  /// `parse_oam_byte1`: the stored Y coordinate is the screen Y plus 16.
  function ParseByte1(s: SpriteState, val: bv8): SpriteState
  {
    s.(y := val as int - Y_OFFSET)
  }

  /// `parse_oam_byte2`: the stored X coordinate is the screen X plus 8.
  function ParseByte2(s: SpriteState, val: bv8): SpriteState
  {
    s.(x := val as int - X_OFFSET)
  }

  /// `parse_oam_byte3`: the tile number is stored as is.
  function ParseByte3(s: SpriteState, val: bv8): SpriteState
  {
    s.(tileNum := val)
  }

  /// `parse_oam_byte4`: priority and flips on both models; the CGB takes
  /// palette and bank from bits 0-3, the DMG its palette from bit 4 and
  /// leaves the bank alone.
  function ParseByte4(s: SpriteState, val: bv8, mode: GB): SpriteState
  {
    var t := s.(aboveBkgd := !GetBit(val, BG_PRIORITY_BIT),
                yFlip := GetBit(val, Y_FLIP_BIT),
                xFlip := GetBit(val, X_FLIP_BIT));
    if mode == CGB then t.(palette := val & 0x07, vramBank := (val & 0x08) >> 3)
    else t.(palette := if GetBit(val, PAL_NUM_BIT) then 1 else 0)
  }

  /// `set_byte(index, byte, mode)`: the byte is parsed into its fields and
  /// stored in the raw data; an offset past the fourth byte is an error.
  function SetByteOn(s: SpriteState, index: U16, byte: bv8, mode: GB): (r: Result<SpriteState>)
    requires WellFormed(s)
    ensures r.Ok? <==> index < OAM_BYTE_SIZE
    ensures r.Ok? ==> WellFormed(r.value)
  {
    if index >= OAM_BYTE_SIZE then Err("Byte offset can only be from 0-3")
    else
      var parsed :=
        if index == Y_POS_BYTE then ParseByte1(s, byte)
        else if index == X_POS_BYTE then ParseByte2(s, byte)
        else if index == TILE_NUM_BYTE then ParseByte3(s, byte)
        else ParseByte4(s, byte, mode);
      Ok(parsed.(data := s.data[index := byte]))
  }

  /// `get_byte(index)`: a raw byte; an offset past the fourth is an error.
  function GetByteOf(s: SpriteState, index: U16): (r: Result<bv8>)
    requires WellFormed(s)
    ensures r.Ok? <==> index < OAM_BYTE_SIZE
  {
    if index >= OAM_BYTE_SIZE then Err("Byte offset can only be from 0-3")
    else Ok(s.data[index])
  }

  // ---------------------------------------------------------------------
  // Queries

  /// `is_onscreen`: the X coordinate is visible OR the Y coordinate is.
  function IsOnscreen(s: SpriteState): bool
  {
    var xVisible := -X_OFFSET < s.x < X_OFFSCREEN;
    var yVisible := -Y_OFFSET < s.y < Y_OFFSCREEN;
    xVisible || yVisible
  }

  /// `contains_scanline(scanline, is_8x16)`: the line lies within the
  /// sprite's 8 or 16 rows.
  function ContainsScanline(s: SpriteState, scanline: bv8, is8x16: bool): bool
  {
    var height := if is8x16 then 2 * TILESIZE else TILESIZE;
    s.y <= scanline as int < s.y + height
  }

  // ---------------------------------------------------------------------
  // Properties

  /// Writing a byte then reading it back gives the byte; the other raw
  /// bytes read as before.
  lemma SetThenGet(s: SpriteState, index: U16, byte: bv8, mode: GB, other: U16)
    requires WellFormed(s) && index < OAM_BYTE_SIZE
    ensures GetByteOf(SetByteOn(s, index, byte, mode).value, index) == Ok(byte)
    ensures other != index ==>
      GetByteOf(SetByteOn(s, index, byte, mode).value, other) == GetByteOf(s, other)
  {
  }

  /// Byte 0 sets Y to the byte minus 16 and no other parsed field.
  lemma SetYByte(s: SpriteState, byte: bv8, mode: GB)
    requires WellFormed(s)
    ensures var t := SetByteOn(s, Y_POS_BYTE, byte, mode).value;
      t == s.(y := byte as int - 16, data := t.data)
  {
  }

  /// Byte 1 sets X to the byte minus 8 and no other parsed field.
  lemma SetXByte(s: SpriteState, byte: bv8, mode: GB)
    requires WellFormed(s)
    ensures var t := SetByteOn(s, X_POS_BYTE, byte, mode).value;
      t == s.(x := byte as int - 8, data := t.data)
  {
  }

  /// Byte 2 sets the tile number to the byte and no other parsed field.
  lemma SetTileByte(s: SpriteState, byte: bv8, mode: GB)
    requires WellFormed(s)
    ensures var t := SetByteOn(s, TILE_NUM_BYTE, byte, mode).value;
      t == s.(tileNum := byte, data := t.data)
  {
  }

  /// Byte 3: bit 7 clear means above the background, bit 6 is the vertical
  /// and bit 5 the horizontal flip; coordinates and tile stay.
  lemma SetFlagByte(s: SpriteState, byte: bv8, mode: GB)
    requires WellFormed(s)
    ensures var t := SetByteOn(s, FLAG_BYTE, byte, mode).value;
      && t.aboveBkgd == (byte & 0x80 == 0)
      && t.yFlip == (byte & 0x40 != 0)
      && t.xFlip == (byte & 0x20 != 0)
      && t.x == s.x && t.y == s.y && t.tileNum == s.tileNum
  {
  }

  /// Byte 3 on the DMG: the palette is bit 4 and the bank is unchanged.
  lemma SetFlagByteDmg(s: SpriteState, byte: bv8)
    requires WellFormed(s)
    ensures var t := SetByteOn(s, FLAG_BYTE, byte, DMG).value;
      t.palette == (byte >> 4) & 1 && t.vramBank == s.vramBank
  {
  }

  /// Byte 3 on the CGB: the palette is bits 0-2 and the bank bit 3.
  lemma SetFlagByteCgb(s: SpriteState, byte: bv8)
    requires WellFormed(s)
    ensures var t := SetByteOn(s, FLAG_BYTE, byte, CGB).value;
      && t.palette == byte & 7 && t.palette <= 7
      && t.vramBank == (byte >> 3) & 1 && t.vramBank <= 1
  {
  }

  /// In terms of the raw Y byte: line `l` passes through the sprite when
  /// `byte - 16 <= l < byte - 16 + height`, i.e. `l + 16` lies in
  /// `[byte, byte + height)`.
  lemma ScanlineFromByte(s: SpriteState, byte: bv8, mode: GB, l: bv8, is8x16: bool)
    requires WellFormed(s)
    ensures ContainsScanline(SetByteOn(s, Y_POS_BYTE, byte, mode).value, l, is8x16) <==>
      byte as int <= l as int + 16 < byte as int + (if is8x16 then 16 else 8)
  {
  }

  /// A sprite whose raw Y byte is 0 covers no screen line at all in 8x8
  /// mode, however its X looks: it is hidden above the screen.
  lemma ZeroYHidesSprite(s: SpriteState, mode: GB, l: bv8)
    requires WellFormed(s)
    ensures !ContainsScanline(SetByteOn(s, Y_POS_BYTE, 0, mode).value, l, false)
  {
  }

  /// `is_onscreen` in terms of the raw bytes: the X byte lies in 1..175
  /// or the Y byte lies in 1..175.
  lemma OnscreenFromBytes(s: SpriteState, xb: bv8, yb: bv8, mode: GB)
    requires WellFormed(s)
    ensures var t := SetByteOn(SetByteOn(s, X_POS_BYTE, xb, mode).value, Y_POS_BYTE, yb, mode).value;
      IsOnscreen(t) <==> (0 < xb as int < 176 || 0 < yb as int < 176)
  {
  }

  /// Because the two visibility tests are joined by `||`, a sprite whose X
  /// is far past the right edge still counts as on screen when its Y is
  /// visible.
  lemma OnscreenIsDisjunction()
    ensures var s := Initial.(x := 200, y := 10);
      IsOnscreen(s) && !(-X_OFFSET < s.x < X_OFFSCREEN)
  {
  }

  /// The sprite object itself.
  class Sprite {
    var data: array<bv8>
    var tileNum: bv8
    var x: int
    var y: int
    var aboveBkgd: bool
    var xFlip: bool
    var yFlip: bool
    var palette: bv8
    var vramBank: bv8

    predicate Valid()
      reads this
    {
      data.Length == OAM_BYTE_SIZE
    }

    function State(): SpriteState
      reads this, data
    {
      SpriteState(data[..], tileNum, x, y, aboveBkgd, xFlip, yFlip, palette, vramBank)
    }

    /// `Sprite::new`.
    constructor ()
      ensures Valid() && fresh(data)
      ensures State() == Initial
    {
      data := new bv8[OAM_BYTE_SIZE] [0, 0, 0, 0];
      tileNum, x, y := 0, 0, 0;
      aboveBkgd, xFlip, yFlip := true, false, false;
      palette, vramBank := 0, 0;
    }

    /// `set_byte`: parse the byte, then store it.  An out-of-range offset
    /// is reported and nothing changes.
    method SetByte(index: U16, byte: bv8, mode: GB) returns (r: Result<()>)
      requires Valid()
      modifies this, data
      ensures Valid() && data == old(data)
      ensures r.Ok? <==> index < OAM_BYTE_SIZE
      ensures r.Ok? ==> SetByteOn(old(State()), index, byte, mode) == Ok(State())
      ensures r.Err? ==> State() == old(State())
    {
      if index >= OAM_BYTE_SIZE {
        return Err("Byte offset can only be from 0-3");
      }
      if index == Y_POS_BYTE {
        ParseOamByte1(byte);
      } else if index == X_POS_BYTE {
        ParseOamByte2(byte);
      } else if index == TILE_NUM_BYTE {
        ParseOamByte3(byte);
      } else {
        ParseOamByte4(byte, mode);
      }
      data[index] := byte;
      r := Ok(());
    }

    /// `get_byte`.
    method GetByte(index: U16) returns (r: Result<bv8>)
      requires Valid()
      ensures r == GetByteOf(State(), index)
    {
      if index >= OAM_BYTE_SIZE {
        return Err("Byte offset can only be from 0-3");
      }
      r := Ok(data[index]);
    }

    /// `parse_oam_byte1`.
    method ParseOamByte1(val: bv8)
      modifies this
      ensures State() == ParseByte1(old(State()), val) && data == old(data)
    {
      y := val as int - Y_OFFSET;
    }

    /// `parse_oam_byte2`.
    method ParseOamByte2(val: bv8)
      modifies this
      ensures State() == ParseByte2(old(State()), val) && data == old(data)
    {
      x := val as int - X_OFFSET;
    }

    /// `parse_oam_byte3`.
    method ParseOamByte3(val: bv8)
      modifies this
      ensures State() == ParseByte3(old(State()), val) && data == old(data)
    {
      tileNum := val;
    }

    /// `parse_oam_byte4`.
    method ParseOamByte4(val: bv8, mode: GB)
      modifies this
      ensures State() == ParseByte4(old(State()), val, mode) && data == old(data)
    {
      aboveBkgd := !GetBit(val, BG_PRIORITY_BIT);
      yFlip := GetBit(val, Y_FLIP_BIT);
      xFlip := GetBit(val, X_FLIP_BIT);
      if mode == CGB {
        palette := val & 0x07;
        vramBank := (val & 0x08) >> 3;
      } else {
        palette := if GetBit(val, PAL_NUM_BIT) then 1 else 0;
      }
    }

    /// `is_onscreen`.
    function OnScreen(): (r: bool)
      reads this, data
      ensures r == IsOnscreen(State())
    {
      var xVisible := -X_OFFSET < x < X_OFFSCREEN;
      var yVisible := -Y_OFFSET < y < Y_OFFSCREEN;
      xVisible || yVisible
    }

    /// `contains_scanline`.
    function HasScanline(scanline: bv8, is8x16: bool): (r: bool)
      reads this, data
      ensures r == ContainsScanline(State(), scanline, is8x16)
    {
      var height := if is8x16 then 2 * TILESIZE else TILESIZE;
      y <= scanline as int && scanline as int < y + height
    }

    /// `get_tile_num`.
    function GetTileNum(): (r: bv8)
      reads this, data
      ensures r == State().tileNum
    {
      tileNum
    }

    /// `get_coords`: X, then Y.
    function GetCoords(): (r: (int, int))
      reads this, data
      ensures r == (State().x, State().y)
    {
      (x, y)
    }

    /// `get_pal`.
    function GetPal(): (r: bv8)
      reads this, data
      ensures r == State().palette
    {
      palette
    }

    /// `get_vram_bank`.
    function GetVramBank(): (r: nat)
      reads this, data
      ensures r == State().vramBank as nat
    {
      vramBank as nat
    }

    /// `is_x_flip`.
    function IsXFlip(): (r: bool)
      reads this, data
      ensures r == State().xFlip
    {
      xFlip
    }

    /// `is_y_flip`.
    function IsYFlip(): (r: bool)
      reads this, data
      ensures r == State().yFlip
    {
      yFlip
    }

    /// `is_above_bkgd`.
    function IsAboveBkgd(): (r: bool)
      reads this, data
      ensures r == State().aboveBkgd
    {
      aboveBkgd
    }
  }
}
