// The picture processing unit's registers and line logic
// (core/src/ppu/mod.rs): the 32 KiB of video memory 0x8000-0xFFFF seen
// through offset addresses (address - 0x8000), the LCDC, STAT, LY and LYC
// registers kept inside it, the mode-gated write path that also refreshes
// the decoded tiles and sprites, the rendering of one background scanline
// into the frame buffer, the drawing of one sprite tile, and the expansion
// of 2-bit shades into RGBA.
//
// The getters of the Rust `PPU` read nothing but VRAM, so they are
// functions of its contents; the operations that write are methods of the
// `Ppu` class, whose buffers are arrays, proved to follow functions on
// `VideoState`.

module Ppu {
  import opened Utils
  import PpuClock
  import OamSprite
  import Tiles

  const MAP_SIZE: int := 32
  const MAP_PIXELS: int := MAP_SIZE * TILESIZE
  const VRAM_SIZE: int := 0x8000
  const VRAM_OFFSET: int := 0x8000
  const TILE_NUM: int := 384
  const OAM_SPR_NUM: int := 40

  /// The registers, as offsets into VRAM.
  const LCDC: int := 0xFF40 - VRAM_OFFSET
  const STAT: int := 0xFF41 - VRAM_OFFSET
  const SCY: int := 0xFF42 - VRAM_OFFSET
  const SCX: int := 0xFF43 - VRAM_OFFSET
  const LY: int := 0xFF44 - VRAM_OFFSET
  const LYC: int := 0xFF45 - VRAM_OFFSET
  const BGP: int := 0xFF47 - VRAM_OFFSET
  const OBP0: int := 0xFF48 - VRAM_OFFSET
  const OBP1: int := 0xFF49 - VRAM_OFFSET
  const WY: int := 0xFF4A - VRAM_OFFSET
  const WX: int := 0xFF4B - VRAM_OFFSET

  /// Display RAM (tile data and tile maps), OAM and the tile set, as offsets.
  const DISPLAY_RAM_START: int := 0x8000 - VRAM_OFFSET
  const DISPLAY_RAM_END: int := 0xA000 - VRAM_OFFSET
  const OAM_MEM: int := 0xFE00 - VRAM_OFFSET
  const OAM_MEM_END: int := 0xFE9F - VRAM_OFFSET
  const TILE_SET: int := 0x8000 - VRAM_OFFSET
  const TILE_SET_END: int := 0x97FF - VRAM_OFFSET
  const TILE_MAP_0: int := 0x9800 - VRAM_OFFSET
  const TILE_MAP_1: int := 0x9C00 - VRAM_OFFSET
  const TILE_MAP_LEN: int := 0x400

  const SCREEN_PIXELS: int := SCREEN_WIDTH * SCREEN_HEIGHT
  const DISP_SIZE: int := SCREEN_PIXELS * COLOR_CHANNELS

  /// The four DMG shades as RGBA, lightest first.
  const BLACK: seq<bv8> := [0, 0, 0, 255]
  const LIGHT_GRAY: seq<bv8> := [148, 148, 165, 255]
  const DARK_GRAY: seq<bv8> := [107, 107, 90, 255]
  const WHITE: seq<bv8> := [255, 255, 255, 255]
  const COLORS: seq<seq<bv8>> := [WHITE, LIGHT_GRAY, DARK_GRAY, BLACK]

  /// A value of Rust's `u16`.
  type U16 = i: int | 0 <= i < 0x10000

  predicate VramSized(v: seq<bv8>)
  {
    |v| == VRAM_SIZE
  }

  /// `is_in_oam`, on an offset address.
  predicate IsInOam(addr: U16)
  {
    OAM_MEM <= addr <= OAM_MEM_END
  }

  /// `is_in_tile_set`, on an offset address.
  predicate IsInTileSet(addr: U16)
  {
    TILE_SET <= addr <= TILE_SET_END
  }

  predicate InDisplayRam(addr: U16)
  {
    DISPLAY_RAM_START <= addr < DISPLAY_RAM_END
  }

  // ---------------------------------------------------------------------
  // Register getters

  /// `get_lcdc_status`: the mode held in STAT bits 0-1.
  function LcdcStatus(v: seq<bv8>): (m: PpuClock.Mode)
    requires VramSized(v)
    ensures PpuClock.ModeIndex(m) == v[STAT] & 0x03
  {
    var mode := v[STAT] & 0x03;
    if mode == 0 then PpuClock.HBlank
    else if mode == 1 then PpuClock.VBlank
    else if mode == 2 then PpuClock.OamRead
    else PpuClock.VramRead
  }

  /// `is_valid_status(addr)`: during OAM read OAM cannot be written, during
  /// VRAM read neither OAM nor display RAM can.
  function IsValidStatus(v: seq<bv8>, addr: U16): bool
    requires VramSized(v)
  {
    match LcdcStatus(v)
    case OamRead => !IsInOam(addr)
    case VramRead => !IsInOam(addr) && !InDisplayRam(addr)
    case _ => true
  }

  /// `is_bkgd_dspl`: LCDC bit 0.
  function IsBkgdDspl(v: seq<bv8>): (r: bool)
    requires VramSized(v)
    ensures r <==> v[LCDC] & 0x01 != 0
  {
    GetBit(v[LCDC], 0)
  }

  /// `is_sprt_dspl`: LCDC bit 1.
  function IsSprtDspl(v: seq<bv8>): (r: bool)
    requires VramSized(v)
    ensures r <==> v[LCDC] & 0x02 != 0
  {
    GetBit(v[LCDC], 1)
  }

  /// `spr_are_8x16`: LCDC bit 2.
  function SprAre8x16(v: seq<bv8>): (r: bool)
    requires VramSized(v)
    ensures r <==> v[LCDC] & 0x04 != 0
  {
    GetBit(v[LCDC], 2)
  }

  /// `get_bkgd_tile_map_index`: LCDC bit 3, as 0 or 1.
  function BkgdTileMapIndex(v: seq<bv8>): (r: bv8)
    requires VramSized(v)
    ensures r == (v[LCDC] >> 3) & 1
  {
    if GetBit(v[LCDC], 3) then 1 else 0
  }

  /// `get_bkgd_wndw_tile_set_index`: LCDC bit 4, as 0 or 1.
  function BkgdWndwTileSetIndex(v: seq<bv8>): (r: bv8)
    requires VramSized(v)
    ensures r == (v[LCDC] >> 4) & 1
  {
    if GetBit(v[LCDC], 4) then 1 else 0
  }

  /// `is_wndw_dspl`: LCDC bit 5.
  function IsWndwDspl(v: seq<bv8>): (r: bool)
    requires VramSized(v)
    ensures r <==> v[LCDC] & 0x20 != 0
  {
    GetBit(v[LCDC], 5)
  }

  /// `get_wndw_tile_map_index`: LCDC bit 6, as 0 or 1.
  function WndwTileMapIndex(v: seq<bv8>): (r: bv8)
    requires VramSized(v)
    ensures r == (v[LCDC] >> 6) & 1
  {
    if GetBit(v[LCDC], 6) then 1 else 0
  }

  /// `get_scroll_coords`: (SCX, SCY).
  function ScrollCoords(v: seq<bv8>): (bv8, bv8)
    requires VramSized(v)
  {
    (v[SCX], v[SCY])
  }

  /// `get_wndw_coords`: (WX - 7, saturating at 0, and WY).
  function WndwCoords(v: seq<bv8>): (p: (bv8, bv8))
    requires VramSized(v)
    ensures p.0 as int == if v[WX] as int >= 7 then v[WX] as int - 7 else 0
    ensures p.1 == v[WY]
  {
    (if v[WX] >= 7 then v[WX] - 7 else 0, v[WY])
  }

  /// `get_bkgd_palette`: the four shades of BGP.
  function BkgdPalette(v: seq<bv8>): (p: seq<bv8>)
    requires VramSized(v)
    ensures |p| == 4 && forall i :: 0 <= i < 4 ==> p[i] <= 3
  {
    Unpack(v[BGP])
  }

  /// `get_spr_palette(pal_0)`: OBP0 or OBP1.
  function SprPalette(v: seq<bv8>, pal0: bool): (p: seq<bv8>)
    requires VramSized(v)
    ensures |p| == 4 && forall i :: 0 <= i < 4 ==> p[i] <= 3
  {
    if pal0 then Unpack(v[OBP0]) else Unpack(v[OBP1])
  }

  /// Where the background tile map starts: 0x9800 or 0x9C00.
  function TileMapStart(select: bv8): (start: int)
    ensures start + TILE_MAP_LEN <= DISPLAY_RAM_END
  {
    if select == 0 then TILE_MAP_0 else TILE_MAP_1
  }

  /// `get_bkgd_tile_map`: the 1024 bytes of the selected tile map.
  function BkgdTileMap(v: seq<bv8>): (m: seq<bv8>)
    requires VramSized(v)
    ensures |m| == TILE_MAP_LEN
    ensures forall i :: 0 <= i < TILE_MAP_LEN ==> m[i] == v[TileMapStart(BkgdTileMapIndex(v)) + i]
  {
    var start := TileMapStart(BkgdTileMapIndex(v));
    v[start..start + TILE_MAP_LEN]
  }

  /// `get_wndw_tile_map`: the 1024 bytes of the tile map LCDC bit 6 selects.
  function WndwTileMap(v: seq<bv8>): (m: seq<bv8>)
    requires VramSized(v)
    ensures |m| == TILE_MAP_LEN
    ensures forall i :: 0 <= i < TILE_MAP_LEN ==> m[i] == v[TileMapStart(WndwTileMapIndex(v)) + i]
  {
    var start := TileMapStart(WndwTileMapIndex(v));
    v[start..start + TILE_MAP_LEN]
  }

  // ---------------------------------------------------------------------
  // Background tile addressing

  /// A byte read as Rust's `i8`.
  function Signed(b: bv8): (r: int)
    ensures -128 <= r < 128
    ensures r % 256 == b as int
  {
    if b < 128 then b as int else b as int - 256
  }

  /// The tile a map entry names: with tile set 0 the entry is signed and
  /// counts from tile 256, with tile set 1 it is the tile number itself.
  function TileIndex(mapByte: bv8, tileSet: bv8): (t: int)
    ensures 0 <= t < TILE_NUM
  {
    if tileSet == 0 then 256 + Signed(mapByte) else mapByte as int
  }

  /// Tile set 0 reaches tiles 128-383 and tile set 1 tiles 0-255.
  lemma TileIndexRange(mapByte: bv8, tileSet: bv8)
    ensures tileSet == 0 ==> 128 <= TileIndex(mapByte, tileSet) < 384
    ensures tileSet != 0 ==> TileIndex(mapByte, tileSet) == mapByte as int
  {
  }

  /// On tile set 0, map entries 0x00-0x7F name tiles 256-383 and entries
  /// 0x80-0xFF name tiles 128-255: 0x8800-0x97FF read as one block.
  lemma SignedTileSet(mapByte: bv8)
    ensures mapByte < 0x80 ==> TileIndex(mapByte, 0) == 256 + mapByte as int
    ensures mapByte >= 0x80 ==> TileIndex(mapByte, 0) == mapByte as int
  {
  }

  /// The whole PPU state as a value.
  datatype VideoState = VideoState(
    vram: seq<bv8>,
    mapBuffer: seq<bv8>,
    tiles: seq<Tiles.Tile>,
    oam: seq<OamSprite.SpriteState>)

  predicate Sized(s: VideoState)
  {
    && |s.vram| == VRAM_SIZE
    && |s.mapBuffer| == SCREEN_PIXELS
    && |s.tiles| == TILE_NUM
    && |s.oam| == OAM_SPR_NUM
    && TilesWellFormed(s.tiles)
    && (forall i :: 0 <= i < |s.oam| ==> OamSprite.WellFormed(s.oam[i]))
  }

  /// `PPU::new`: everything zero, blank tiles, sprites as `Sprite::new`.
  const Initial := VideoState(
    seq(VRAM_SIZE, _ => 0),
    seq(SCREEN_PIXELS, _ => 0),
    seq(TILE_NUM, _ => Tiles.Blank),
    seq(OAM_SPR_NUM, _ => OamSprite.Initial))

  // ---------------------------------------------------------------------
  // Writes

  /// The sprite and byte an OAM offset belongs to.
  function OamSlot(addr: U16): (slot: (int, int))
    requires IsInOam(addr)
    ensures 0 <= slot.0 < OAM_SPR_NUM && 0 <= slot.1 < OamSprite.OAM_BYTE_SIZE
    ensures addr == OAM_MEM + 4 * slot.0 + slot.1
  {
    var rel := addr - OAM_MEM;
    (rel / 4, rel % 4)
  }

  /// The tile and byte a tile-set offset belongs to.
  function TileSlot(addr: U16): (slot: (int, int))
    requires IsInTileSet(addr)
    ensures 0 <= slot.0 < TILE_NUM && 0 <= slot.1 < Tiles.TILE_BYTES
    ensures addr == TILE_SET + Tiles.TILE_BYTES * slot.0 + slot.1
  {
    var offset := addr - TILE_SET;
    (offset / Tiles.TILE_BYTES, offset % Tiles.TILE_BYTES)
  }

  /// The sprite or tile that a byte written at offset `addr` belongs to is
  /// refreshed: OAM bytes go through the sprite's parser (told which
  /// hardware runs, `mode`), tile-set bytes into the tile.
  function RefreshDecodedOn(s: VideoState, addr: U16, val: bv8, mode: GB): (t: VideoState)
    requires Sized(s)
    ensures Sized(t) && t.vram == s.vram && t.mapBuffer == s.mapBuffer
  {
    if IsInOam(addr) then
      var slot := OamSlot(addr);
      s.(oam := s.oam[slot.0 := OamSprite.SetByteOn(s.oam[slot.0], slot.1, val, mode).value])
    else if IsInTileSet(addr) then
      var slot := TileSlot(addr);
      s.(tiles := s.tiles[slot.0 := Tiles.UpdateByte(s.tiles[slot.0], slot.1, val)])
    else s
  }

  /// `write_vram(raw_addr, val)`.  The write is gated by `is_valid_status`
  /// applied to the RAW address; an accepted write refreshes the sprite or
  /// tile the byte belongs to, then stores it in VRAM.
  function WriteVramOn(s: VideoState, rawAddr: U16, val: bv8, mode: GB): (t: VideoState)
    requires Sized(s) && rawAddr >= VRAM_OFFSET
    ensures Sized(t)
  {
    var addr := rawAddr - VRAM_OFFSET;
    if !IsValidStatus(s.vram, rawAddr) then s
    else
      var decoded := RefreshDecodedOn(s, addr, val, mode);
      decoded.(vram := s.vram[addr := val])
  }

  /// `set_ly(line)`: LY takes the line; when it then equals LYC, STAT bit 2
  /// is set and the result is STAT bit 6 (the coincidence interrupt
  /// enable); otherwise STAT is left alone and the result is false.
  function SetLyOn(v: seq<bv8>, line: bv8): (r: (seq<bv8>, bool))
    requires VramSized(v)
    ensures VramSized(r.0)
  {
    var v1 := v[LY := line];
    if v1[LY] == v1[LYC] then
      var stat := WriteBit(v1[STAT], 2, true);
      (v1[STAT := stat], GetBit(stat, 6))
    else (v1, false)
  }

  /// `set_status(mode)`: STAT bits 0-1 are cleared, then `mode` is ORed in.
  function SetStatusOn(v: seq<bv8>, mode: bv8): (r: seq<bv8>)
    requires VramSized(v)
    ensures VramSized(r)
  {
    v[STAT := (v[STAT] & 0xFC) | mode]
  }

  // ---------------------------------------------------------------------
  // Properties of the registers

  /// The mode gate on offset addresses: during OAM read exactly OAM is
  /// refused.
  lemma OamReadGate(v: seq<bv8>, addr: U16)
    requires VramSized(v) && v[STAT] & 0x03 == 2
    ensures IsValidStatus(v, addr) <==> !(OAM_MEM <= addr <= OAM_MEM_END)
  {
  }

  /// During VRAM read OAM and 0x8000-0x9FFF are refused.
  lemma VramReadGate(v: seq<bv8>, addr: U16)
    requires VramSized(v) && v[STAT] & 0x03 == 3
    ensures IsValidStatus(v, addr) <==>
      !(OAM_MEM <= addr <= OAM_MEM_END) && !(0 <= addr < 0x2000)
  {
  }

  /// During HBLANK and VBLANK everything is accepted.
  lemma BlankGate(v: seq<bv8>, addr: U16)
    requires VramSized(v) && v[STAT] & 0x03 <= 1
    ensures IsValidStatus(v, addr)
  {
  }

  /// `write_vram` hands the RAW address to the gate, and no raw address of
  /// VRAM (0x8000 and above) is an OAM or display-RAM offset, so every
  /// write is accepted whatever the mode.
  lemma RawAddressGateAcceptsAll(v: seq<bv8>, rawAddr: U16)
    requires VramSized(v) && rawAddr >= VRAM_OFFSET
    ensures IsValidStatus(v, rawAddr)
  {
  }

  /// A write to VRAM reads back; every other byte reads as before.
  lemma WriteThenRead(s: VideoState, rawAddr: U16, val: bv8, mode: GB, other: U16)
    requires Sized(s) && rawAddr >= VRAM_OFFSET && other >= VRAM_OFFSET
    ensures WriteVramOn(s, rawAddr, val, mode).vram[rawAddr - VRAM_OFFSET] == val
    ensures other != rawAddr ==>
      WriteVramOn(s, rawAddr, val, mode).vram[other - VRAM_OFFSET] == s.vram[other - VRAM_OFFSET]
  {
    RawAddressGateAcceptsAll(s.vram, rawAddr);
  }

  /// A write to OAM (0xFE00-0xFE9F) goes to byte `(addr - 0xFE00) % 4` of
  /// sprite `(addr - 0xFE00) / 4`, parsed as `set_byte` parses it; no other
  /// sprite and no tile changes.
  lemma WriteOamUpdatesSprite(s: VideoState, rawAddr: U16, val: bv8, mode: GB)
    requires Sized(s) && 0xFE00 <= rawAddr <= 0xFE9F
    ensures var t := WriteVramOn(s, rawAddr, val, mode);
      var n := (rawAddr - 0xFE00) / 4;
      && OamSprite.SetByteOn(s.oam[n], (rawAddr - 0xFE00) % 4, val, mode) == Ok(t.oam[n])
      && (forall k :: 0 <= k < OAM_SPR_NUM && k != n ==> t.oam[k] == s.oam[k])
      && t.tiles == s.tiles
  {
    RawAddressGateAcceptsAll(s.vram, rawAddr);
  }

  /// A write to the tile set (0x8000-0x97FF) goes to byte `off % 16` of
  /// tile `off / 16`; no other tile and no sprite changes.
  lemma WriteTileSetUpdatesTile(s: VideoState, rawAddr: U16, val: bv8, mode: GB)
    requires Sized(s) && 0x8000 <= rawAddr <= 0x97FF
    ensures var t := WriteVramOn(s, rawAddr, val, mode);
      var n := (rawAddr - 0x8000) / 16;
      && t.tiles[n] == Tiles.UpdateByte(s.tiles[n], (rawAddr - 0x8000) % 16, val)
      && (forall k :: 0 <= k < TILE_NUM && k != n ==> t.tiles[k] == s.tiles[k])
      && t.oam == s.oam
  {
    RawAddressGateAcceptsAll(s.vram, rawAddr);
  }

  /// A write anywhere else changes VRAM only.
  lemma WriteElsewhereKeepsDecoded(s: VideoState, rawAddr: U16, val: bv8, mode: GB)
    requires Sized(s) && rawAddr >= 0x9800 && !(0xFE00 <= rawAddr <= 0xFE9F)
    ensures var t := WriteVramOn(s, rawAddr, val, mode);
      t.tiles == s.tiles && t.oam == s.oam && t.mapBuffer == s.mapBuffer
  {
  }

  /// `set_status(m)` for a mode number `m <= 3` replaces STAT bits 0-1 by
  /// `m` and keeps bits 2-7.
  lemma SetStatusSpec(v: seq<bv8>, m: bv8)
    requires VramSized(v) && m <= 3
    ensures var r := SetStatusOn(v, m);
      && r[STAT] & 0x03 == m
      && r[STAT] & 0xFC == v[STAT] & 0xFC
      && (forall i :: 0 <= i < VRAM_SIZE && i != STAT ==> r[i] == v[i])
  {
  }

  /// Setting the status to the number of a clock mode makes
  /// `get_lcdc_status` give that mode back.
  lemma StatusRoundTrip(v: seq<bv8>, m: PpuClock.Mode)
    requires VramSized(v)
    ensures LcdcStatus(SetStatusOn(v, PpuClock.ModeIndex(m))) == m
  {
    PpuClock.ModeIndexInjective(LcdcStatus(SetStatusOn(v, PpuClock.ModeIndex(m))), m);
  }

  /// `set_ly`: LY holds the line; on a match STAT gains bit 2 and the
  /// result is its bit 6; otherwise nothing but LY changes and the result
  /// is false.
  lemma SetLyMatch(v: seq<bv8>, line: bv8)
    requires VramSized(v) && line == v[LYC]
    ensures var r := SetLyOn(v, line);
      && r.0[LY] == line
      && r.0[STAT] == v[STAT] | 0x04
      && r.1 == (v[STAT] & 0x40 != 0)
  {
  }

  lemma SetLyNoMatch(v: seq<bv8>, line: bv8)
    requires VramSized(v) && line != v[LYC]
    ensures SetLyOn(v, line) == (v[LY := line], false)
  {
  }

  /// `set_ly` never clears the coincidence bit: once set, STAT bit 2 stays
  /// set through any later line.
  lemma SetLyKeepsCoincidence(v: seq<bv8>, line: bv8)
    requires VramSized(v) && v[STAT] & 0x04 != 0
    ensures SetLyOn(v, line).0[STAT] & 0x04 != 0
  {
  }

  // ---------------------------------------------------------------------
  // One background scanline

  /// `render_scanline` reads LY and SCY + LY as `u8`s; the sum must not
  /// overflow, and the line must lie on the screen for its slice of the
  /// frame buffer to exist.
  predicate ScanlineFits(v: seq<bv8>)
  {
    VramSized(v) && v[LY] as int < SCREEN_HEIGHT && v[SCY] as int + v[LY] as int < 0x100
  }

  /// The tile-map entry under screen column `x` of background line `y`
  /// (SCY + LY), with the map wrapping round horizontally.
  function BkgdMapIndex(scx: bv8, y: int, x: int): (index: int)
    requires 0 <= y < 0x100 && 0 <= x < SCREEN_WIDTH
    ensures 0 <= index < TILE_MAP_LEN
  {
    var mapX := ((scx as int + x) % MAP_PIXELS) / TILESIZE;
    var mapY := y / TILESIZE;
    mapY * MAP_SIZE + mapX
  }

  /// Every tile of a tile array is well formed.
  predicate TilesWellFormed(tiles: seq<Tiles.Tile>)
  {
    forall i :: 0 <= i < |tiles| ==> Tiles.WellFormed(tiles[i])
  }

  /// The shade of screen column `x` on background line `y`, scrolled by
  /// `scx`: the tile-map entry under it names a tile, the tile pixel under
  /// it picks an entry of `palette`.
  function ShadeAt(tileMap: seq<bv8>, tileSet: bv8, tiles: seq<Tiles.Tile>, palette: seq<bv8>,
                   scx: bv8, y: int, x: int): (shade: bv8)
    requires |tileMap| == TILE_MAP_LEN && |tiles| == TILE_NUM && TilesWellFormed(tiles)
    requires |palette| == 4 && 0 <= y < 0x100 && 0 <= x < SCREEN_WIDTH
    ensures shade in palette
  {
    var tileIndex := TileIndex(tileMap[BkgdMapIndex(scx, y, x)], tileSet);
    var col := (scx as int + x) % TILESIZE;
    palette[Tiles.GetRow(tiles[tileIndex], y % TILESIZE)[col]]
  }

  /// The first frame-buffer byte of line LY.
  function LineStart(v: seq<bv8>): (start: int)
    requires ScanlineFits(v)
    ensures 0 <= start && start + SCREEN_WIDTH <= SCREEN_PIXELS
  {
    v[LY] as int * SCREEN_WIDTH
  }

  /// The background line LY shows: SCY + LY.
  function BkgdLine(v: seq<bv8>): (y: int)
    requires ScanlineFits(v)
    ensures 0 <= y < 0x100
  {
    v[SCY] as int + v[LY] as int
  }

  /// The shade `render_scanline` gives screen column `x` of line LY: the
  /// tile pixel under the scrolled position, through BGP.
  function ScanlinePixel(v: seq<bv8>, tiles: seq<Tiles.Tile>, x: int): (shade: bv8)
    requires ScanlineFits(v) && |tiles| == TILE_NUM && TilesWellFormed(tiles) && 0 <= x < SCREEN_WIDTH
    ensures shade in BkgdPalette(v)
  {
    ShadeAt(BkgdTileMap(v), BkgdWndwTileSetIndex(v), tiles, BkgdPalette(v), v[SCX], BkgdLine(v), x)
  }

  /// The whole of line LY, left to right.
  function ScanlineRow(v: seq<bv8>, tiles: seq<Tiles.Tile>): (row: seq<bv8>)
    requires ScanlineFits(v) && |tiles| == TILE_NUM && TilesWellFormed(tiles)
    ensures |row| == SCREEN_WIDTH
  {
    seq(SCREEN_WIDTH, x requires 0 <= x < SCREEN_WIDTH => ScanlinePixel(v, tiles, x))
  }

  /// A row of shades computed from the LY line's registers is the row
  /// `ScanlineRow` describes.
  lemma ShadesAreScanline(v: seq<bv8>, tiles: seq<Tiles.Tile>, row: seq<bv8>)
    requires ScanlineFits(v) && |tiles| == TILE_NUM && TilesWellFormed(tiles) && |row| == SCREEN_WIDTH
    requires forall k :: 0 <= k < SCREEN_WIDTH ==>
      row[k] == ShadeAt(BkgdTileMap(v), BkgdWndwTileSetIndex(v), tiles, BkgdPalette(v), v[SCX], BkgdLine(v), k)
    ensures row == ScanlineRow(v, tiles)
  {
  }

  /// `buffer` with the bytes from `start` on replaced by `row`.
  function Splice(buffer: seq<bv8>, start: int, row: seq<bv8>): (r: seq<bv8>)
    requires 0 <= start && start + |row| <= |buffer|
    ensures |r| == |buffer|
  {
    buffer[..start] + row + buffer[start + |row|..]
  }

  /// Inside the spliced range a byte comes from `row`, outside it from
  /// `buffer`.
  lemma SpliceAt(buffer: seq<bv8>, start: int, row: seq<bv8>, i: int)
    requires 0 <= start && start + |row| <= |buffer| && 0 <= i < |buffer|
    ensures Splice(buffer, start, row)[i] == if start <= i < start + |row| then row[i - start] else buffer[i]
  {
    if i < start {
      assert Splice(buffer, start, row)[i] == buffer[..start][i];
    } else if i < start + |row| {
      assert Splice(buffer, start, row)[i] == (buffer[..start] + row)[i];
    }
  }

  /// Byte `x` of the spliced row.
  lemma SpliceInside(buffer: seq<bv8>, start: int, row: seq<bv8>, x: int)
    requires 0 <= start && start + |row| <= |buffer| && 0 <= x < |row|
    ensures Splice(buffer, start, row)[start + x] == row[x]
  {
    SpliceAt(buffer, start, row, start + x);
  }

  /// A byte outside the spliced row.
  lemma SpliceOutside(buffer: seq<bv8>, start: int, row: seq<bv8>, i: int)
    requires 0 <= start && start + |row| <= |buffer| && 0 <= i < |buffer|
    requires i < start || start + |row| <= i
    ensures Splice(buffer, start, row)[i] == buffer[i]
  {
    SpliceAt(buffer, start, row, i);
  }

  /// A buffer that agrees with the splice at every byte is the splice.
  lemma SpliceExtension(buffer: seq<bv8>, start: int, row: seq<bv8>, r: seq<bv8>)
    requires 0 <= start && start + |row| <= |buffer| && |r| == |buffer|
    requires forall i :: 0 <= i < |r| ==> r[i] == if start <= i < start + |row| then row[i - start] else buffer[i]
    ensures r == Splice(buffer, start, row)
  {
    forall i | 0 <= i < |r|
      ensures r[i] == Splice(buffer, start, row)[i]
    {
      SpliceAt(buffer, start, row, i);
    }
  }

  /// The frame buffer after `render_scanline`: row LY replaced by the
  /// line's shades.
  function RenderedBuffer(s: VideoState): (buffer: seq<bv8>)
    requires Sized(s) && ScanlineFits(s.vram)
    ensures |buffer| == SCREEN_PIXELS
  {
    Splice(s.mapBuffer, LineStart(s.vram), ScanlineRow(s.vram, s.tiles))
  }

  /// `render_scanline`: only the frame buffer changes.
  function RenderScanlineOn(s: VideoState): (t: VideoState)
    requires Sized(s) && ScanlineFits(s.vram)
    ensures t.vram == s.vram && t.tiles == s.tiles && t.oam == s.oam
  {
    s.(mapBuffer := RenderedBuffer(s))
  }

  /// Rendering keeps every size invariant.
  lemma RenderScanlineSized(s: VideoState)
    requires Sized(s) && ScanlineFits(s.vram)
    ensures Sized(RenderScanlineOn(s))
  {
  }

  /// Only row LY of the frame buffer changes.
  lemma RenderScanlineFrame(s: VideoState, i: int)
    requires Sized(s) && ScanlineFits(s.vram) && 0 <= i < SCREEN_PIXELS
    requires i < LineStart(s.vram) || i >= LineStart(s.vram) + SCREEN_WIDTH
    ensures RenderedBuffer(s)[i] == s.mapBuffer[i]
  {
    SpliceOutside(s.mapBuffer, LineStart(s.vram), ScanlineRow(s.vram, s.tiles), i);
  }

  /// Every byte of the frame buffer is a shade 0-3 once it has been
  /// rendered, so a buffer of shades stays one.
  predicate Shades(buffer: seq<bv8>)
  {
    forall i :: 0 <= i < |buffer| ==> buffer[i] <= 3
  }

  lemma RenderScanlineShades(s: VideoState)
    requires Sized(s) && ScanlineFits(s.vram) && Shades(s.mapBuffer)
    ensures Shades(RenderedBuffer(s))
  {
    var row := ScanlineRow(s.vram, s.tiles);
    var start := LineStart(s.vram);
    forall i | 0 <= i < SCREEN_PIXELS
      ensures RenderedBuffer(s)[i] <= 3
    {
      if start <= i < start + SCREEN_WIDTH {
        SpliceInside(s.mapBuffer, start, row, i - start);
        assert row[i - start] in BkgdPalette(s.vram);
      } else {
        SpliceOutside(s.mapBuffer, start, row, i);
      }
    }
  }

  /// Column `x` of row LY holds the shade `ScanlinePixel` computes for it.
  lemma RenderScanlineRow(s: VideoState, x: int)
    requires Sized(s) && ScanlineFits(s.vram) && 0 <= x < SCREEN_WIDTH
    ensures RenderedBuffer(s)[LineStart(s.vram) + x] == ScanlinePixel(s.vram, s.tiles, x)
  {
    SpliceInside(s.mapBuffer, LineStart(s.vram), ScanlineRow(s.vram, s.tiles), x);
  }

  /// Every shade written is one of the four entries of BGP.
  lemma ScanlineIsBgpEntry(s: VideoState, x: int)
    requires Sized(s) && ScanlineFits(s.vram) && 0 <= x < SCREEN_WIDTH
    ensures RenderedBuffer(s)[LineStart(s.vram) + x] in Unpack(s.vram[BGP])
  {
    RenderScanlineRow(s, x);
  }

  /// `ShadeAt` spelled out step by step, as the loop computes it.
  lemma ShadeAtSteps(tileMap: seq<bv8>, tileSet: bv8, tiles: seq<Tiles.Tile>, palette: seq<bv8>,
                     scx: bv8, y: int, x: int, pixel: bv8)
    requires |tileMap| == TILE_MAP_LEN && |tiles| == TILE_NUM && TilesWellFormed(tiles)
    requires |palette| == 4 && 0 <= y < 0x100 && 0 <= x < SCREEN_WIDTH
    requires pixel == Tiles.GetRow(tiles[TileIndex(tileMap[(y / TILESIZE) * MAP_SIZE + ((scx as int + x) % MAP_PIXELS) / TILESIZE], tileSet)],
                                   y % TILESIZE)[(scx as int + x) % TILESIZE]
    ensures pixel <= 3 && palette[pixel] == ShadeAt(tileMap, tileSet, tiles, palette, scx, y, x)
  {
  }

  /// The loop of `render_scanline` that fills `pixel_row` for background
  /// line `y`: for each screen column, the tile-map entry under it, the
  /// tile it names, the tile pixel and its shade in `palette`.
  method ScanlineShades(tileMap: seq<bv8>, tileSet: bv8, tiles: seq<Tiles.Tile>, palette: seq<bv8>,
                        scrollX: bv8, y: int) returns (pixelRow: array<bv8>)
    requires |tileMap| == TILE_MAP_LEN && |tiles| == TILE_NUM && TilesWellFormed(tiles)
    requires |palette| == 4 && 0 <= y < 0x100
    ensures fresh(pixelRow) && pixelRow.Length == SCREEN_WIDTH
    ensures forall k :: 0 <= k < SCREEN_WIDTH ==> pixelRow[k] == ShadeAt(tileMap, tileSet, tiles, palette, scrollX, y, k)
  {
    pixelRow := new bv8[SCREEN_WIDTH](_ => 0);
    var row := y % TILESIZE;
    var startX := scrollX as int;
    var x := 0;
    while x < SCREEN_WIDTH
      invariant 0 <= x <= SCREEN_WIDTH
      invariant forall k :: 0 <= k < x ==> pixelRow[k] == ShadeAt(tileMap, tileSet, tiles, palette, scrollX, y, k)
    {
      var mapX := ((startX + x) % MAP_PIXELS) / TILESIZE;
      var mapY := y / TILESIZE;
      var index := mapY * MAP_SIZE + mapX;
      var tileIndex := TileIndex(tileMap[index], tileSet);
      var col := (startX + x) % TILESIZE;
      var pixel := Tiles.GetRow(tiles[tileIndex], row)[col];
      ShadeAtSteps(tileMap, tileSet, tiles, palette, scrollX, y, x, pixel);
      pixelRow[x] := palette[pixel];
      x := x + 1;
    }
  }

  // ---------------------------------------------------------------------
  // One sprite tile

  /// The tile pixel that lands at offset (dx, dy) of a sprite: a flip reads
  /// the tile's row or column from the other end.
  function SprTilePixel(tile: Tiles.Tile, xFlip: bool, yFlip: bool, dx: int, dy: int): (p: bv8)
    requires Tiles.WellFormed(tile) && 0 <= dx < TILESIZE && 0 <= dy < TILESIZE
    ensures p <= 3
  {
    Tiles.Pixel(tile, if yFlip then TILESIZE - dy - 1 else dy, if xFlip then TILESIZE - dx - 1 else dx)
  }

  /// The priority rule of `draw_spr`: a sprite above the background draws
  /// its non-transparent pixels; one below it draws only where the buffer
  /// holds colour 0.
  predicate ShouldDraw(aboveBg: bool, pixel: bv8, existing: bv8)
  {
    (aboveBg && pixel != 0) || (!aboveBg && existing == 0)
  }

  /// The screen pixel `i` lies in the sprite's 8x8 square at (sprX, sprY).
  predicate InSprite(i: int, sprX: nat, sprY: nat)
  {
    sprX <= i % SCREEN_WIDTH < sprX + TILESIZE && sprY <= i / SCREEN_WIDTH < sprY + TILESIZE
  }

  /// What `draw_spr` leaves at pixel `i` of the buffer `a`.
  function DrawnAt(a: seq<bv8>, i: int, tile: Tiles.Tile, spr: OamSprite.SpriteState,
                   sprX: nat, sprY: nat, palette: seq<bv8>): bv8
    requires 0 <= i < |a| && Tiles.WellFormed(tile) && |palette| == 4
  {
    if InSprite(i, sprX, sprY) then
      var pixel := SprTilePixel(tile, spr.xFlip, spr.yFlip, i % SCREEN_WIDTH - sprX, i / SCREEN_WIDTH - sprY);
      if ShouldDraw(spr.aboveBkgd, pixel, a[i]) then palette[pixel] else a[i]
    else a[i]
  }

  /// `draw_spr` on a whole buffer.
  function DrawSprOn(a: seq<bv8>, tile: Tiles.Tile, spr: OamSprite.SpriteState,
                     sprX: nat, sprY: nat, palette: seq<bv8>): (r: seq<bv8>)
    requires Tiles.WellFormed(tile) && |palette| == 4
    ensures |r| == |a|
  {
    seq(|a|, i requires 0 <= i < |a| => DrawnAt(a, i, tile, spr, sprX, sprY, palette))
  }

  /// A pixel changes only inside the sprite's square and only when the
  /// priority rule allows it, and then it takes the palette entry of the
  /// tile pixel.
  lemma DrawSprChanges(a: seq<bv8>, i: int, tile: Tiles.Tile, spr: OamSprite.SpriteState,
                       sprX: nat, sprY: nat, palette: seq<bv8>)
    requires Tiles.WellFormed(tile) && |palette| == 4 && 0 <= i < |a|
    requires DrawSprOn(a, tile, spr, sprX, sprY, palette)[i] != a[i]
    ensures InSprite(i, sprX, sprY)
    ensures var pixel := SprTilePixel(tile, spr.xFlip, spr.yFlip, i % SCREEN_WIDTH - sprX, i / SCREEN_WIDTH - sprY);
      ShouldDraw(spr.aboveBkgd, pixel, a[i]) && DrawSprOn(a, tile, spr, sprX, sprY, palette)[i] == palette[pixel]
  {
  }

  /// A sprite near the right edge is clipped, not wrapped: the columns it
  /// would have past x = 159 do not reappear at the left of the next row.
  lemma DrawSprClipsRight(a: seq<bv8>, tile: Tiles.Tile, spr: OamSprite.SpriteState,
                          sprY: nat, palette: seq<bv8>, i: int)
    requires Tiles.WellFormed(tile) && |palette| == 4
    requires |a| == SCREEN_PIXELS && 0 <= i < |a| && i % SCREEN_WIDTH < 8
    ensures DrawSprOn(a, tile, spr, 156, sprY, palette)[i] == a[i]
  {
  }

  /// Drawing from shades with a sprite palette keeps a buffer of shades.
  lemma DrawSprShades(a: seq<bv8>, tile: Tiles.Tile, spr: OamSprite.SpriteState,
                      sprX: nat, sprY: nat, v: seq<bv8>, pal0: bool)
    requires Tiles.WellFormed(tile) && VramSized(v) && Shades(a)
    ensures Shades(DrawSprOn(a, tile, spr, sprX, sprY, SprPalette(v, pal0)))
  {
  }

  /// The column of the sprite that column-loop step `col` draws; the same
  /// map takes a sprite column back to its step.
  function ColOf(xFlip: bool, col: int): int
  {
    if xFlip then TILESIZE - col - 1 else col
  }

  /// `draw_spr` has dealt with pixel `i` once it has done `row` whole rows
  /// and `col` steps of the next.
  predicate DrawnBy(i: int, xFlip: bool, sprX: nat, sprY: nat, row: int, col: int)
  {
    && InSprite(i, sprX, sprY)
    && var dy := i / SCREEN_WIDTH - sprY;
      dy < row || (dy == row && ColOf(xFlip, i % SCREEN_WIDTH - sprX) < col)
  }

  /// The buffer part-way through `draw_spr`.
  function Drawing(a0: seq<bv8>, i: int, tile: Tiles.Tile, spr: OamSprite.SpriteState,
                   sprX: nat, sprY: nat, palette: seq<bv8>, row: int, col: int): bv8
    requires 0 <= i < |a0| && Tiles.WellFormed(tile) && |palette| == 4
  {
    if DrawnBy(i, spr.xFlip, sprX, sprY, row, col) then DrawnAt(a0, i, tile, spr, sprX, sprY, palette)
    else a0[i]
  }

  /// A step whose column is past the right edge draws nothing.
  lemma SkipColumn(a0: seq<bv8>, tile: Tiles.Tile, spr: OamSprite.SpriteState,
                   sprX: nat, sprY: nat, palette: seq<bv8>, row: int, col: int)
    requires |a0| == SCREEN_PIXELS && Tiles.WellFormed(tile) && |palette| == 4
    requires 0 <= col < TILESIZE && sprX + ColOf(spr.xFlip, col) >= SCREEN_WIDTH
    ensures forall i :: 0 <= i < SCREEN_PIXELS ==>
      Drawing(a0, i, tile, spr, sprX, sprY, palette, row, col + 1) ==
      Drawing(a0, i, tile, spr, sprX, sprY, palette, row, col)
  {
    forall i | 0 <= i < SCREEN_PIXELS
      ensures DrawnBy(i, spr.xFlip, sprX, sprY, row, col + 1) == DrawnBy(i, spr.xFlip, sprX, sprY, row, col)
    {
      if InSprite(i, sprX, sprY) && i / SCREEN_WIDTH - sprY == row {
        assert ColOf(spr.xFlip, i % SCREEN_WIDTH - sprX) != col;
      }
    }
  }

  /// A row below the bottom edge draws nothing.
  lemma SkipRow(a0: seq<bv8>, tile: Tiles.Tile, spr: OamSprite.SpriteState,
                sprX: nat, sprY: nat, palette: seq<bv8>, row: int, col: int)
    requires |a0| == SCREEN_PIXELS && Tiles.WellFormed(tile) && |palette| == 4
    requires sprY + row >= SCREEN_HEIGHT
    ensures forall i :: 0 <= i < SCREEN_PIXELS ==>
      Drawing(a0, i, tile, spr, sprX, sprY, palette, row + 1, 0) ==
      Drawing(a0, i, tile, spr, sprX, sprY, palette, row, col)
  {
    forall i | 0 <= i < SCREEN_PIXELS
      ensures DrawnBy(i, spr.xFlip, sprX, sprY, row + 1, 0) == DrawnBy(i, spr.xFlip, sprX, sprY, row, col)
    {
      assert i / SCREEN_WIDTH < SCREEN_HEIGHT;
    }
  }

  /// After the eighth step a row is done.
  lemma LastColumn(a0: seq<bv8>, tile: Tiles.Tile, spr: OamSprite.SpriteState,
                   sprX: nat, sprY: nat, palette: seq<bv8>, row: int)
    requires |a0| == SCREEN_PIXELS && Tiles.WellFormed(tile) && |palette| == 4
    ensures forall i :: 0 <= i < SCREEN_PIXELS ==>
      Drawing(a0, i, tile, spr, sprX, sprY, palette, row + 1, 0) ==
      Drawing(a0, i, tile, spr, sprX, sprY, palette, row, TILESIZE)
  {
  }

  /// A step on the screen deals with exactly the pixel at column
  /// `sprX + ColOf(col)` of row `sprY + row`, which it has not dealt with
  /// before.
  lemma DrawStep(a0: seq<bv8>, tile: Tiles.Tile, spr: OamSprite.SpriteState,
                 sprX: nat, sprY: nat, palette: seq<bv8>, row: int, col: int, index: int)
    requires |a0| == SCREEN_PIXELS && Tiles.WellFormed(tile) && |palette| == 4
    requires 0 <= row < TILESIZE && 0 <= col < TILESIZE
    requires sprX + ColOf(spr.xFlip, col) < SCREEN_WIDTH && sprY + row < SCREEN_HEIGHT
    requires index == sprX + ColOf(spr.xFlip, col) + SCREEN_WIDTH * (sprY + row)
    ensures 0 <= index < SCREEN_PIXELS
    ensures Drawing(a0, index, tile, spr, sprX, sprY, palette, row, col) == a0[index]
    ensures var pixel := SprTilePixel(tile, spr.xFlip, spr.yFlip, ColOf(spr.xFlip, col), row);
      Drawing(a0, index, tile, spr, sprX, sprY, palette, row, col + 1) ==
        if ShouldDraw(spr.aboveBkgd, pixel, a0[index]) then palette[pixel] else a0[index]
    ensures forall i :: 0 <= i < SCREEN_PIXELS && i != index ==>
      Drawing(a0, i, tile, spr, sprX, sprY, palette, row, col + 1) ==
      Drawing(a0, i, tile, spr, sprX, sprY, palette, row, col)
  {
    assert index % SCREEN_WIDTH == sprX + ColOf(spr.xFlip, col);
    assert index / SCREEN_WIDTH == sprY + row;
  }

  // ---------------------------------------------------------------------
  // Shades to RGBA

  /// `get_color`: four bytes per pixel, the RGBA of its shade.
  function Colorize(pixels: seq<bv8>): (rgba: seq<bv8>)
    requires Shades(pixels)
    ensures |rgba| == |pixels| * COLOR_CHANNELS
  {
    seq(|pixels| * COLOR_CHANNELS, j requires 0 <= j < |pixels| * COLOR_CHANNELS =>
      COLORS[pixels[j / COLOR_CHANNELS]][j % COLOR_CHANNELS])
  }

  /// Bytes 4i to 4i+3 are the colour of pixel i: white, light grey, dark
  /// grey or black for shades 0 to 3, and every alpha byte is 255.
  lemma ColorizePixel(pixels: seq<bv8>, i: int)
    requires Shades(pixels) && 0 <= i < |pixels|
    ensures Colorize(pixels)[4 * i .. 4 * i + 4] == COLORS[pixels[i]]
    ensures Colorize(pixels)[4 * i + 3] == 255
    ensures pixels[i] == 0 ==> Colorize(pixels)[4 * i .. 4 * i + 4] == [255, 255, 255, 255]
    ensures pixels[i] == 3 ==> Colorize(pixels)[4 * i .. 4 * i + 4] == [0, 0, 0, 255]
  {
    var c := Colorize(pixels);
    forall k | 0 <= k < 4
      ensures c[4 * i + k] == COLORS[pixels[i]][k]
    {
      assert (4 * i + k) / 4 == i && (4 * i + k) % 4 == k;
    }
  }

  /// The PPU itself.
  class Ppu {
    var vram: array<bv8>
    var mapBuffer: array<bv8>
    var tiles: array<Tiles.Tile>
    var oam: array<OamSprite.SpriteState>

    function State(): VideoState
      reads this, vram, mapBuffer, tiles, oam
    {
      VideoState(vram[..], mapBuffer[..], tiles[..], oam[..])
    }

    predicate Valid()
      reads this, vram, mapBuffer, tiles, oam
    {
      Sized(State())
    }

    /// `PPU::new`.
    constructor ()
      ensures Valid() && State() == Initial
      ensures fresh(vram) && fresh(mapBuffer) && fresh(tiles) && fresh(oam)
    {
      vram := new bv8[VRAM_SIZE](_ => 0);
      mapBuffer := new bv8[SCREEN_PIXELS](_ => 0);
      tiles := new Tiles.Tile[TILE_NUM](_ => Tiles.Blank);
      oam := new OamSprite.SpriteState[OAM_SPR_NUM](_ => OamSprite.Initial);
      new;
      assert vram[..] == Initial.vram;
      assert mapBuffer[..] == Initial.mapBuffer;
      assert tiles[..] == Initial.tiles;
      assert oam[..] == Initial.oam;
    }

    /// `write_vram`.
    method WriteVram(rawAddr: U16, val: bv8, mode: GB)
      requires Valid() && rawAddr >= VRAM_OFFSET
      modifies vram, tiles, oam
      ensures Valid()
      ensures State() == WriteVramOn(old(State()), rawAddr, val, mode)
    {
      var addr := rawAddr - VRAM_OFFSET;
      if IsValidStatus(vram[..], rawAddr) {
        RefreshDecoded(addr, val, mode);
        vram[addr] := val;
      }
    }

    /// The part of `write_vram` that updates `oam` or `tiles`.
    method RefreshDecoded(addr: U16, val: bv8, mode: GB)
      requires Valid()
      modifies tiles, oam
      ensures Valid()
      ensures State() == RefreshDecodedOn(old(State()), addr, val, mode)
    {
      if IsInOam(addr) {
        var relativeAddr := addr - OAM_MEM;
        var sprNum := relativeAddr / 4;
        var byteNum := relativeAddr % 4;
        oam[sprNum] := OamSprite.SetByteOn(oam[sprNum], byteNum, val, mode).value;
      } else if IsInTileSet(addr) {
        var offset := addr - TILE_SET;
        var tileNum := offset / Tiles.TILE_BYTES;
        var byteNum := offset % Tiles.TILE_BYTES;
        tiles[tileNum] := Tiles.UpdateByte(tiles[tileNum], byteNum, val);
      }
    }

    /// `read_vram`.
    function ReadVram(rawAddr: U16): (r: bv8)
      requires Valid() && rawAddr >= VRAM_OFFSET
      reads this, vram, mapBuffer, tiles, oam
      ensures r == State().vram[rawAddr - VRAM_OFFSET]
    {
      vram[rawAddr - VRAM_OFFSET]
    }

    /// `set_ly`.
    method SetLy(line: bv8) returns (interrupt: bool)
      requires Valid()
      modifies vram
      ensures Valid()
      ensures State() == old(State()).(vram := SetLyOn(old(State().vram), line).0)
      ensures interrupt == SetLyOn(old(State().vram), line).1
    {
      vram[LY] := line;
      if vram[LY] == vram[LYC] {
        vram[STAT] := WriteBit(vram[STAT], 2, true);
        interrupt := GetBit(vram[STAT], 6);
      } else {
        interrupt := false;
      }
    }

    /// `set_status`.
    method SetStatus(mode: bv8)
      requires Valid()
      modifies vram
      ensures Valid()
      ensures State() == old(State()).(vram := SetStatusOn(old(State().vram), mode))
    {
      vram[STAT] := vram[STAT] & 0xFC;
      vram[STAT] := vram[STAT] | mode;
    }

    /// `render_scanline`.
    method RenderScanline()
      requires Valid() && ScanlineFits(vram[..])
      modifies mapBuffer
      ensures Valid()
      ensures State() == RenderScanlineOn(old(State()))
    {
      ghost var s0 := State();
      var v := vram[..];
      var pixelRow := ScanlineShades(BkgdTileMap(v), BkgdWndwTileSetIndex(v), tiles[..],
                                     BkgdPalette(v), v[SCX], BkgdLine(v));
      ShadesAreScanline(s0.vram, s0.tiles, pixelRow[..]);
      CopyRow(pixelRow, LineStart(v));
      RenderScanlineSized(s0);
      assert vram[..] == s0.vram && tiles[..] == s0.tiles && oam[..] == s0.oam;
    }

    /// The copy of `pixel_row` into the frame buffer at `start`.
    method CopyRow(pixelRow: array<bv8>, start: int)
      requires Valid() && pixelRow.Length == SCREEN_WIDTH && 0 <= start && start + SCREEN_WIDTH <= SCREEN_PIXELS
      requires pixelRow != mapBuffer
      modifies mapBuffer
      ensures mapBuffer[..] == Splice(old(mapBuffer[..]), start, pixelRow[..])
    {
      ghost var old0 := mapBuffer[..];
      ghost var row := pixelRow[..];
      forall i | start <= i < start + SCREEN_WIDTH {
        mapBuffer[i] := pixelRow[i - start];
      }
      ghost var buffer := mapBuffer[..];
      assert forall i :: 0 <= i < SCREEN_PIXELS ==>
        buffer[i] == if start <= i < start + SCREEN_WIDTH then row[i - start] else old0[i];
      SpliceExtension(old0, start, row, buffer);
    }

    /// `draw_spr(pixel_array, tile, spr, spr_coords)`: the sprite's palette
    /// is OBP0 when its palette number is 0, OBP1 otherwise.
    method DrawSpr(pixelArray: array<bv8>, tile: Tiles.Tile, spr: OamSprite.SpriteState, sprX: nat, sprY: nat)
      requires Valid() && pixelArray.Length == SCREEN_PIXELS && Tiles.WellFormed(tile)
      modifies pixelArray
      ensures pixelArray[..] == DrawSprOn(old(pixelArray[..]), tile, spr, sprX, sprY, SprPalette(vram[..], spr.palette == 0))
    {
      var palette := SprPalette(vram[..], spr.palette == 0);
      ghost var a0 := pixelArray[..];
      var row := 0;
      while row < TILESIZE
        invariant 0 <= row <= TILESIZE
        invariant forall i :: 0 <= i < SCREEN_PIXELS ==>
          pixelArray[i] == Drawing(a0, i, tile, spr, sprX, sprY, palette, row, 0)
      {
        DrawRow(pixelArray, tile, spr, sprX, sprY, palette, row, a0);
        row := row + 1;
      }
      assert forall i :: 0 <= i < SCREEN_PIXELS ==> pixelArray[i] == DrawnAt(a0, i, tile, spr, sprX, sprY, palette);
    }

    /// One pass of the row loop of `draw_spr`: the columns of sprite row
    /// `row`, right to left when flipped; a column past the right edge
    /// is skipped, a row below the bottom edge ends the pass.
    method DrawRow(pixelArray: array<bv8>, tile: Tiles.Tile, spr: OamSprite.SpriteState, sprX: nat, sprY: nat,
                   palette: seq<bv8>, row: int, ghost a0: seq<bv8>)
      requires pixelArray.Length == SCREEN_PIXELS && |a0| == SCREEN_PIXELS
      requires Tiles.WellFormed(tile) && |palette| == 4 && 0 <= row < TILESIZE
      requires forall i :: 0 <= i < SCREEN_PIXELS ==>
        pixelArray[i] == Drawing(a0, i, tile, spr, sprX, sprY, palette, row, 0)
      modifies pixelArray
      ensures forall i :: 0 <= i < SCREEN_PIXELS ==>
        pixelArray[i] == Drawing(a0, i, tile, spr, sprX, sprY, palette, row + 1, 0)
    {
      var pixels := if spr.yFlip then Tiles.GetRow(tile, TILESIZE - row - 1) else Tiles.GetRow(tile, row);
      var col := 0;
      while col < TILESIZE
        invariant 0 <= col <= TILESIZE
        invariant forall i :: 0 <= i < SCREEN_PIXELS ==>
          pixelArray[i] == Drawing(a0, i, tile, spr, sprX, sprY, palette, row, col)
      {
        var pixel := pixels[col];
        var xOffset := if spr.xFlip then TILESIZE - col - 1 else col;
        var pixelX := sprX + xOffset;
        var pixelY := sprY + row;
        if pixelX >= SCREEN_WIDTH {
          SkipColumn(a0, tile, spr, sprX, sprY, palette, row, col);
          col := col + 1;
          continue;
        } else if pixelY >= SCREEN_HEIGHT {
          SkipRow(a0, tile, spr, sprX, sprY, palette, row, col);
          return;
        }
        var pixelIndex := pixelX + SCREEN_WIDTH * pixelY;
        var correctedPixel := palette[pixel];
        DrawStep(a0, tile, spr, sprX, sprY, palette, row, col, pixelIndex);
        if ShouldDraw(spr.aboveBkgd, pixel, pixelArray[pixelIndex]) {
          pixelArray[pixelIndex] := correctedPixel;
        }
        col := col + 1;
      }
      LastColumn(a0, tile, spr, sprX, sprY, palette, row);
    }

    /// `get_color`.
    method GetColor(pixelArray: array<bv8>) returns (rgbScreen: array<bv8>)
      requires pixelArray.Length == SCREEN_PIXELS && Shades(pixelArray[..])
      ensures fresh(rgbScreen)
      ensures rgbScreen[..] == Colorize(pixelArray[..])
    {
      rgbScreen := new bv8[DISP_SIZE](_ => 0);
      var y := 0;
      while y < SCREEN_HEIGHT
        invariant 0 <= y <= SCREEN_HEIGHT
        invariant forall j :: 0 <= j < y * SCREEN_WIDTH * COLOR_CHANNELS ==>
          rgbScreen[j] == COLORS[pixelArray[j / COLOR_CHANNELS]][j % COLOR_CHANNELS]
      {
        var x := 0;
        while x < SCREEN_WIDTH
          invariant 0 <= x <= SCREEN_WIDTH
          invariant forall j :: 0 <= j < (y * SCREEN_WIDTH + x) * COLOR_CHANNELS ==>
            rgbScreen[j] == COLORS[pixelArray[j / COLOR_CHANNELS]][j % COLOR_CHANNELS]
        {
          var index := y * SCREEN_WIDTH + x;
          ColorPixel(pixelArray, rgbScreen, index);
          x := x + 1;
        }
        y := y + 1;
      }
    }

    /// The innermost loop of `get_color`: the four RGBA bytes of pixel
    /// `index`, after those of every earlier pixel.
    method ColorPixel(pixelArray: array<bv8>, rgbScreen: array<bv8>, index: int)
      requires pixelArray.Length == SCREEN_PIXELS && Shades(pixelArray[..])
      requires rgbScreen.Length == DISP_SIZE && rgbScreen != pixelArray && 0 <= index < SCREEN_PIXELS
      requires forall j :: 0 <= j < index * COLOR_CHANNELS ==>
        rgbScreen[j] == COLORS[pixelArray[j / COLOR_CHANNELS]][j % COLOR_CHANNELS]
      modifies rgbScreen
      ensures forall j :: 0 <= j < (index + 1) * COLOR_CHANNELS ==>
        rgbScreen[j] == COLORS[pixelArray[j / COLOR_CHANNELS]][j % COLOR_CHANNELS]
    {
      var pixel := pixelArray[index];
      var viewIndex := index * COLOR_CHANNELS;
      var color := COLORS[pixel];
      var i := 0;
      while i < |color|
        invariant 0 <= i <= COLOR_CHANNELS
        invariant forall j :: 0 <= j < viewIndex + i ==>
          rgbScreen[j] == COLORS[pixelArray[j / COLOR_CHANNELS]][j % COLOR_CHANNELS]
      {
        rgbScreen[viewIndex + i] := color[i];
        i := i + 1;
      }
    }
  }
}
