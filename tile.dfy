// A background or sprite tile: an 8x8 grid of 2-bit colour indices.
//
// The PPU keeps 384 tiles and refreshes one of them whenever a byte of the
// tile set (0x8000-0x97FF) is written.  The tile type itself lives in a
// file that is not part of this model; it is modelled here on the Game
// Boy's own layout of 16 bytes per tile, two per row: in row `r`, byte
// `2r` holds bit 0 and byte `2r + 1` bit 1 of each pixel, with the
// leftmost pixel in bit 7.

module Tiles {

  const TILE_BYTES: int := 16
  const TILE_SIZE: int := 8

  datatype Tile = Tile(bytes: seq<bv8>)

  predicate WellFormed(t: Tile)
  {
    |t.bytes| == TILE_BYTES
  }

  /// `Tile::new`: every pixel is colour 0.
  const Blank := Tile(seq(TILE_BYTES, _ => 0))

  /// The 2-bit colour index of the pixel in column `col` of row `row`.
  function Pixel(t: Tile, row: int, col: int): (p: bv8)
    requires WellFormed(t) && 0 <= row < TILE_SIZE && 0 <= col < TILE_SIZE
    ensures p <= 3
  {
    var shift := (7 - col) as bv8;
    var low := (t.bytes[2 * row] >> shift) & 1;
    var high := (t.bytes[2 * row + 1] >> shift) & 1;
    (high << 1) | low
  }

  /// `get_row(row)`: the row's eight pixels, left to right.
  function GetRow(t: Tile, row: int): (r: seq<bv8>)
    requires WellFormed(t) && 0 <= row < TILE_SIZE
    ensures |r| == TILE_SIZE
    ensures forall col :: 0 <= col < TILE_SIZE ==> r[col] == Pixel(t, row, col) && r[col] <= 3
  {
    seq(TILE_SIZE, col requires 0 <= col < TILE_SIZE => Pixel(t, row, col))
  }

  /// `update_byte(byte_num, val)`: one byte of the tile's data changes.
  function UpdateByte(t: Tile, byteNum: int, val: bv8): (u: Tile)
    requires WellFormed(t) && 0 <= byteNum < TILE_BYTES
    ensures WellFormed(u)
  {
    Tile(t.bytes[byteNum := val])
  }

  /// The blank tile has colour 0 everywhere.
  lemma BlankIsColourZero(row: int, col: int)
    requires 0 <= row < TILE_SIZE && 0 <= col < TILE_SIZE
    ensures WellFormed(Blank) && Pixel(Blank, row, col) == 0
  {
  }

  /// A byte write changes only the row it belongs to, byte `2r` or `2r + 1`
  /// being row `r`.
  lemma UpdateOnlyItsRow(t: Tile, byteNum: int, val: bv8, row: int, col: int)
    requires WellFormed(t) && 0 <= byteNum < TILE_BYTES
    requires 0 <= row < TILE_SIZE && 0 <= col < TILE_SIZE && row != byteNum / 2
    ensures Pixel(UpdateByte(t, byteNum, val), row, col) == Pixel(t, row, col)
  {
    assert 2 * row != byteNum && 2 * row + 1 != byteNum;
  }

  /// Writing the same byte a tile already holds leaves it as it was.
  lemma UpdateSame(t: Tile, byteNum: int)
    requires WellFormed(t) && 0 <= byteNum < TILE_BYTES
    ensures UpdateByte(t, byteNum, t.bytes[byteNum]) == t
  {
  }
}
