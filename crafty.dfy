/** The tile-grid painting sandbox (craftySDL/main.cpp).

    The screen is cut into square tiles, stored column-major in a three-dimensional integer
    array `tiles[column][row][field]`: fields 0..3 are the tile's rectangle (x, y, width,
    height) and field 4 is its category, an index into the `BlockColors` table. The grid is
    filled once at start-up, one tile is marked, and then every mouse click paints the tile
    under the cursor: grass on a left click, air on a right click. */
module Crafty {

  const ScreenWidth: int := 1280
  const ScreenHeight: int := 720
  const TileSize: int := 20

  /** Number of tile columns and rows (`SCREEN_WIDTH / TILESIZE`, `SCREEN_HEIGHT / TILESIZE`);
      `Rows` is also the program's `TileNb`. */
  const Columns: int := ScreenWidth / TileSize
  const Rows: int := ScreenHeight / TileSize

  /** The five integers a tile holds. */
  const RectX: int := 0
  const RectY: int := 1
  const RectW: int := 2
  const RectH: int := 3
  const Kind: int := 4
  const TileFields: int := 5

  /** Categories; each is a row of `BlockColors`. */
  const Air: int := 0
  const Grass: int := 1
  const Dirt: int := 2
  const Marker: int := 3

  /** SDL's button identifiers for the left and the right mouse button. */
  const ButtonLeft: int := 1
  const ButtonRight: int := 3

  /** RGBA colour of each category: air, grass, dirt, and two more. */
  const BlockColors: seq<seq<int>> := [
    [102, 255, 255, 255],
    [0, 200, 0, 255],
    [80, 40, 0, 255],
    [255, 255, 255, 255],
    [255, 60, 0, 255]
  ]

  predicate Shaped(tiles: array3<int>)
  {
    tiles.Length0 == Columns && tiles.Length1 == Rows && tiles.Length2 == TileFields
  }

  predicate IsTile(i: int, j: int)
  {
    0 <= i < Columns && 0 <= j < Rows
  }

  /** The grid invariant: every tile keeps the rectangle of its own cell, and every category
      stored is a row of `BlockColors`, so every colour lookup by category is in bounds. */
  predicate WellFormed(tiles: array3<int>)
    reads tiles
  {
    && Shaped(tiles)
    && (forall i, j | 0 <= i < Columns && 0 <= j < Rows ::
          && tiles[i, j, RectX] == i * TileSize
          && tiles[i, j, RectY] == j * TileSize
          && tiles[i, j, RectW] == TileSize
          && tiles[i, j, RectH] == TileSize
          && 0 <= tiles[i, j, Kind] < |BlockColors|)
  }

  /** Fills the grid as the start-up loops do: each tile gets the rectangle of its cell; the
      four bottom rows are dirt, the row above them grass, and everything higher air. */
  method InitTiles() returns (tiles: array3<int>)
    ensures fresh(tiles) && WellFormed(tiles)
    ensures forall i, j | IsTile(i, j) && j >= Rows - 4 :: tiles[i, j, Kind] == Dirt
    ensures forall i, j | IsTile(i, j) && j == Rows - 5 :: tiles[i, j, Kind] == Grass
    ensures forall i, j | IsTile(i, j) && j < Rows - 5 :: tiles[i, j, Kind] == Air
  {
    tiles := new int[Columns, Rows, TileFields];
    var tileNb := ScreenHeight / TileSize;
    var i := 0;
    while i < Columns
      invariant 0 <= i <= Columns
      invariant forall i', j' | 0 <= i' < i && 0 <= j' < Rows ::
        && tiles[i', j', RectX] == i' * TileSize && tiles[i', j', RectY] == j' * TileSize
        && tiles[i', j', RectW] == TileSize && tiles[i', j', RectH] == TileSize
        && tiles[i', j', Kind] == (if j' >= Rows - 4 then Dirt else if j' == Rows - 5 then Grass else Air)
    {
      var j := 0;
      while j < Rows
        invariant 0 <= j <= Rows
        invariant forall i', j' | (0 <= i' < i && 0 <= j' < Rows) || (i' == i && 0 <= j' < j) ::
          && tiles[i', j', RectX] == i' * TileSize && tiles[i', j', RectY] == j' * TileSize
          && tiles[i', j', RectW] == TileSize && tiles[i', j', RectH] == TileSize
          && tiles[i', j', Kind] == (if j' >= Rows - 4 then Dirt else if j' == Rows - 5 then Grass else Air)
      {
        tiles[i, j, RectX] := i * TileSize;
        tiles[i, j, RectY] := j * TileSize;
        tiles[i, j, RectW] := TileSize;
        tiles[i, j, RectH] := TileSize;
        if j >= tileNb - 5 {
          if j >= tileNb - 4 {
            tiles[i, j, Kind] := Dirt;
          } else {
            tiles[i, j, Kind] := Grass;
          }
        } else {
          tiles[i, j, Kind] := Air;
        }
        j := j + 1;
      }
      i := i + 1;
    }
  }

  /** The one fixed paint after the first render: tile (8, 8) becomes category 3. */
  method PaintMarker(tiles: array3<int>)
    requires WellFormed(tiles)
    modifies tiles
    ensures WellFormed(tiles)
    ensures tiles[8, 8, Kind] == Marker
    ensures forall i, j, k | IsTile(i, j) && 0 <= k < TileFields && !(i == 8 && j == 8 && k == Kind) ::
      tiles[i, j, k] == old(tiles[i, j, k])
  {
    tiles[8, 8, Kind] := Marker;
  }

  /** The tile under an in-window mouse position, by integer division of each coordinate by
      the tile size (C's truncating division, which agrees with Dafny's on these non-negative
      operands). The cell is inside the grid and its rectangle holds the pixel. */
  function CellOf(mouseX: int, mouseY: int): (cell: (int, int))
    requires 0 <= mouseX < ScreenWidth && 0 <= mouseY < ScreenHeight
    ensures IsTile(cell.0, cell.1)
    ensures cell.0 * TileSize <= mouseX < cell.0 * TileSize + TileSize
    ensures cell.1 * TileSize <= mouseY < cell.1 * TileSize + TileSize
  {
    (mouseX / TileSize, mouseY / TileSize)
  }

  /** The division is the same as asking which tile's rectangle holds the pixel: exactly one
      tile does, and it is the one `CellOf` names. */
  lemma CellOfIsContainingTile(mouseX: int, mouseY: int, i: int, j: int)
    requires 0 <= mouseX < ScreenWidth && 0 <= mouseY < ScreenHeight
    requires IsTile(i, j)
    ensures (i * TileSize <= mouseX < i * TileSize + TileSize && j * TileSize <= mouseY < j * TileSize + TileSize)
        <==> CellOf(mouseX, mouseY) == (i, j)
  {
  }

  /** The category a click leaves on the clicked tile: the left button paints grass (1), the
      right button paints air (0), any other button leaves the category as it was. */
  function Painted(button: int, kind: int): (k: int)
    ensures button == ButtonLeft ==> k == Grass
    ensures button == ButtonRight ==> k == Air
    ensures button != ButtonLeft && button != ButtonRight ==> k == kind
  {
    var k := if button == ButtonLeft then Grass else kind;
    if button == ButtonRight then Air else k
  }

  /** Painting is idempotent: a second identical click finds the painted category and writes
      it again. */
  lemma PaintedIdempotent(button: int, kind: int)
    ensures Painted(button, Painted(button, kind)) == Painted(button, kind)
  {
  }

  /** A mouse-button press at an in-window position: the category of the tile under the
      cursor is set by `Painted`; every other category and every rectangle is unchanged. */
  method Click(tiles: array3<int>, mouseX: int, mouseY: int, button: int)
    requires WellFormed(tiles)
    requires 0 <= mouseX < ScreenWidth && 0 <= mouseY < ScreenHeight
    modifies tiles
    ensures WellFormed(tiles)
    ensures var cell := CellOf(mouseX, mouseY);
      && tiles[cell.0, cell.1, Kind] == Painted(button, old(tiles[cell.0, cell.1, Kind]))
      && tiles[cell.0, cell.1, RectX] <= mouseX < tiles[cell.0, cell.1, RectX] + tiles[cell.0, cell.1, RectW]
      && tiles[cell.0, cell.1, RectY] <= mouseY < tiles[cell.0, cell.1, RectY] + tiles[cell.0, cell.1, RectH]
    ensures var cell := CellOf(mouseX, mouseY);
      forall i, j, k | IsTile(i, j) && 0 <= k < TileFields && !(i == cell.0 && j == cell.1 && k == Kind) ::
        tiles[i, j, k] == old(tiles[i, j, k])
  {
    var tileX := mouseX / TileSize;
    var tileY := mouseY / TileSize;
    if button == ButtonLeft {
      tiles[tileX, tileY, Kind] := Grass;
    }
    if button == ButtonRight {
      tiles[tileX, tileY, Kind] := Air;
    }
  }
}
