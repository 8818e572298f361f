/**
 * The map's constant tables and the tile-number arithmetic: tiles are numbered
 * from 1 row by row across a sprite sheet nine tiles wide and six tall, and 0
 * marks an empty cell. The five layers (water foam, flat ground, shadows,
 * elevated ground, decorations) are 16 rows of the 24-column map, though not
 * every row has exactly 24 entries.
 */
module MapData {
  import opened Wrappers

  const TileSize: int := 32
  const MapCols: int := 24
  const MapRows: int := 16
  const SheetTileSize: int := 64
  const SheetCols: int := 9
  /** The sheets are 576 x 384 pixels: six rows of 64-pixel tiles. */
  const SheetRows: int := 6

  /** A cell of a sprite sheet. */
  datatype ColRow = ColRow(col: int, row: int)

  /** JavaScript's `%`: the remainder takes the sign of the dividend. */
  function JsRem(a: int, d: int): (r: int)
    requires d > 0
    ensures a >= 0 ==> r == a % d
    ensures a < 0 ==> -d < r <= 0 && (a - r) % d == 0
  {
    if a >= 0 then a % d
    else
      var q, m := (-a) / d, (-a) % d;
      LemmaDivModUnique(a + m, d, -q, 0);
      -m
  }

  /** `Math.floor(a / d)`. */
  function FloorDiv(a: int, d: int): (q: int)
    requires d > 0
    ensures q * d <= a < q * d + d
  {
    a / d
  }

  /** `tileToColRow`: the sheet cell of tile number `n`. The column always lies
      within nine of zero, and the row is on or below the sheet's first row exactly
      for tile numbers from 1. */
  function TileToColRow(n: int): (p: ColRow)
    ensures -SheetCols < p.col < SheetCols
    ensures p.row >= 0 <==> n >= 1
  {
    ColRow(JsRem(n - 1, SheetCols), FloorDiv(n - 1, SheetCols))
  }

  /** The tile number of a sheet cell, counting from 1 row by row. */
  function ColRowToTile(p: ColRow): int
  {
    p.row * SheetCols + p.col + 1
  }

  /** For a tile number of at least 1, the column is the remainder and the row the
      quotient of `n - 1` by nine, and numbering the cell back gives `n`. */
  lemma TileToColRowDecomposes(n: int)
    requires n >= 1
    ensures var p := TileToColRow(n);
      && p == ColRow((n - 1) % SheetCols, (n - 1) / SheetCols)
      && 0 <= p.col < SheetCols && 0 <= p.row
      && ColRowToTile(p) == n
  {
  }

  /** Every cell of a sheet at least nine wide is numbered, and reading the number
      back gives the cell. */
  lemma ColRowToTileRoundTrip(p: ColRow)
    requires 0 <= p.col < SheetCols && 0 <= p.row
    ensures ColRowToTile(p) >= 1
    ensures TileToColRow(ColRowToTile(p)) == p
  {
    var n := ColRowToTile(p);
    assert n - 1 == p.row * SheetCols + p.col;
    assert (n - 1) / SheetCols == p.row && (n - 1) % SheetCols == p.col by {
      LemmaDivModUnique(n - 1, SheetCols, p.row, p.col);
    }
  }

  /** Quotient and remainder are unique. */
  lemma LemmaDivModUnique(a: int, d: int, q: int, r: int)
    requires d > 0 && 0 <= r < d && a == q * d + r
    ensures a / d == q && a % d == r
  {
    var q', r' := a / d, a % d;
    assert a == q' * d + r' && 0 <= r' < d;
    if q' < q {
      assert q' * d + d <= q * d by { LemmaMulMonotone(q' + 1, q, d); }
    } else if q' > q {
      assert q * d + d <= q' * d by { LemmaMulMonotone(q + 1, q', d); }
    }
  }

  lemma LemmaMulMonotone(a: int, b: int, d: int)
    requires a <= b && d > 0
    ensures a * d <= b * d
  {
  }

  /** The numbers 1..54 are exactly the cells of the 9 x 6 sheet. */
  lemma TileNumbersFillTheSheet(n: int)
    ensures 1 <= n <= SheetCols * SheetRows <==>
      n >= 1 && 0 <= TileToColRow(n).row < SheetRows
  {
  }

  /** The empty marker 0 names no cell of the sheet. */
  lemma EmptyTileIsOffTheSheet()
    ensures TileToColRow(0) == ColRow(-1, -1)
  {
  }

  const FoamLayer: seq<seq<int>> := [
    FoamRow0, FoamRow1, FoamRow2, FoamRow3,
    FoamRow4, FoamRow5, FoamRow6, FoamRow7,
    FoamRow8, FoamRow9, FoamRow10, FoamRow11,
    FoamRow12, FoamRow13, FoamRow14, FoamRow15
  ]
  const FoamRow0: seq<int> := [0, 0, 0, 0, 0, 0, 0, 0, 0, 0, 0, 0, 0, 0, 0, 0, 0, 0, 0, 0, 0, 0, 0, 0]
  const FoamRow1: seq<int> := [0, 0, 0, 0, 0, 0, 0, 0, 0, 0, 0, 0, 0, 0, 0, 0, 0, 0, 0, 0, 0, 0, 0, 0]
  const FoamRow2: seq<int> := [0, 0, 0, 0, 0, 0, 0, 0, 0, 0, 0, 0, 0, 0, 0, 0, 0, 0, 0, 0, 0, 1, 0, 0]
  const FoamRow3: seq<int> := [0, 0, 0, 0, 0, 0, 0, 0, 0, 0, 0, 0, 0, 0, 0, 0, 0, 0, 0, 0, 0, 1, 0, 0]
  const FoamRow4: seq<int> := [0, 0, 0, 0, 0, 0, 0, 0, 0, 0, 0, 0, 0, 0, 0, 0, 0, 0, 0, 0, 0, 0, 1, 0]
  const FoamRow5: seq<int> := [0, 0, 0, 0, 0, 0, 0, 0, 0, 0, 0, 0, 0, 0, 0, 0, 0, 0, 0, 0, 0, 0, 1, 0]
  const FoamRow6: seq<int> := [0, 1, 0, 0, 0, 0, 0, 0, 0, 0, 0, 0, 0, 0, 0, 0, 0, 0, 0, 0, 0, 0, 1, 0]
  const FoamRow7: seq<int> := [0, 0, 1, 0, 0, 0, 0, 0, 0, 0, 0, 0, 0, 0, 0, 0, 0, 0, 0, 0, 0, 1, 0, 0]
  const FoamRow8: seq<int> := [0, 0, 0, 1, 0, 0, 0, 0, 0, 0, 0, 0, 1, 1, 0, 0, 0, 0, 0, 0, 0, 1, 0, 0]
  const FoamRow9: seq<int> := [0, 1, 1, 0, 0, 0, 0, 0, 0, 0, 0, 1, 0, 0, 1, 0, 0, 0, 0, 0, 0, 1, 0, 0]
  const FoamRow10: seq<int> := [0, 1, 0, 0, 0, 0, 0, 0, 0, 0, 1, 0, 0, 0, 1, 0, 0, 0, 0, 0, 0, 0, 1, 0]
  const FoamRow11: seq<int> := [0, 1, 0, 0, 0, 0, 0, 0, 0, 1, 1, 0, 0, 0, 0, 1, 0, 0, 0, 0, 0, 0, 1, 0]
  const FoamRow12: seq<int> := [0, 1, 1, 0, 0, 0, 0, 0, 1, 0, 0, 0, 0, 0, 0, 1, 0, 0, 0, 0, 0, 0, 1, 0]
  const FoamRow13: seq<int> := [0, 0, 0, 1, 0, 1, 1, 1, 0, 0, 0, 0, 0, 0, 0, 1, 1, 0, 0, 0, 0, 0, 1, 0]
  const FoamRow14: seq<int> := [0, 0, 0, 1, 1, 0, 0, 0, 0, 0, 0, 0, 0, 0, 0, 0, 0, 1, 1, 1, 1, 1, 1, 0]
  const FoamRow15: seq<int> := [0, 0, 0, 0, 0, 0, 0, 0, 0, 0, 0, 0, 0, 0, 0, 0, 0, 0, 0, 0, 0, 0, 0, 0]

  const FlatLayer: seq<seq<int>> := [
    FlatRow0, FlatRow1, FlatRow2, FlatRow3,
    FlatRow4, FlatRow5, FlatRow6, FlatRow7,
    FlatRow8, FlatRow9, FlatRow10, FlatRow11,
    FlatRow12, FlatRow13, FlatRow14, FlatRow15
  ]
  const FlatRow0: seq<int> := [0, 0, 0, 0, 0, 0, 0, 0, 0, 0, 0, 0, 0, 0, 0, 0, 0, 0, 0, 0, 0, 0, 0, 0]
  const FlatRow1: seq<int> := [0, 0, 0, 0, 11, 11, 11, 11, 11, 11, 11, 11, 11, 11, 0, 0, 0, 0, 0, 0, 0, 0, 0, 0, 0]
  const FlatRow2: seq<int> := [0, 0, 0, 0, 11, 11, 11, 11, 11, 11, 11, 11, 11, 11, 0, 0, 0, 0, 0, 0, 2, 3, 0, 0, 0]
  const FlatRow3: seq<int> := [0, 0, 0, 0, 11, 11, 11, 11, 11, 11, 11, 11, 11, 11, 0, 0, 0, 0, 0, 0, 11, 12, 0, 0]
  const FlatRow4: seq<int> := [0, 0, 0, 0, 11, 11, 11, 11, 11, 11, 11, 11, 11, 11, 11, 11, 11, 11, 11, 11, 11, 11, 3, 0]
  const FlatRow5: seq<int> := [0, 0, 0, 0, 11, 11, 11, 11, 11, 11, 11, 11, 11, 11, 11, 11, 11, 11, 11, 11, 11, 11, 12, 0]
  const FlatRow6: seq<int> := [0, 0, 0, 11, 11, 11, 11, 11, 11, 11, 11, 11, 11, 11, 11, 11, 11, 11, 11, 11, 11, 11, 21, 0]
  const FlatRow7: seq<int> := [0, 0, 0, 11, 11, 11, 11, 11, 11, 11, 11, 11, 11, 11, 11, 11, 11, 11, 11, 11, 11, 12, 0, 0]
  const FlatRow8: seq<int> := [0, 0, 0, 10, 11, 11, 11, 11, 11, 11, 11, 12, 0, 0, 10, 11, 11, 11, 11, 11, 11, 12, 0, 0]
  const FlatRow9: seq<int> := [0, 1, 2, 11, 11, 11, 11, 11, 11, 11, 11, 21, 0, 0, 10, 11, 11, 11, 11, 11, 11, 12, 0, 0]
  const FlatRow10: seq<int> := [0, 10, 11, 11, 11, 11, 11, 11, 11, 11, 12, 0, 0, 0, 19, 11, 11, 11, 11, 11, 11, 11, 3, 0]
  const FlatRow11: seq<int> := [0, 10, 11, 11, 11, 11, 11, 11, 11, 20, 21, 0, 0, 0, 0, 10, 11, 11, 11, 11, 11, 11, 12, 0]
  const FlatRow12: seq<int> := [0, 19, 20, 11, 11, 11, 11, 11, 21, 0, 0, 0, 0, 0, 0, 10, 11, 11, 11, 11, 11, 11, 12, 0]
  const FlatRow13: seq<int> := [0, 0, 0, 10, 11, 20, 20, 21, 0, 0, 0, 0, 0, 0, 0, 19, 20, 11, 11, 11, 11, 11, 12, 0]
  const FlatRow14: seq<int> := [0, 0, 0, 19, 21, 0, 0, 0, 0, 0, 0, 0, 0, 0, 0, 0, 0, 19, 20, 20, 20, 20, 21, 0]
  const FlatRow15: seq<int> := [0, 0, 0, 0, 0, 0, 0, 0, 0, 0, 0, 0, 0, 0, 0, 0, 0, 0, 0, 0, 0, 0, 0, 0]

  const ShadowLayer: seq<seq<int>> := [
    ShadowRow0, ShadowRow1, ShadowRow2, ShadowRow3,
    ShadowRow4, ShadowRow5, ShadowRow6, ShadowRow7,
    ShadowRow8, ShadowRow9, ShadowRow10, ShadowRow11,
    ShadowRow12, ShadowRow13, ShadowRow14, ShadowRow15
  ]
  const ShadowRow0: seq<int> := [0, 0, 0, 0, 0, 0, 0, 0, 0, 0, 0, 0, 0, 0, 0, 0, 0, 0, 0, 0, 0, 0, 0, 0]
  const ShadowRow1: seq<int> := [0, 0, 0, 0, 0, 0, 0, 0, 0, 0, 0, 0, 0, 0, 0, 0, 0, 0, 0, 0, 0, 0, 0, 0]
  const ShadowRow2: seq<int> := [0, 0, 0, 0, 0, 0, 0, 0, 0, 0, 0, 0, 0, 0, 0, 0, 0, 0, 0, 0, 0, 0, 0, 0]
  const ShadowRow3: seq<int> := [0, 0, 0, 0, 0, 0, 0, 0, 0, 0, 0, 0, 0, 0, 0, 0, 0, 0, 0, 0, 0, 0, 0, 0]
  const ShadowRow4: seq<int> := [0, 0, 0, 0, 0, 0, 0, 0, 0, 0, 0, 0, 0, 0, 0, 0, 1, 1, 1, 1, 1, 1, 1, 0]
  const ShadowRow5: seq<int> := [0, 0, 0, 0, 0, 0, 0, 0, 0, 0, 0, 0, 0, 0, 0, 0, 1, 0, 0, 0, 0, 0, 0, 0]
  const ShadowRow6: seq<int> := [0, 0, 0, 0, 0, 0, 0, 0, 0, 0, 0, 0, 0, 0, 0, 0, 1, 0, 0, 0, 0, 0, 0, 0]
  const ShadowRow7: seq<int> := [0, 0, 0, 1, 0, 0, 0, 0, 0, 0, 0, 0, 0, 0, 0, 0, 0, 0, 0, 0, 0, 0, 0, 0]
  const ShadowRow8: seq<int> := [0, 0, 0, 0, 1, 0, 0, 0, 0, 1, 1, 1, 0, 0, 0, 0, 0, 0, 1, 0, 0, 0, 0, 0]
  const ShadowRow9: seq<int> := [0, 0, 0, 0, 1, 0, 0, 0, 1, 0, 0, 0, 0, 0, 1, 1, 0, 0, 1, 0, 0, 0, 0, 0]
  const ShadowRow10: seq<int> := [0, 0, 0, 1, 0, 0, 0, 1, 1, 0, 0, 0, 0, 0, 0, 0, 1, 0, 0, 1, 0, 0, 0, 0]
  const ShadowRow11: seq<int> := [0, 0, 0, 0, 1, 1, 1, 0, 0, 0, 0, 0, 0, 0, 0, 0, 1, 1, 1, 0, 0, 0, 0, 0]
  const ShadowRow12: seq<int> := [0, 0, 0, 0, 0, 0, 0, 0, 0, 0, 0, 0, 0, 0, 0, 0, 0, 0, 0, 0, 0, 0, 0, 0]
  const ShadowRow13: seq<int> := [0, 0, 0, 0, 0, 0, 0, 0, 0, 0, 0, 0, 0, 0, 0, 0, 0, 0, 0, 0, 0, 0, 0, 0]
  const ShadowRow14: seq<int> := [0, 0, 0, 0, 0, 0, 0, 0, 0, 0, 0, 0, 0, 0, 0, 0, 0, 0, 0, 0, 0, 0, 0, 0]
  const ShadowRow15: seq<int> := [0, 0, 0, 0, 0, 0, 0, 0, 0, 0, 0, 0, 0, 0, 0, 0, 0, 0, 0, 0, 0, 0, 0, 0]

  const ElevLayer: seq<seq<int>> := [
    ElevRow0, ElevRow1, ElevRow2, ElevRow3,
    ElevRow4, ElevRow5, ElevRow6, ElevRow7,
    ElevRow8, ElevRow9, ElevRow10, ElevRow11,
    ElevRow12, ElevRow13, ElevRow14, ElevRow15
  ]
  const ElevRow0: seq<int> := [0, 0, 0, 0, 0, 0, 6, 7, 7, 7, 7, 7, 7, 7, 7, 7, 7, 7, 7, 7, 8, 0, 0, 0]
  const ElevRow1: seq<int> := [0, 0, 6, 7, 7, 7, 16, 16, 16, 16, 16, 16, 16, 16, 16, 16, 16, 16, 16, 16, 16, 8, 0]
  const ElevRow2: seq<int> := [0, 0, 15, 16, 16, 16, 16, 16, 16, 16, 16, 16, 16, 16, 16, 16, 16, 16, 16, 16, 16, 16, 8, 0]
  const ElevRow3: seq<int> := [0, 6, 16, 16, 16, 16, 16, 16, 16, 16, 16, 16, 16, 16, 16, 16, 16, 25, 25, 25, 25, 25, 26, 0, 0]
  const ElevRow4: seq<int> := [0, 15, 16, 16, 16, 16, 16, 16, 16, 16, 16, 16, 16, 16, 16, 16, 17, 43, 43, 43, 43, 43, 44, 0, 0]
  const ElevRow5: seq<int> := [0, 24, 16, 16, 16, 16, 16, 16, 16, 16, 16, 16, 16, 16, 16, 16, 17, 0, 0, 0, 0, 0, 0, 0]
  const ElevRow6: seq<int> := [0, 42, 24, 25, 16, 16, 16, 16, 16, 16, 16, 16, 16, 16, 16, 16, 17, 0, 0, 0, 0, 0, 0, 0]
  const ElevRow7: seq<int> := [0, 0, 42, 43, 15, 16, 16, 16, 16, 25, 25, 25, 25, 25, 16, 16, 16, 7, 8, 0, 0, 0, 0, 0]
  const ElevRow8: seq<int> := [0, 0, 0, 0, 15, 16, 16, 16, 17, 43, 43, 43, 43, 43, 24, 16, 16, 16, 17, 0, 0, 0, 0, 0]
  const ElevRow9: seq<int> := [0, 0, 0, 37, 16, 16, 16, 25, 26, 0, 0, 0, 0, 0, 42, 43, 15, 16, 16, 40, 0, 0, 0, 0]
  const ElevRow10: seq<int> := [0, 0, 0, 46, 24, 25, 26, 43, 44, 0, 0, 0, 0, 0, 0, 0, 24, 25, 26, 49, 0, 0, 0, 0]
  const ElevRow11: seq<int> := [0, 0, 0, 0, 43, 43, 44, 0, 0, 0, 0, 0, 0, 0, 0, 0, 42, 43, 44, 0, 0, 0, 0, 0]
  const ElevRow12: seq<int> := [0, 0, 0, 0, 0, 0, 0, 0, 0, 0, 0, 0, 0, 0, 0, 0, 0, 0, 0, 0, 0, 0, 0, 0]
  const ElevRow13: seq<int> := [0, 0, 0, 0, 0, 0, 0, 0, 0, 0, 0, 0, 0, 0, 0, 0, 0, 0, 0, 0, 0, 0, 0, 0]
  const ElevRow14: seq<int> := [0, 0, 0, 0, 0, 0, 0, 0, 0, 0, 0, 0, 0, 0, 0, 0, 0, 0, 0, 0, 0, 0, 0, 0]
  const ElevRow15: seq<int> := [0, 0, 0, 0, 0, 0, 0, 0, 0, 0, 0, 0, 0, 0, 0, 0, 0, 0, 0, 0, 0, 0, 0, 0]

  const DecorLayer: seq<seq<int>> := [
    DecorRow0, DecorRow1, DecorRow2, DecorRow3,
    DecorRow4, DecorRow5, DecorRow6, DecorRow7,
    DecorRow8, DecorRow9, DecorRow10, DecorRow11,
    DecorRow12, DecorRow13, DecorRow14, DecorRow15
  ]
  const DecorRow0: seq<int> := [0, 0, 9, 0, 9, 0, 0, 0, 0, 0, 0, 0, 0, 0, 11, 0, 11, 0, 11, 0, 0, 0, 0, 0]
  const DecorRow1: seq<int> := [0, 0, 0, 0, 0, 0, 0, 25, 0, 0, 0, 0, 0, 0, 0, 12, 0, 12, 0, 12, 0, 0, 0, 0]
  const DecorRow2: seq<int> := [0, 9, 0, 9, 0, 9, 0, 0, 0, 0, 0, 0, 23, 0, 0, 0, 0, 0, 0, 0, 0, 0, 0, 0]
  const DecorRow3: seq<int> := [0, 0, 0, 0, 0, 0, 0, 0, 0, 0, 0, 0, 0, 0, 0, 0, 0, 0, 0, 0, 0, 0, 0, 0]
  const DecorRow4: seq<int> := [0, 0, 0, 0, 0, 0, 0, 0, 0, 0, 0, 0, 0, 0, 0, 0, 26, 4, 0, 0, 0, 0, 0, 0]
  const DecorRow5: seq<int> := [0, 0, 0, 0, 0, 0, 0, 0, 0, 0, 0, 0, 0, 0, 0, 0, 0, 0, 0, 22, 0, 0, 0, 0]
  const DecorRow6: seq<int> := [0, 0, 0, 0, 0, 0, 0, 0, 0, 0, 0, 0, 0, 0, 0, 0, 0, 0, 0, 0, 0, 0, 0, 0]
  const DecorRow7: seq<int> := [0, 0, 0, 0, 0, 0, 0, 0, 0, 0, 0, 0, 0, 0, 0, 0, 0, 0, 0, 0, 0, 0, 0, 0]
  const DecorRow8: seq<int> := [0, 0, 4, 5, 0, 0, 0, 0, 0, 0, 0, 0, 0, 0, 0, 0, 0, 0, 0, 0, 0, 0, 0, 0]
  const DecorRow9: seq<int> := [0, 0, 0, 0, 0, 0, 0, 0, 0, 3, 0, 0, 0, 0, 0, 0, 0, 0, 0, 0, 0, 0, 0, 0]
  const DecorRow10: seq<int> := [0, 0, 0, 0, 0, 0, 0, 0, 0, 0, 0, 0, 15, 0, 0, 0, 0, 0, 0, 0, 0, 0, 0, 0]
  const DecorRow11: seq<int> := [0, 0, 0, 0, 0, 0, 0, 0, 0, 0, 0, 0, 0, 0, 0, 4, 0, 0, 0, 0, 0, 0, 0, 0]
  const DecorRow12: seq<int> := [0, 0, 0, 0, 0, 21, 0, 0, 0, 0, 0, 0, 0, 0, 0, 0, 0, 0, 0, 0, 0, 0, 0, 0]
  const DecorRow13: seq<int> := [0, 0, 0, 0, 0, 0, 0, 0, 0, 0, 0, 16, 0, 0, 0, 0, 0, 0, 0, 3, 0, 7, 0, 0]
  const DecorRow14: seq<int> := [0, 14, 0, 0, 0, 0, 0, 0, 0, 0, 0, 0, 0, 0, 0, 0, 0, 0, 0, 0, 0, 0, 0, 0]
  const DecorRow15: seq<int> := [0, 0, 0, 0, 0, 0, 0, 0, 0, 0, 0, 0, 0, 0, 0, 0, 0, 0, 0, 0, 0, 0, 0, 0]

  /** What a 24 x 16 reader of a layer finds at column `c` of row `r`: `None`
      where the row is shorter, as JavaScript reads `undefined` past an array's end. */
  function CellAt(layer: seq<seq<int>>, r: int, c: int): (v: Option<int>)
    requires 0 <= r < |layer| && 0 <= c
    ensures v.Some? <==> c < |layer[r]|
    ensures v.Some? ==> v.value == layer[r][c]
  {
    if c < |layer[r]| then Some(layer[r][c]) else None
  }

  /** Every layer has the map's 16 rows. */
  lemma LayersHaveMapRows()
    ensures |FoamLayer| == MapRows && |FlatLayer| == MapRows && |ShadowLayer| == MapRows
    ensures |ElevLayer| == MapRows && |DecorLayer| == MapRows
  {
  }

  /** The row widths as written: flat rows 1 and 2 and elevated rows 3 and 4 have
      25 entries, elevated row 1 has only 23, and every other row has 24. */
  lemma RowWidths(r: int)
    requires 0 <= r < MapRows
    ensures |FoamLayer[r]| == MapCols && |ShadowLayer[r]| == MapCols && |DecorLayer[r]| == MapCols
    ensures |FlatLayer[r]| == (if r == 1 || r == 2 then 25 else MapCols)
    ensures |ElevLayer[r]| == (if r == 1 then 23 else if r == 3 || r == 4 then 25 else MapCols)
  {
  }

  /** So the one cell of the 24 x 16 grid that a reader misses in any layer is the
      last cell of elevated row 1. */
  lemma OnlyMissingCell(r: int, c: int)
    requires 0 <= r < MapRows && 0 <= c < MapCols
    ensures CellAt(FoamLayer, r, c).Some? && CellAt(FlatLayer, r, c).Some?
    ensures CellAt(ShadowLayer, r, c).Some? && CellAt(DecorLayer, r, c).Some?
    ensures CellAt(ElevLayer, r, c).None? <==> r == 1 && c == 23
  {
    RowWidths(r);
  }

  /** A row of tile numbers that are all empty or on the 9 x 6 sheet. */
  predicate OnSheet(row: seq<int>)
  {
    forall v :: v in row ==> 0 <= v <= SheetCols * SheetRows
  }

  /** A row of markers: 0 or 1. */
  predicate Markers(row: seq<int>)
  {
    forall v :: v in row ==> 0 <= v <= 1
  }

  /** Every non-zero entry of the flat-ground layer is a tile of the sheet, so
      `TileToColRow` puts it inside the sheet. */
  lemma FlatTilesOnSheet()
    ensures forall row :: row in FlatLayer ==> OnSheet(row)
  {
    FlatRows0To3OnSheet();
    FlatRows4To7OnSheet();
    FlatRows8To11OnSheet();
    FlatRows12To15OnSheet();
  }

  /** The same for the elevated-ground layer. */
  lemma ElevTilesOnSheet()
    ensures forall row :: row in ElevLayer ==> OnSheet(row)
  {
    ElevRows0To3OnSheet();
    ElevRows4To7OnSheet();
    ElevRows8To11OnSheet();
    ElevRows12To15OnSheet();
  }

  /** The foam and shadow layers hold only markers. */
  lemma MarkerLayers()
    ensures forall row :: row in FoamLayer ==> Markers(row)
    ensures forall row :: row in ShadowLayer ==> Markers(row)
  {
    FoamRows0To3Markers();
    FoamRows4To7Markers();
    FoamRows8To11Markers();
    FoamRows12To15Markers();
    ShadowRows0To3Markers();
    ShadowRows4To7Markers();
    ShadowRows8To11Markers();
    ShadowRows12To15Markers();
  }

  lemma FlatRows0To3OnSheet()
    ensures OnSheet(FlatRow0) && OnSheet(FlatRow1) && OnSheet(FlatRow2) && OnSheet(FlatRow3)
  {
  }

  lemma FlatRows4To7OnSheet()
    ensures OnSheet(FlatRow4) && OnSheet(FlatRow5) && OnSheet(FlatRow6) && OnSheet(FlatRow7)
  {
  }

  lemma FlatRows8To11OnSheet()
    ensures OnSheet(FlatRow8) && OnSheet(FlatRow9) && OnSheet(FlatRow10) && OnSheet(FlatRow11)
  {
  }

  lemma FlatRows12To15OnSheet()
    ensures OnSheet(FlatRow12) && OnSheet(FlatRow13) && OnSheet(FlatRow14) && OnSheet(FlatRow15)
  {
  }

  lemma ElevRows0To3OnSheet()
    ensures OnSheet(ElevRow0) && OnSheet(ElevRow1) && OnSheet(ElevRow2) && OnSheet(ElevRow3)
  {
  }

  lemma ElevRows4To7OnSheet()
    ensures OnSheet(ElevRow4) && OnSheet(ElevRow5) && OnSheet(ElevRow6) && OnSheet(ElevRow7)
  {
  }

  lemma ElevRows8To11OnSheet()
    ensures OnSheet(ElevRow8) && OnSheet(ElevRow9) && OnSheet(ElevRow10) && OnSheet(ElevRow11)
  {
  }

  lemma ElevRows12To15OnSheet()
    ensures OnSheet(ElevRow12) && OnSheet(ElevRow13) && OnSheet(ElevRow14) && OnSheet(ElevRow15)
  {
  }

  lemma FoamRows0To3Markers()
    ensures Markers(FoamRow0) && Markers(FoamRow1) && Markers(FoamRow2) && Markers(FoamRow3)
  {
  }

  lemma FoamRows4To7Markers()
    ensures Markers(FoamRow4) && Markers(FoamRow5) && Markers(FoamRow6) && Markers(FoamRow7)
  {
  }

  lemma FoamRows8To11Markers()
    ensures Markers(FoamRow8) && Markers(FoamRow9) && Markers(FoamRow10) && Markers(FoamRow11)
  {
  }

  lemma FoamRows12To15Markers()
    ensures Markers(FoamRow12) && Markers(FoamRow13) && Markers(FoamRow14) && Markers(FoamRow15)
  {
  }

  lemma ShadowRows0To3Markers()
    ensures Markers(ShadowRow0) && Markers(ShadowRow1) && Markers(ShadowRow2) && Markers(ShadowRow3)
  {
  }

  lemma ShadowRows4To7Markers()
    ensures Markers(ShadowRow4) && Markers(ShadowRow5) && Markers(ShadowRow6) && Markers(ShadowRow7)
  {
  }

  lemma ShadowRows8To11Markers()
    ensures Markers(ShadowRow8) && Markers(ShadowRow9) && Markers(ShadowRow10) && Markers(ShadowRow11)
  {
  }

  lemma ShadowRows12To15Markers()
    ensures Markers(ShadowRow12) && Markers(ShadowRow13) && Markers(ShadowRow14) && Markers(ShadowRow15)
  {
  }

  lemma DecorRows0To3DecorIds()
    ensures DecorIds(DecorRow0) && DecorIds(DecorRow1) && DecorIds(DecorRow2) && DecorIds(DecorRow3)
  {
  }

  lemma DecorRows4To7DecorIds()
    ensures DecorIds(DecorRow4) && DecorIds(DecorRow5) && DecorIds(DecorRow6) && DecorIds(DecorRow7)
  {
  }

  lemma DecorRows8To11DecorIds()
    ensures DecorIds(DecorRow8) && DecorIds(DecorRow9) && DecorIds(DecorRow10) && DecorIds(DecorRow11)
  {
  }

  lemma DecorRows12To15DecorIds()
    ensures DecorIds(DecorRow12) && DecorIds(DecorRow13) && DecorIds(DecorRow14) && DecorIds(DecorRow15)
  {
  }

  /** A decoration's sprite: animated sheets hold `frameCount` frames side by side. */
  datatype DecorationConfig = DecorationConfig(
    path: string,
    animated: bool,
    frameWidth: int,
    frameHeight: int,
    frameCount: Option<int>,
    scale: Option<real>,
    flipX: Option<bool>)

  const DecorationConfigs: map<int, DecorationConfig> := map[
    1 := DecorationConfig("tiny_swords/Terrain/Decorations/Bushes/Bushe1.png", true, 128, 128, Some(8), None, None),
    2 := DecorationConfig("tiny_swords/Terrain/Decorations/Bushes/Bushe2.png", true, 128, 128, Some(8), None, None),
    3 := DecorationConfig("tiny_swords/Terrain/Decorations/Bushes/Bushe3.png", true, 128, 128, Some(8), None, None),
    4 := DecorationConfig("tiny_swords/Terrain/Decorations/Bushes/Bushe4.png", true, 128, 128, Some(8), None, None),
    5 := DecorationConfig("tiny_swords/Terrain/Decorations/Rocks/Rock1.png", false, 64, 64, None, None, None),
    6 := DecorationConfig("tiny_swords/Terrain/Decorations/Rocks/Rock2.png", false, 64, 64, None, None, None),
    7 := DecorationConfig("tiny_swords/Terrain/Decorations/Rocks/Rock3.png", false, 64, 64, None, None, None),
    8 := DecorationConfig("tiny_swords/Terrain/Decorations/Rocks/Rock4.png", false, 64, 64, None, None, None),
    9 := DecorationConfig("tiny_swords/Terrain/Resources/Wood/Trees/Tree1.png", true, 192, 256, Some(8), None, None),
    10 := DecorationConfig("tiny_swords/Terrain/Resources/Wood/Trees/Tree2.png", true, 192, 256, Some(8), None, None),
    11 := DecorationConfig("tiny_swords/Terrain/Resources/Wood/Trees/Tree3.png", true, 192, 192, Some(8), None, None),
    12 := DecorationConfig("tiny_swords/Terrain/Resources/Wood/Trees/Tree4.png", true, 192, 192, Some(8), None, None),
    13 := DecorationConfig("tiny_swords/Terrain/Decorations/Rocks in the Water/Water Rocks_01.png", true, 64, 64, Some(16), None, None),
    14 := DecorationConfig("tiny_swords/Terrain/Decorations/Rocks in the Water/Water Rocks_02.png", true, 64, 64, Some(16), None, None),
    15 := DecorationConfig("tiny_swords/Terrain/Decorations/Rocks in the Water/Water Rocks_03.png", true, 64, 64, Some(16), None, None),
    16 := DecorationConfig("tiny_swords/Terrain/Decorations/Rocks in the Water/Water Rocks_04.png", true, 64, 64, Some(16), None, None),
    17 := DecorationConfig("tiny_swords/Terrain/Resources/Gold/Gold Stones/Gold Stone 1_Highlight.png", true, 128, 128, Some(6), None, None),
    18 := DecorationConfig("tiny_swords/Terrain/Resources/Gold/Gold Stones/Gold Stone 2_Highlight.png", true, 128, 128, Some(6), None, None),
    19 := DecorationConfig("tiny_swords/Terrain/Resources/Gold/Gold Stones/Gold Stone 3_Highlight.png", true, 128, 128, Some(6), None, None),
    20 := DecorationConfig("tiny_swords/Terrain/Resources/Gold/Gold Stones/Gold Stone 4_Highlight.png", true, 128, 128, Some(6), None, None),
    21 := DecorationConfig("tiny_swords/Terrain/Resources/Gold/Gold Stones/Gold Stone 5_Highlight.png", true, 128, 128, Some(6), None, None),
    22 := DecorationConfig("tiny_swords/Terrain/Resources/Gold/Gold Stones/Gold Stone 6_Highlight.png", true, 128, 128, Some(6), None, None),
    23 := DecorationConfig("tiny_swords/Buildings/House2.png", false, 128, 192, None, None, Some(true)),
    24 := DecorationConfig("tiny_swords/Terrain/Decorations/Rubber Duck/Rubber duck.png", true, 32, 32, Some(3), None, None),
    25 := DecorationConfig("tiny_swords/Terrain/Resources/Meat/Sheep/Sheep_Grass.png", true, 128, 128, Some(6), None, None),
    26 := DecorationConfig("tiny_swords/Terrain/Resources/Meat/Sheep/Sheep_Grass.png", true, 128, 128, Some(6), None, Some(true))
  ]

  /** A decoration configuration that can be drawn: positive frame sizes, and a
      positive frame count exactly when it is animated. */
  predicate WellFormed(d: DecorationConfig)
  {
    && d.frameWidth > 0 && d.frameHeight > 0
    && (d.animated <==> d.frameCount.Some?)
    && (d.frameCount.Some? ==> d.frameCount.value > 0)
  }

  /** The decoration table covers ids 1 to 26 and every entry is well formed. */
  lemma DecorationConfigsWellFormed()
    ensures forall id :: id in DecorationConfigs <==> 1 <= id <= 26
    ensures forall id :: id in DecorationConfigs ==> WellFormed(DecorationConfigs[id])
  {
  }

  /** A row of decoration ids: 0 for none, or one of the 26 configured ids. */
  predicate DecorIds(row: seq<int>)
  {
    forall v :: v in row ==> 0 <= v <= 26
  }

  /** Every decoration placed on the map has a configuration. */
  lemma DecorationsConfigured()
    ensures forall row, id :: row in DecorLayer && id in row && id != 0 ==> id in DecorationConfigs
  {
    DecorRows0To3DecorIds();
    DecorRows4To7DecorIds();
    DecorRows8To11DecorIds();
    DecorRows12To15DecorIds();
    DecorationConfigsWellFormed();
  }
}
