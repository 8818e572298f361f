/**
 * The auto-tiler's neighbourhood rules: a height map is cut into a boolean mask
 * per level, and each cell's sprite is chosen from its four cardinal neighbours
 * (nine-patch edges and corners), its diagonals (inner-corner overlays) and the
 * cell below it (cliff faces). The sheet has the flat nine-patch in columns 0-2,
 * the flat inner corners in column 3, the elevated surface in columns 4-6 of
 * rows 0-1, and the cliff in columns 4-6 of rows 2-3.
 */
module TileUtils {
  import opened MapData

  /** A cell of the sprite sheet. */
  datatype TilePos = TilePos(col: int, row: int)

  /** `mask[y][x]`: whether the cell at column `x` of row `y` is at or above a level. */
  type Mask = seq<seq<bool>>

  /** One row of `getLevelMask`. */
  function RowMask(cells: seq<int>, level: int): (m: seq<bool>)
    ensures |m| == |cells|
    ensures forall c :: 0 <= c < |cells| ==> (m[c] <==> cells[c] >= level)
  {
    if cells == [] then [] else RowMask(cells[..|cells| - 1], level) + [cells[|cells| - 1] >= level]
  }

  /** `getLevelMask`: the same shape as the height map, true where the height
      reaches `level`. */
  function GetLevelMask(hm: seq<seq<int>>, level: int): (m: Mask)
    ensures |m| == |hm|
    ensures forall r :: 0 <= r < |hm| ==> |m[r]| == |hm[r]|
    ensures forall r, c :: 0 <= r < |hm| && 0 <= c < |hm[r]| ==> (m[r][c] <==> hm[r][c] >= level)
  {
    if hm == [] then [] else GetLevelMask(hm[..|hm| - 1], level) + [RowMask(hm[|hm| - 1], level)]
  }

  /** A raised level is contained in a lower one. */
  lemma LevelMasksNest(hm: seq<seq<int>>, lo: int, hi: int, r: int, c: int)
    requires lo <= hi && 0 <= r < |hm| && 0 <= c < |hm[r]|
    ensures GetLevelMask(hm, hi)[r][c] ==> GetLevelMask(hm, lo)[r][c]
  {
  }

  /** `solid`: false off the 24 x 16 map. A row shorter than the map reads
      `undefined` past its end, which every caller treats as not solid. */
  function Solid(mask: Mask, x: int, y: int): (b: bool)
    requires |mask| >= MapRows
    ensures b <==> 0 <= x < MapCols && 0 <= y < MapRows && x < |mask[y]| && mask[y][x]
  {
    if y < 0 || y >= MapRows || x < 0 || x >= MapCols then false
    else if x < |mask[y]| then mask[y][x]
    else false
  }

  /** The masks of the elevated layer fit `Solid`, and the cell missing from the
      short row 1 reads as not solid at every level. */
  lemma ElevMaskMissingCellNotSolid(level: int)
    ensures |GetLevelMask(ElevLayer, level)| >= MapRows
    ensures !Solid(GetLevelMask(ElevLayer, level), 23, 1)
  {
    LayersHaveMapRows();
    RowWidths(1);
  }

  /** The four cardinal neighbours of a cell. */
  datatype Cardinals = Cardinals(n: bool, s: bool, w: bool, e: bool)

  /** A side is set when the neighbour on that side lies on the map and is set in
      the mask; cells on the map's border have nothing beyond it. */
  function CardinalsAt(mask: Mask, x: int, y: int): (c: Cardinals)
    requires |mask| >= MapRows
    ensures c.n <==> 0 <= x < MapCols && 1 <= y <= MapRows && x < |mask[y - 1]| && mask[y - 1][x]
    ensures c.s <==> 0 <= x < MapCols && -1 <= y < MapRows - 1 && x < |mask[y + 1]| && mask[y + 1][x]
    ensures c.w <==> 1 <= x <= MapCols && 0 <= y < MapRows && x - 1 < |mask[y]| && mask[y][x - 1]
    ensures c.e <==> -1 <= x < MapCols - 1 && 0 <= y < MapRows && x + 1 < |mask[y]| && mask[y][x + 1]
  {
    Cardinals(Solid(mask, x, y - 1), Solid(mask, x, y + 1), Solid(mask, x - 1, y), Solid(mask, x + 1, y))
  }

  /** The nine-patch of the flat ground. */
  const FlatTL := TilePos(0, 0)
  const FlatT := TilePos(1, 0)
  const FlatTR := TilePos(2, 0)
  const FlatL := TilePos(0, 1)
  const FlatC := TilePos(1, 1)
  const FlatR := TilePos(2, 1)
  const FlatBL := TilePos(0, 2)
  const FlatB := TilePos(1, 2)
  const FlatBR := TilePos(2, 2)

  /** The top two rows of the nine-patch of the elevated surface. */
  const ElevTL := TilePos(4, 0)
  const ElevT := TilePos(5, 0)
  const ElevTR := TilePos(6, 0)
  const ElevL := TilePos(4, 1)
  const ElevC := TilePos(5, 1)
  const ElevR := TilePos(6, 1)

  /** The 16-case selector of `pickFlatTile`: the centre for exactly the
      neighbourhoods whose opposite sides agree (none, all, north and south only,
      west and east only), an edge or corner of the nine-patch otherwise. */
  function PickFlat(c: Cardinals): (t: TilePos)
    ensures 0 <= t.col <= 2 && 0 <= t.row <= 2
    ensures t == FlatC <==> (c.n == c.s && c.w == c.e)
  {
    var Cardinals(n, s, w, e) := c;
    if !n && !w && s && e then FlatTL
    else if !n && w && s && !e then FlatTR
    else if n && !w && !s && e then FlatBL
    else if n && w && !s && !e then FlatBR
    else if !n && w && s && e then FlatT
    else if n && w && !s && e then FlatB
    else if n && !w && s && e then FlatL
    else if n && w && s && !e then FlatR
    else if !n && !w && s && !e then FlatTL
    else if !n && !w && !s && e then FlatBL
    else if n && !w && !s && !e then FlatBR
    else if !n && w && !s && !e then FlatTR
    else FlatC
  }

  /** `pickFlatTile` */
  function PickFlatTile(mask: Mask, x: int, y: int): (t: TilePos)
    requires |mask| >= MapRows
    ensures 0 <= t.col <= 2 && 0 <= t.row <= 2
    ensures t == FlatC <==>
      Solid(mask, x, y - 1) == Solid(mask, x, y + 1) && Solid(mask, x - 1, y) == Solid(mask, x + 1, y)
  {
    PickFlat(CardinalsAt(mask, x, y))
  }

  /** Where a pair of opposite neighbours puts a cell within its nine-patch axis:
      at the low border (0) when only the high side is solid, at the high border
      (2) when only the low side is, in the middle (1) otherwise. */
  function Side(low: bool, high: bool): int
  {
    if !low && high then 0 else if low && !high then 2 else 1
  }

  /** The flat selector is the plain nine-patch whenever the cell has a solid
      neighbour on both axes; a cell with a single solid neighbour takes the outer
      corner turned a quarter from it. */
  lemma PickFlatIsNinePatch(c: Cardinals)
    ensures (c.n || c.s) && (c.w || c.e) ==> PickFlat(c) == TilePos(Side(c.w, c.e), Side(c.n, c.s))
    ensures c == Cardinals(false, true, false, false) ==> PickFlat(c) == FlatTL
    ensures c == Cardinals(false, false, false, true) ==> PickFlat(c) == FlatBL
    ensures c == Cardinals(true, false, false, false) ==> PickFlat(c) == FlatBR
    ensures c == Cardinals(false, false, true, false) ==> PickFlat(c) == FlatTR
  {
  }

  /** The 16-case selector of `pickElevTile`. */
  function PickElev(c: Cardinals): (t: TilePos)
    ensures 4 <= t.col <= 6 && 0 <= t.row <= 1
  {
    var Cardinals(n, s, w, e) := c;
    if !n && !w && s && e then ElevTL
    else if !n && w && s && !e then ElevTR
    else if n && !w && !s && e then ElevTL
    else if n && w && !s && !e then ElevTR
    else if !n && w && s && e then ElevT
    else if n && w && !s && e then ElevC
    else if n && !w && s && e then ElevL
    else if n && w && s && !e then ElevR
    else if !n && !w && s && !e then ElevTL
    else if !n && !w && !s && e then ElevTL
    else if n && !w && !s && !e then ElevTR
    else if !n && w && !s && !e then ElevTR
    else ElevC
  }

  /** `pickElevTile` */
  function PickElevTile(mask: Mask, x: int, y: int): (t: TilePos)
    requires |mask| >= MapRows
    ensures 4 <= t.col <= 6 && 0 <= t.row <= 1
    ensures t.col == PickFlatTile(mask, x, y).col + 4
  {
    PickElevFoldsFlat(CardinalsAt(mask, x, y));
    PickElev(CardinalsAt(mask, x, y))
  }

  /** The elevated selector is the flat one moved four columns right and folded
      onto two rows: the bottom corners become the top corners and the bottom edge
      becomes the centre. */
  lemma PickElevFoldsFlat(c: Cardinals)
    ensures PickElev(c).col == PickFlat(c).col + 4
    ensures PickFlat(c).row < 2 ==> PickElev(c).row == PickFlat(c).row
    ensures PickFlat(c).row == 2 ==> PickElev(c).row == (if PickFlat(c).col == 1 then 1 else 0)
  {
  }

  /** The diagonal neighbours, in the order `getInnerCorners` tries them. */
  datatype InnerCorner = NW | NE | SW | SE

  function Rank(k: InnerCorner): int
  {
    match k
    case NW => 0
    case NE => 1
    case SW => 2
    case SE => 3
  }

  /** The diagonal neighbour of `(x, y)` named by `k`. */
  function DiagonalX(k: InnerCorner, x: int): int
  {
    if k == NW || k == SW then x - 1 else x + 1
  }

  function DiagonalY(k: InnerCorner, y: int): int
  {
    if k == NW || k == NE then y - 1 else y + 1
  }

  /** `getInnerCorners`: nothing unless all four cardinals are solid; then exactly
      the diagonals that are not, in the order NW, NE, SW, SE. */
  function GetInnerCorners(mask: Mask, x: int, y: int): (corners: seq<InnerCorner>)
    requires |mask| >= MapRows
    ensures var c := CardinalsAt(mask, x, y);
      !(c.n && c.s && c.w && c.e) ==> corners == []
    ensures var c := CardinalsAt(mask, x, y);
      c.n && c.s && c.w && c.e ==>
        forall k :: k in corners <==> !Solid(mask, DiagonalX(k, x), DiagonalY(k, y))
    ensures forall i, j :: 0 <= i < j < |corners| ==> Rank(corners[i]) < Rank(corners[j])
  {
    var c := CardinalsAt(mask, x, y);
    if !c.n || !c.s || !c.w || !c.e then []
    else
      (if !Solid(mask, x - 1, y - 1) then [NW] else [])
      + (if !Solid(mask, x + 1, y - 1) then [NE] else [])
      + (if !Solid(mask, x - 1, y + 1) then [SW] else [])
      + (if !Solid(mask, x + 1, y + 1) then [SE] else [])
  }

  /** `getInnerCornerTile`: tile 13 carries the NW and SE bushes, tile 14 the NE and
      SW ones. */
  function GetInnerCornerTile(k: InnerCorner): (t: TilePos)
    ensures t.col == 3
    ensures t.row == 0 <==> k == NW || k == SE
    ensures t.row == 1 <==> k == NE || k == SW
  {
    match k
    case NW => TilePos(3, 0)
    case SE => TilePos(3, 0)
    case NE => TilePos(3, 1)
    case SW => TilePos(3, 1)
  }

  /** Two corners share an overlay tile exactly when they are the same corner or
      diagonally opposite ones. */
  lemma OppositeCornersShareTile(k: InnerCorner, l: InnerCorner)
    ensures GetInnerCornerTile(k) == GetInnerCornerTile(l) <==>
      k == l || (DiagonalX(k, 0) == -DiagonalX(l, 0) && DiagonalY(k, 0) == -DiagonalY(l, 0))
  {
  }

  /** A cliff sprite and the map cell it is drawn in. */
  datatype CliffPlacement = CliffPlacement(col: int, row: int, gridX: int, gridY: int)

  /** The cliff column for a cell: the left edge wins over the right edge, and the
      centre is used when both neighbours are solid. */
  function CliffColumn(mask: Mask, x: int, y: int): (col: int)
    requires |mask| >= MapRows
    ensures col == 4 <==> !Solid(mask, x - 1, y)
    ensures col == 6 <==> Solid(mask, x - 1, y) && !Solid(mask, x + 1, y)
    ensures col == 5 <==> Solid(mask, x - 1, y) && Solid(mask, x + 1, y)
  {
    if !Solid(mask, x - 1, y) then 4 else if !Solid(mask, x + 1, y) then 6 else 5
  }

  /** `getCliffPlacements`: nothing when the cell below is solid; otherwise the
      cliff top (sheet row 2) just below and the cliff face (sheet row 3) under
      that, in the same column. */
  function GetCliffPlacements(mask: Mask, x: int, y: int): (ps: seq<CliffPlacement>)
    requires |mask| >= MapRows
    ensures Solid(mask, x, y + 1) ==> ps == []
    ensures !Solid(mask, x, y + 1) ==>
      && |ps| == 2
      && ps[0] == CliffPlacement(CliffColumn(mask, x, y), 2, x, y + 1)
      && ps[1] == CliffPlacement(CliffColumn(mask, x, y), 3, x, y + 2)
  {
    if Solid(mask, x, y + 1) then []
    else
      var isLeftEdge := !Solid(mask, x - 1, y);
      var isRightEdge := !Solid(mask, x + 1, y);
      var topCol := if isLeftEdge then 4 else if isRightEdge then 6 else 5;
      var botCol := if isLeftEdge then 4 else if isRightEdge then 6 else 5;
      [CliffPlacement(topCol, 2, x, y + 1), CliffPlacement(botCol, 3, x, y + 2)]
  }

  /** Every cliff sprite lies in the cliff block of the sheet and in the two map
      cells right under the cell. */
  lemma CliffPlacementsInCliffBlock(mask: Mask, x: int, y: int)
    requires |mask| >= MapRows
    ensures forall p :: p in GetCliffPlacements(mask, x, y) ==>
      4 <= p.col <= 6 && 2 <= p.row <= 3 && p.gridX == x && p.gridY == y + p.row - 1
  {
  }
}
