/** Mosaics (src/mosaic.rs): rectangular grids of rotated tiles, addressed
    by column `x` (left to right) and row `y` (top to bottom). A mosaic is
    either stored (`ArrayMosaic`, `PackedArrayMosaic`) or a zero-copy view
    of another mosaic turned by a rotation (`RotatedSquareMosaic`,
    `RotatedRectangularMosaic`). The source's compile-time sizes `W` and `H`
    (and `N` for squares) are the parameters `w` and `h` here. */
module Mosaics {
  import opened Sides
  import opened Catalog
  import opened Tiles
  import opened Edges
  import R = Rectangular

  /** `PackedQuadRotatedTile`: the four cells of a 2x2 block, in slot order
      (0,0), (1,0), (0,1), (1,1). */
  datatype PackedQuad = PackedQuad(tiles: seq<Tile>, rotations: seq<Rotation>)

  datatype Mosaic =
    | ArrayMosaic(tiles: seq<seq<RotatedTile>>)
    | PackedArrayMosaic(quads: seq<seq<PackedQuad>>)
    | RotatedSquareMosaic(mosaic: Mosaic, rotation: Rotation)
    | RotatedRectangularMosaic(mosaic: Mosaic, rectangularRotation: R.RectangularRotation)

  /** A cell position. */
  datatype Position = Position(x: int, y: int)

  predicate InBounds(p: Position, w: int, h: int)
  {
    0 <= p.x < w && 0 <= p.y < h
  }

  /** The quads cover a `w` by `h` mosaic and each holds four cells. */
  predicate QuadsCover(quads: seq<seq<PackedQuad>>, w: int, h: int)
  {
    h <= 2 * |quads| &&
    forall qy :: 0 <= qy < |quads| ==>
      w <= 2 * |quads[qy]| &&
      forall qx :: 0 <= qx < |quads[qy]| ==> |quads[qy][qx].tiles| == 4 && |quads[qy][qx].rotations| == 4
  }

  /** `m` is a `w` by `h` mosaic: the storage has that shape, and a square
      view is only ever put on a square mosaic. */
  predicate Shape(m: Mosaic, w: int, h: int)
    decreases m
  {
    1 <= w && 1 <= h &&
    match m
    case ArrayMosaic(tiles) => |tiles| == h && forall y :: 0 <= y < h ==> |tiles[y]| == w
    case PackedArrayMosaic(quads) => QuadsCover(quads, w, h)
    case RotatedSquareMosaic(b, _) => w == h && Shape(b, w, h)
    case RotatedRectangularMosaic(b, _) => Shape(b, w, h)
  }

  /** The backing cell a `RotatedSquareMosaic` of side `n` and rotation `r`
      reads for its own cell `p`. */
  function SquareViewSource(n: int, r: Rotation, p: Position): (q: Position)
    ensures InBounds(p, n, n) ==> InBounds(q, n, n)
  {
    match r
    case Identity => p
    case QuarterTurnLeft => Position(n - 1 - p.y, p.x)
    case HalfTurn => Position(n - 1 - p.x, n - 1 - p.y)
    case QuarterTurnRight => Position(p.y, n - 1 - p.x)
  }

  /** The backing cell a `RotatedRectangularMosaic` reads for its cell `p`. */
  function RectangularViewSource(w: int, h: int, r: R.RectangularRotation, p: Position): (q: Position)
    ensures InBounds(p, w, h) ==> InBounds(q, w, h)
  {
    match r
    case Identity => p
    case HalfTurn => Position(w - 1 - p.x, h - 1 - p.y)
  }

  /** `PackedArrayMosaic::get`: quad `[y / 2][x / 2]`, slot
      `2 * (y % 2) + x % 2`. */
  function PackedGet(quads: seq<seq<PackedQuad>>, w: int, h: int, p: Position): RotatedTile
    requires QuadsCover(quads, w, h) && InBounds(p, w, h)
  {
    var quad := quads[p.y / 2][p.x / 2];
    var index := 2 * (p.y % 2) + p.x % 2;
    RotatedTile(quad.tiles[index], quad.rotations[index])
  }

  /** `get(x, y)` of every kind of mosaic. A view reads its backing cell
      and adds its own rotation to the cell's (a rectangular rotation after
      `to_square`). */
  function Get(m: Mosaic, w: int, h: int, p: Position): RotatedTile
    requires Shape(m, w, h) && InBounds(p, w, h)
    decreases m
  {
    match m
    case ArrayMosaic(tiles) => tiles[p.y][p.x]
    case PackedArrayMosaic(quads) => PackedGet(quads, w, h, p)
    case RotatedSquareMosaic(b, r) => AddRotation(Get(b, w, h, SquareViewSource(w, r, p)), r)
    case RotatedRectangularMosaic(b, r) =>
      AddRotation(Get(b, w, h, RectangularViewSource(w, h, r, p)), R.RectangularToSquare(r))
  }

  /** Two mosaics of the same size hold the same rotated tile in every
      cell. */
  predicate SameCells(a: Mosaic, b: Mosaic, w: int, h: int)
    requires Shape(a, w, h) && Shape(b, w, h)
  {
    forall x, y :: 0 <= x < w && 0 <= y < h ==> Get(a, w, h, Position(x, y)) == Get(b, w, h, Position(x, y))
  }

  /** The cells of a mosaic as rows, top to bottom. */
  function Cells(m: Mosaic, w: int, h: int): (g: seq<seq<RotatedTile>>)
    requires Shape(m, w, h)
    ensures |g| == h && forall y :: 0 <= y < h ==> |g[y]| == w
  {
    seq(h, y requires 0 <= y < h => seq(w, x requires 0 <= x < w => Get(m, w, h, Position(x, y))))
  }

  /* ---------------------------------------------------------------- Edges */

  /** The number of cells along side `s`. */
  function EdgeLength(w: int, h: int, s: Side): int
  {
    match s
    case Right => h
    case Left => h
    case Top => w
    case Bottom => w
  }

  /** The `i`-th cell along side `s`, in the side's reading direction: the
      right side top to bottom, the top side left to right, the left side
      bottom to top and the bottom side right to left, that is
      clockwise around the mosaic. */
  function EdgeCell(w: int, h: int, s: Side, i: int): (p: Position)
    ensures 1 <= w && 1 <= h && 0 <= i < EdgeLength(w, h, s) ==> InBounds(p, w, h)
  {
    match s
    case Right => Position(w - 1, i)
    case Top => Position(i, 0)
    case Left => Position(0, h - 1 - i)
    case Bottom => Position(w - 1 - i, h - 1)
  }

  /** The colours along side `s` of `m`, each read from the cell's side
      `s`. */
  function SideEdge(m: Mosaic, w: int, h: int, s: Side): (e: Edge)
    requires Shape(m, w, h)
    ensures |e| == EdgeLength(w, h, s)
  {
    seq(EdgeLength(w, h, s), i requires 0 <= i < EdgeLength(w, h, s) => EdgeColor(m, w, h, s, i))
  }

  /** The colour of the `i`-th cell along side `s`, read from that side. */
  function EdgeColor(m: Mosaic, w: int, h: int, s: Side, i: int): Color
    requires Shape(m, w, h) && 0 <= i < EdgeLength(w, h, s)
  {
    RotatedColor(Get(m, w, h, EdgeCell(w, h, s, i)), s)
  }

  /** `RectangularMosaic::vertical_edge`: starting from the default edge,
      the right column's right colours top to bottom, or the left column's
      left colours bottom to top. */
  method VerticalEdge(m: Mosaic, w: int, h: int, side: R.VerticalSide) returns (edge: Edge)
    requires Shape(m, w, h)
    ensures edge == SideEdge(m, w, h, R.VerticalToSquare(side))
  {
    edge := DefaultEdge(h);
    match side {
      case Right =>
        for y := 0 to h
          invariant |edge| == h
          invariant forall i :: 0 <= i < y ==> edge[i] == EdgeColor(m, w, h, Side.Right, i)
        {
          assert EdgeCell(w, h, Side.Right, y) == Position(w - 1, y);
          edge := edge[y := RotatedColor(Get(m, w, h, Position(w - 1, y)), Side.Right)];
        }
      case Left =>
        for y := 0 to h
          invariant |edge| == h
          invariant forall i :: 0 <= i < y ==> edge[i] == EdgeColor(m, w, h, Side.Left, i)
        {
          assert EdgeCell(w, h, Side.Left, y) == Position(0, h - 1 - y);
          edge := edge[y := RotatedColor(Get(m, w, h, Position(0, h - 1 - y)), Side.Left)];
        }
    }
  }

  /** `RectangularMosaic::horizontal_edge`: the bottom row's bottom colours
      right to left, or the top row's top colours left to right. */
  method HorizontalEdge(m: Mosaic, w: int, h: int, side: R.HorizontalSide) returns (edge: Edge)
    requires Shape(m, w, h)
    ensures edge == SideEdge(m, w, h, R.HorizontalToSquare(side))
  {
    edge := DefaultEdge(w);
    match side {
      case Bottom =>
        for x := 0 to w
          invariant |edge| == w
          invariant forall i :: 0 <= i < x ==> edge[i] == EdgeColor(m, w, h, Side.Bottom, i)
        {
          assert EdgeCell(w, h, Side.Bottom, x) == Position(w - 1 - x, h - 1);
          edge := edge[x := RotatedColor(Get(m, w, h, Position(w - 1 - x, h - 1)), Side.Bottom)];
        }
      case Top =>
        for x := 0 to w
          invariant |edge| == w
          invariant forall i :: 0 <= i < x ==> edge[i] == EdgeColor(m, w, h, Side.Top, i)
        {
          assert EdgeCell(w, h, Side.Top, x) == Position(x, 0);
          edge := edge[x := RotatedColor(Get(m, w, h, Position(x, 0)), Side.Top)];
        }
    }
  }

  /** `SquareMosaic::edge`: a side is dispatched through `to_rectangular` to
      the vertical or horizontal edge, which is the side's edge. */
  method SquareEdge(m: Mosaic, n: int, side: Side) returns (edge: Edge)
    requires Shape(m, n, n)
    ensures edge == SideEdge(m, n, n, side)
  {
    match R.ToRectangular(side) {
      case Vertical(v) =>
        edge := VerticalEdge(m, n, n, v);
      case Horizontal(hs) =>
        edge := HorizontalEdge(m, n, n, hs);
    }
  }

  /* ---------------------------------------------------------- Rotations */

  /** `with_square_rotation`: a square view keeps its backing mosaic and
      adds the rotation; any other mosaic is wrapped in a new view. */
  function WithSquareRotation(m: Mosaic, r: Rotation): Mosaic
  {
    match m
    case RotatedSquareMosaic(b, q) => RotatedSquareMosaic(b, Add(q, r))
    case _ => RotatedSquareMosaic(m, r)
  }

  /** `with_rectangular_rotation`: a view keeps its backing mosaic and adds
      the rotation (a square view after `to_square`); a stored mosaic is
      wrapped in a new rectangular view. */
  function WithRectangularRotation(m: Mosaic, r: R.RectangularRotation): Mosaic
  {
    match m
    case RotatedRectangularMosaic(b, q) => RotatedRectangularMosaic(b, R.AddRectangular(q, r))
    case RotatedSquareMosaic(b, q) => RotatedSquareMosaic(b, Add(q, R.RectangularToSquare(r)))
    case _ => RotatedRectangularMosaic(m, r)
  }

  /* --------------------------------------------------------------- Copies */

  /** `to_array_mosaic`: a grid of ZERO tiles into which every `get(x, y)`
      is copied at `[y][x]`. */
  method ToArrayMosaic(m: Mosaic, w: int, h: int) returns (result: Mosaic)
    requires Shape(m, w, h)
    ensures result.ArrayMosaic? && Shape(result, w, h) && SameCells(result, m, w, h)
    ensures m.ArrayMosaic? ==> result == m
  {
    var tiles := seq(h, _ => seq(w, _ => ZERO));
    for y := 0 to h
      invariant |tiles| == h && forall j :: 0 <= j < h ==> |tiles[j]| == w
      invariant forall j, i :: 0 <= j < y && 0 <= i < w ==> tiles[j][i] == Get(m, w, h, Position(i, j))
    {
      for x := 0 to w
        invariant |tiles| == h && forall j :: 0 <= j < h ==> |tiles[j]| == w
        invariant forall j, i :: 0 <= j < y && 0 <= i < w ==> tiles[j][i] == Get(m, w, h, Position(i, j))
        invariant forall i :: 0 <= i < x ==> tiles[y][i] == Get(m, w, h, Position(i, y))
      {
        tiles := tiles[y := tiles[y][x := Get(m, w, h, Position(x, y))]];
      }
    }
    result := ArrayMosaic(tiles);
    if m.ArrayMosaic? {
      assert forall j :: 0 <= j < h ==> tiles[j] == m.tiles[j];
    }
  }

  /* ------------------------------------------------------ Packed storage */

  /** A cell of the grid, or ZERO past its edge. */
  function PackCell(g: seq<seq<RotatedTile>>, w: int, h: int, x: int, y: int): RotatedTile
    requires |g| == h && forall j :: 0 <= j < h ==> |g[j]| == w
  {
    if 0 <= x < w && 0 <= y < h then g[y][x] else ZERO
  }

  /** The 2x2 block of the grid whose top left cell is (2 qx, 2 qy), in slot
      order. */
  function PackQuad(g: seq<seq<RotatedTile>>, w: int, h: int, qx: int, qy: int): (q: PackedQuad)
    requires |g| == h && forall j :: 0 <= j < h ==> |g[j]| == w
    ensures |q.tiles| == 4 && |q.rotations| == 4
  {
    var cells := [PackCell(g, w, h, 2 * qx, 2 * qy), PackCell(g, w, h, 2 * qx + 1, 2 * qy),
                  PackCell(g, w, h, 2 * qx, 2 * qy + 1), PackCell(g, w, h, 2 * qx + 1, 2 * qy + 1)];
    PackedQuad([cells[0].tile, cells[1].tile, cells[2].tile, cells[3].tile],
               [cells[0].rotation, cells[1].rotation, cells[2].rotation, cells[3].rotation])
  }

  /** A reference packing of a `w` by `h` grid into ceil(h / 2) rows of
      ceil(w / 2) quads. */
  function Pack(g: seq<seq<RotatedTile>>, w: int, h: int): seq<seq<PackedQuad>>
    requires 1 <= w && 1 <= h && |g| == h && forall j :: 0 <= j < h ==> |g[j]| == w
  {
    seq((h + 1) / 2, qy requires 0 <= qy < (h + 1) / 2 =>
      seq((w + 1) / 2, qx requires 0 <= qx < (w + 1) / 2 => PackQuad(g, w, h, qx, qy)))
  }

  /** `PackedArrayMosaic::get` reads back every cell of a packed grid: quad
      `[y / 2][x / 2]` at slot `2 * (y % 2) + x % 2` holds cell (x, y). */
  lemma PackedGetUnpacks(g: seq<seq<RotatedTile>>, w: int, h: int, x: int, y: int)
    requires 1 <= w && 1 <= h && |g| == h && forall j :: 0 <= j < h ==> |g[j]| == w
    requires 0 <= x < w && 0 <= y < h
    ensures Shape(PackedArrayMosaic(Pack(g, w, h)), w, h)
    ensures Get(PackedArrayMosaic(Pack(g, w, h)), w, h, Position(x, y)) == g[y][x]
  {
    var quads := Pack(g, w, h);
    assert QuadsCover(quads, w, h);
    var qx, qy := x / 2, y / 2;
    assert x == 2 * qx + x % 2 && y == 2 * qy + y % 2;
  }

  /* ---------------------------------------------------------- Comparison */

  /** `std::cmp::Ordering`. */
  datatype Ordering = Less | Equal | Greater

  function Flip(o: Ordering): Ordering
  {
    match o
    case Less => Greater
    case Equal => Equal
    case Greater => Less
  }

  /** The derived order of `RotatedTile` as a three-way comparison. */
  function CompareRotatedTiles(a: RotatedTile, b: RotatedTile): Ordering
  {
    if a == b then Equal else if RotatedTileLe(a, b) then Less else Greater
  }

  /** Lexicographic comparison of two rows of the same length. */
  function CompareRows(s: seq<RotatedTile>, t: seq<RotatedTile>): Ordering
    requires |s| == |t|
  {
    if |s| == 0 then Equal
    else if s[0] != t[0] then CompareRotatedTiles(s[0], t[0])
    else CompareRows(s[1..], t[1..])
  }

  predicate SameShape(g: seq<seq<RotatedTile>>, k: seq<seq<RotatedTile>>)
  {
    |g| == |k| && forall y :: 0 <= y < |g| ==> |g[y]| == |k[y]|
  }

  /** Lexicographic comparison of two grids row by row, that is of their
      cells in row-major order. */
  function CompareGrids(g: seq<seq<RotatedTile>>, k: seq<seq<RotatedTile>>): Ordering
    requires SameShape(g, k)
  {
    if |g| == 0 then Equal
    else if g[0] != k[0] then CompareRows(g[0], k[0])
    else CompareGrids(g[1..], k[1..])
  }

  /** The comparison of two rows is decided by their first difference. */
  lemma {:induction false} CompareRowsAt(s: seq<RotatedTile>, t: seq<RotatedTile>, i: int)
    requires |s| == |t| && 0 <= i < |s| && s[..i] == t[..i] && s[i] != t[i]
    ensures CompareRows(s, t) == CompareRotatedTiles(s[i], t[i])
    decreases i
  {
    if i > 0 {
      assert s[0] == s[..i][0] && t[0] == t[..i][0];
      assert s[1..][..i - 1] == s[..i][1..] && t[1..][..i - 1] == t[..i][1..];
      CompareRowsAt(s[1..], t[1..], i - 1);
    }
  }

  /** The comparison of two grids is decided by their first differing
      row. */
  lemma {:induction false} CompareGridsAt(g: seq<seq<RotatedTile>>, k: seq<seq<RotatedTile>>, y: int)
    requires SameShape(g, k) && 0 <= y < |g| && g[..y] == k[..y] && g[y] != k[y]
    ensures CompareGrids(g, k) == CompareRows(g[y], k[y])
    decreases y
  {
    if y > 0 {
      assert g[0] == g[..y][0] && k[0] == k[..y][0];
      assert g[1..][..y - 1] == g[..y][1..] && k[1..][..y - 1] == k[..y][1..];
      CompareGridsAt(g[1..], k[1..], y - 1);
    }
  }

  /** Row comparison is Equal exactly on equal rows, and swapping the rows
      flips it. */
  lemma {:induction false} CompareRowsIsOrder(s: seq<RotatedTile>, t: seq<RotatedTile>)
    requires |s| == |t|
    ensures CompareRows(s, t) == Equal <==> s == t
    ensures CompareRows(t, s) == Flip(CompareRows(s, t))
    decreases |s|
  {
    if |s| > 0 {
      if s[0] != t[0] {
        RotatedTileOrder(s[0], t[0], s[0]);
      } else {
        CompareRowsIsOrder(s[1..], t[1..]);
        assert s == [s[0]] + s[1..] && t == [t[0]] + t[1..];
      }
    }
  }

  /** Grid comparison is Equal exactly on equal grids, and swapping the
      grids flips it. */
  lemma {:induction false} CompareGridsIsOrder(g: seq<seq<RotatedTile>>, k: seq<seq<RotatedTile>>)
    requires SameShape(g, k)
    ensures CompareGrids(g, k) == Equal <==> g == k
    ensures CompareGrids(k, g) == Flip(CompareGrids(g, k))
    decreases |g|
  {
    if |g| > 0 {
      CompareRowsIsOrder(g[0], k[0]);
      if g[0] == k[0] {
        assert SameShape(g[1..], k[1..]);
        CompareGridsIsOrder(g[1..], k[1..]);
        assert g == [g[0]] + g[1..] && k == [k[0]] + k[1..];
      }
    }
  }

  /** Two mosaics have equal cell grids exactly when they have the same
      cells. */
  lemma CellsEqualIffSameCells(a: Mosaic, b: Mosaic, w: int, h: int)
    requires Shape(a, w, h) && Shape(b, w, h)
    ensures Cells(a, w, h) == Cells(b, w, h) <==> SameCells(a, b, w, h)
  {
    if SameCells(a, b, w, h) {
      assert forall y :: 0 <= y < h ==> Cells(a, w, h)[y] == Cells(b, w, h)[y];
    }
    if Cells(a, w, h) == Cells(b, w, h) {
      forall x, y | 0 <= x < w && 0 <= y < h
        ensures Get(a, w, h, Position(x, y)) == Get(b, w, h, Position(x, y))
      {
        assert Cells(a, w, h)[y][x] == Cells(b, w, h)[y][x];
      }
    }
  }

  /** `PartialEq` of the rotated views: compares `get(x, y)` row by row and
      stops at the first difference. */
  method Eq(a: Mosaic, b: Mosaic, w: int, h: int) returns (result: bool)
    requires Shape(a, w, h) && Shape(b, w, h)
    ensures result <==> SameCells(a, b, w, h)
  {
    for y := 0 to h
      invariant forall j, i :: 0 <= j < y && 0 <= i < w ==> Get(a, w, h, Position(i, j)) == Get(b, w, h, Position(i, j))
    {
      for x := 0 to w
        invariant forall j, i :: 0 <= j < y && 0 <= i < w ==> Get(a, w, h, Position(i, j)) == Get(b, w, h, Position(i, j))
        invariant forall i :: 0 <= i < x ==> Get(a, w, h, Position(i, y)) == Get(b, w, h, Position(i, y))
      {
        if Get(a, w, h, Position(x, y)) != Get(b, w, h, Position(x, y)) {
          return false;
        }
      }
    }
    return true;
  }

  /** `Ord` of the rotated views: the comparison of the first cell, in
      row-major order, at which the two differ. */
  method Cmp(a: Mosaic, b: Mosaic, w: int, h: int) returns (result: Ordering)
    requires Shape(a, w, h) && Shape(b, w, h)
    ensures result == CompareGrids(Cells(a, w, h), Cells(b, w, h))
  {
    ghost var ga, gb := Cells(a, w, h), Cells(b, w, h);
    for y := 0 to h
      invariant ga[..y] == gb[..y]
    {
      for x := 0 to w
        invariant ga[y][..x] == gb[y][..x]
      {
        var o := CompareRotatedTiles(Get(a, w, h, Position(x, y)), Get(b, w, h, Position(x, y)));
        if o != Equal {
          assert ga[y][x] != gb[y][x];
          CompareRowsAt(ga[y], gb[y], x);
          CompareGridsAt(ga, gb, y);
          return o;
        }
        assert ga[y][..x + 1] == ga[y][..x] + [ga[y][x]];
        assert gb[y][..x + 1] == gb[y][..x] + [gb[y][x]];
      }
      assert ga[y] == ga[y][..w] && gb[y] == gb[y][..w];
      assert ga[..y + 1] == ga[..y] + [ga[y]] && gb[..y + 1] == gb[..y] + [gb[y]];
    }
    assert ga == ga[..h] && gb == gb[..h];
    CompareGridsIsOrder(ga, gb);
    return Equal;
  }

  /* --------------------------------------------------------------- Lemmas */

  /** The edge cells of the view `RotatedSquareMosaic(m, r)` on side
      `transform(s, r)` are read from the edge cells of `m` on side `s`, in
      the same order. */
  lemma SquareViewEdgeCell(n: int, r: Rotation, s: Side, i: int)
    ensures EdgeLength(n, n, Transform(s, r)) == EdgeLength(n, n, s)
    ensures SquareViewSource(n, r, EdgeCell(n, n, Transform(s, r), i)) == EdgeCell(n, n, s, i)
  {
  }

  /** A rotated square view shows on side `transform(s, r)` exactly the
      edge its backing mosaic shows on side `s`. */
  lemma {:induction false} SquareViewEdge(m: Mosaic, n: int, r: Rotation, s: Side)
    requires Shape(m, n, n)
    ensures SideEdge(RotatedSquareMosaic(m, r), n, n, Transform(s, r)) == SideEdge(m, n, n, s)
  {
    var view := RotatedSquareMosaic(m, r);
    SquareViewEdgeCell(n, r, s, 0);
    forall i | 0 <= i < n
      ensures SideEdge(view, n, n, Transform(s, r))[i] == SideEdge(m, n, n, s)[i]
    {
      SquareViewEdgeCell(n, r, s, i);
      RotatedColorCommutes(Get(m, n, n, EdgeCell(n, n, s, i)), r, s);
    }
  }

  /** The edge cells of a half-turned rectangular view on side
      `transform(s, to_square(r))` are read from the edge cells of the
      backing mosaic on side `s`. */
  lemma RectangularViewEdgeCell(w: int, h: int, r: R.RectangularRotation, s: Side, i: int)
    ensures EdgeLength(w, h, Transform(s, R.RectangularToSquare(r))) == EdgeLength(w, h, s)
    ensures RectangularViewSource(w, h, r, EdgeCell(w, h, Transform(s, R.RectangularToSquare(r)), i))
      == EdgeCell(w, h, s, i)
  {
  }

  /** A rotated rectangular view shows on side `transform(s, to_square(r))`
      exactly the edge its backing mosaic shows on side `s`: a half turn
      swaps the right and left edges and the top and bottom edges. */
  lemma {:induction false} RectangularViewEdge(m: Mosaic, w: int, h: int, r: R.RectangularRotation, s: Side)
    requires Shape(m, w, h)
    ensures SideEdge(RotatedRectangularMosaic(m, r), w, h, Transform(s, R.RectangularToSquare(r)))
      == SideEdge(m, w, h, s)
  {
    var view := RotatedRectangularMosaic(m, r);
    var q := R.RectangularToSquare(r);
    RectangularViewEdgeCell(w, h, r, s, 0);
    forall i | 0 <= i < EdgeLength(w, h, s)
      ensures SideEdge(view, w, h, Transform(s, q))[i] == SideEdge(m, w, h, s)[i]
    {
      RectangularViewEdgeCell(w, h, r, s, i);
      RotatedColorCommutes(Get(m, w, h, EdgeCell(w, h, s, i)), q, s);
    }
  }

  /** The same cells make the same edges. */
  lemma SameCellsSameEdges(a: Mosaic, b: Mosaic, w: int, h: int, s: Side)
    requires Shape(a, w, h) && Shape(b, w, h) && SameCells(a, b, w, h)
    ensures SideEdge(a, w, h, s) == SideEdge(b, w, h, s)
  {
    forall i | 0 <= i < EdgeLength(w, h, s)
      ensures SideEdge(a, w, h, s)[i] == SideEdge(b, w, h, s)[i]
    {
      var p := EdgeCell(w, h, s, i);
      assert Get(a, w, h, Position(p.x, p.y)) == Get(b, w, h, Position(p.x, p.y));
    }
  }

  /** Reading through two square views is reading through one view whose
      rotation is the sum. */
  lemma SquareViewSourceCompose(n: int, a: Rotation, b: Rotation, p: Position)
    ensures SquareViewSource(n, a, SquareViewSource(n, b, p)) == SquareViewSource(n, Add(a, b), p)
  {
  }

  /** A square view of a square view has the cells of one view rotated by
      the sum of the two rotations. */
  lemma {:induction false} SquareViewCompose(m: Mosaic, n: int, a: Rotation, b: Rotation)
    requires Shape(m, n, n)
    ensures Shape(RotatedSquareMosaic(RotatedSquareMosaic(m, a), b), n, n)
    ensures SameCells(RotatedSquareMosaic(RotatedSquareMosaic(m, a), b), RotatedSquareMosaic(m, Add(a, b)), n, n)
  {
    forall x, y | 0 <= x < n && 0 <= y < n
      ensures Get(RotatedSquareMosaic(RotatedSquareMosaic(m, a), b), n, n, Position(x, y))
        == Get(RotatedSquareMosaic(m, Add(a, b)), n, n, Position(x, y))
    {
      var p := Position(x, y);
      SquareViewSourceCompose(n, a, b, p);
      var cell := Get(m, n, n, SquareViewSource(n, Add(a, b), p));
      RotationGroup(cell.rotation, a, b);
    }
  }

  /** `with_square_rotation(r)` has the cells of the view of the mosaic
      turned by `r`, whatever kind of mosaic it is called on. */
  lemma {:induction false} WithSquareRotationIsView(m: Mosaic, n: int, r: Rotation)
    requires Shape(m, n, n)
    ensures Shape(WithSquareRotation(m, r), n, n)
    ensures SameCells(WithSquareRotation(m, r), RotatedSquareMosaic(m, r), n, n)
  {
    if m.RotatedSquareMosaic? {
      SquareViewCompose(m.mosaic, n, m.rotation, r);
    }
  }

  /** `with_rectangular_rotation(r)` has the cells of the rectangular view
      of the mosaic turned by `r`. */
  lemma {:induction false} WithRectangularRotationIsView(m: Mosaic, w: int, h: int, r: R.RectangularRotation)
    requires Shape(m, w, h)
    ensures Shape(WithRectangularRotation(m, r), w, h)
    ensures SameCells(WithRectangularRotation(m, r), RotatedRectangularMosaic(m, r), w, h)
  {
    var view := RotatedRectangularMosaic(m, r);
    var q := R.RectangularToSquare(r);
    match m
    case RotatedRectangularMosaic(b, a) =>
      forall x, y | 0 <= x < w && 0 <= y < h
        ensures Get(WithRectangularRotation(m, r), w, h, Position(x, y)) == Get(view, w, h, Position(x, y))
      {
        var p := Position(x, y);
        var cell := Get(b, w, h, RectangularViewSource(w, h, a, RectangularViewSource(w, h, r, p)));
        R.ToSquareIsEmbedding(a, r);
        RotationGroup(cell.rotation, R.RectangularToSquare(a), q);
      }
    case RotatedSquareMosaic(b, a) =>
      forall x, y | 0 <= x < w && 0 <= y < h
        ensures Get(WithRectangularRotation(m, r), w, h, Position(x, y)) == Get(view, w, h, Position(x, y))
      {
        var p := Position(x, y);
        SquareViewSourceCompose(w, a, q, p);
        var cell := Get(b, w, h, SquareViewSource(w, Add(a, q), p));
        RotationGroup(cell.rotation, a, q);
      }
    case _ =>
  }

  /* ------------------------------------------------------------- Examples */

  /** The 2x2 mosaic of the source's tests: tiles 0 and 1 above tiles 16
      and 17, none rotated. */
  const SQUARE_EXAMPLE: Mosaic :=
    ArrayMosaic([[RotatedTile(0, Identity), RotatedTile(1, Identity)],
                 [RotatedTile(16, Identity), RotatedTile(17, Identity)]])

  /** The catalog letters the square example's edges are made of. */
  lemma SquareExampleLetters()
    ensures ToChar(TileColor(1, Right)) == 'f' && ToChar(TileColor(17, Right)) == 'i'
    ensures ToChar(TileColor(0, Top)) == 'a' && ToChar(TileColor(1, Top)) == 'a'
    ensures ToChar(TileColor(16, Left)) == 'a' && ToChar(TileColor(0, Left)) == 'a'
    ensures ToChar(TileColor(17, Bottom)) == 'o' && ToChar(TileColor(16, Bottom)) == 'r'
  {
    TileColorLetter(1, Right);
    TileColorLetter(17, Right);
    TileColorLetter(0, Top);
    TileColorLetter(1, Top);
    TileColorLetter(16, Left);
    TileColorLetter(0, Left);
    TileColorLetter(17, Bottom);
    TileColorLetter(16, Bottom);
  }

  /** The edges of the example read "fi", "aa", "aa" and "or". */
  lemma SquareExampleEdges()
    ensures Shape(SQUARE_EXAMPLE, 2, 2)
    ensures Render(SideEdge(SQUARE_EXAMPLE, 2, 2, Right)) == "fi"
    ensures Render(SideEdge(SQUARE_EXAMPLE, 2, 2, Top)) == "aa"
    ensures Render(SideEdge(SQUARE_EXAMPLE, 2, 2, Left)) == "aa"
    ensures Render(SideEdge(SQUARE_EXAMPLE, 2, 2, Bottom)) == "or"
  {
    SquareExampleLetters();
    assert SideEdge(SQUARE_EXAMPLE, 2, 2, Right) == [TileColor(1, Right), TileColor(17, Right)];
    assert SideEdge(SQUARE_EXAMPLE, 2, 2, Top) == [TileColor(0, Top), TileColor(1, Top)];
    assert SideEdge(SQUARE_EXAMPLE, 2, 2, Left) == [TileColor(16, Left), TileColor(0, Left)];
    assert SideEdge(SQUARE_EXAMPLE, 2, 2, Bottom) == [TileColor(17, Bottom), TileColor(16, Bottom)];
  }

  /** The source's `rotated_square_mosaic` test, cells: each view reads
      the example turned by its rotation, and adds that rotation to every
      cell. */
  lemma RotatedSquareExampleCells()
    ensures Shape(RotatedSquareMosaic(SQUARE_EXAMPLE, QuarterTurnLeft), 2, 2)
    ensures Get(RotatedSquareMosaic(SQUARE_EXAMPLE, Identity), 2, 2, Position(1, 0)) == RotatedTile(1, Identity)
    ensures Get(RotatedSquareMosaic(SQUARE_EXAMPLE, QuarterTurnLeft), 2, 2, Position(0, 0)) == RotatedTile(1, QuarterTurnLeft)
    ensures Get(RotatedSquareMosaic(SQUARE_EXAMPLE, QuarterTurnLeft), 2, 2, Position(1, 0)) == RotatedTile(17, QuarterTurnLeft)
    ensures Get(RotatedSquareMosaic(SQUARE_EXAMPLE, QuarterTurnLeft), 2, 2, Position(0, 1)) == RotatedTile(0, QuarterTurnLeft)
    ensures Get(RotatedSquareMosaic(SQUARE_EXAMPLE, QuarterTurnLeft), 2, 2, Position(1, 1)) == RotatedTile(16, QuarterTurnLeft)
    ensures Get(RotatedSquareMosaic(SQUARE_EXAMPLE, HalfTurn), 2, 2, Position(0, 0)) == RotatedTile(17, HalfTurn)
    ensures Get(RotatedSquareMosaic(SQUARE_EXAMPLE, HalfTurn), 2, 2, Position(1, 1)) == RotatedTile(0, HalfTurn)
    ensures Get(RotatedSquareMosaic(SQUARE_EXAMPLE, QuarterTurnRight), 2, 2, Position(0, 0)) == RotatedTile(16, QuarterTurnRight)
    ensures Get(RotatedSquareMosaic(SQUARE_EXAMPLE, QuarterTurnRight), 2, 2, Position(1, 0)) == RotatedTile(0, QuarterTurnRight)
  {
  }

  /** The source's `rotated_square_mosaic` test, edges of the view turned
      a quarter turn left: "or", "fi", "aa", "aa". */
  lemma {:induction false} QuarterLeftTurnedSquareExampleEdges()
    ensures Render(SideEdge(RotatedSquareMosaic(SQUARE_EXAMPLE, QuarterTurnLeft), 2, 2, Right)) == "or"
    ensures Render(SideEdge(RotatedSquareMosaic(SQUARE_EXAMPLE, QuarterTurnLeft), 2, 2, Top)) == "fi"
    ensures Render(SideEdge(RotatedSquareMosaic(SQUARE_EXAMPLE, QuarterTurnLeft), 2, 2, Left)) == "aa"
    ensures Render(SideEdge(RotatedSquareMosaic(SQUARE_EXAMPLE, QuarterTurnLeft), 2, 2, Bottom)) == "aa"
  {
    SquareExampleEdges();
    SquareViewEdge(SQUARE_EXAMPLE, 2, QuarterTurnLeft, Right);
    assert Transform(Right, QuarterTurnLeft) == Top;
    assert SideEdge(RotatedSquareMosaic(SQUARE_EXAMPLE, QuarterTurnLeft), 2, 2, Top) == SideEdge(SQUARE_EXAMPLE, 2, 2, Right);
    SquareViewEdge(SQUARE_EXAMPLE, 2, QuarterTurnLeft, Top);
    assert Transform(Top, QuarterTurnLeft) == Left;
    assert SideEdge(RotatedSquareMosaic(SQUARE_EXAMPLE, QuarterTurnLeft), 2, 2, Left) == SideEdge(SQUARE_EXAMPLE, 2, 2, Top);
    SquareViewEdge(SQUARE_EXAMPLE, 2, QuarterTurnLeft, Left);
    assert Transform(Left, QuarterTurnLeft) == Bottom;
    assert SideEdge(RotatedSquareMosaic(SQUARE_EXAMPLE, QuarterTurnLeft), 2, 2, Bottom) == SideEdge(SQUARE_EXAMPLE, 2, 2, Left);
    SquareViewEdge(SQUARE_EXAMPLE, 2, QuarterTurnLeft, Bottom);
    assert Transform(Bottom, QuarterTurnLeft) == Right;
    assert SideEdge(RotatedSquareMosaic(SQUARE_EXAMPLE, QuarterTurnLeft), 2, 2, Right) == SideEdge(SQUARE_EXAMPLE, 2, 2, Bottom);
  }

  /** The source's `rotated_square_mosaic` test, edges of the view turned
      a half turn: "aa", "or", "fi", "aa". */
  lemma {:induction false} HalfTurnedSquareExampleEdges()
    ensures Render(SideEdge(RotatedSquareMosaic(SQUARE_EXAMPLE, HalfTurn), 2, 2, Right)) == "aa"
    ensures Render(SideEdge(RotatedSquareMosaic(SQUARE_EXAMPLE, HalfTurn), 2, 2, Top)) == "or"
    ensures Render(SideEdge(RotatedSquareMosaic(SQUARE_EXAMPLE, HalfTurn), 2, 2, Left)) == "fi"
    ensures Render(SideEdge(RotatedSquareMosaic(SQUARE_EXAMPLE, HalfTurn), 2, 2, Bottom)) == "aa"
  {
    SquareExampleEdges();
    SquareViewEdge(SQUARE_EXAMPLE, 2, HalfTurn, Right);
    assert Transform(Right, HalfTurn) == Left;
    assert SideEdge(RotatedSquareMosaic(SQUARE_EXAMPLE, HalfTurn), 2, 2, Left) == SideEdge(SQUARE_EXAMPLE, 2, 2, Right);
    SquareViewEdge(SQUARE_EXAMPLE, 2, HalfTurn, Top);
    assert Transform(Top, HalfTurn) == Bottom;
    assert SideEdge(RotatedSquareMosaic(SQUARE_EXAMPLE, HalfTurn), 2, 2, Bottom) == SideEdge(SQUARE_EXAMPLE, 2, 2, Top);
    SquareViewEdge(SQUARE_EXAMPLE, 2, HalfTurn, Left);
    assert Transform(Left, HalfTurn) == Right;
    assert SideEdge(RotatedSquareMosaic(SQUARE_EXAMPLE, HalfTurn), 2, 2, Right) == SideEdge(SQUARE_EXAMPLE, 2, 2, Left);
    SquareViewEdge(SQUARE_EXAMPLE, 2, HalfTurn, Bottom);
    assert Transform(Bottom, HalfTurn) == Top;
    assert SideEdge(RotatedSquareMosaic(SQUARE_EXAMPLE, HalfTurn), 2, 2, Top) == SideEdge(SQUARE_EXAMPLE, 2, 2, Bottom);
  }

  /** The source's `rotated_square_mosaic` test, edges of the view turned
      a quarter turn right: "aa", "aa", "or", "fi". */
  lemma {:induction false} QuarterRightTurnedSquareExampleEdges()
    ensures Render(SideEdge(RotatedSquareMosaic(SQUARE_EXAMPLE, QuarterTurnRight), 2, 2, Right)) == "aa"
    ensures Render(SideEdge(RotatedSquareMosaic(SQUARE_EXAMPLE, QuarterTurnRight), 2, 2, Top)) == "aa"
    ensures Render(SideEdge(RotatedSquareMosaic(SQUARE_EXAMPLE, QuarterTurnRight), 2, 2, Left)) == "or"
    ensures Render(SideEdge(RotatedSquareMosaic(SQUARE_EXAMPLE, QuarterTurnRight), 2, 2, Bottom)) == "fi"
  {
    SquareExampleEdges();
    SquareViewEdge(SQUARE_EXAMPLE, 2, QuarterTurnRight, Right);
    assert Transform(Right, QuarterTurnRight) == Bottom;
    assert SideEdge(RotatedSquareMosaic(SQUARE_EXAMPLE, QuarterTurnRight), 2, 2, Bottom) == SideEdge(SQUARE_EXAMPLE, 2, 2, Right);
    SquareViewEdge(SQUARE_EXAMPLE, 2, QuarterTurnRight, Top);
    assert Transform(Top, QuarterTurnRight) == Right;
    assert SideEdge(RotatedSquareMosaic(SQUARE_EXAMPLE, QuarterTurnRight), 2, 2, Right) == SideEdge(SQUARE_EXAMPLE, 2, 2, Top);
    SquareViewEdge(SQUARE_EXAMPLE, 2, QuarterTurnRight, Left);
    assert Transform(Left, QuarterTurnRight) == Top;
    assert SideEdge(RotatedSquareMosaic(SQUARE_EXAMPLE, QuarterTurnRight), 2, 2, Top) == SideEdge(SQUARE_EXAMPLE, 2, 2, Left);
    SquareViewEdge(SQUARE_EXAMPLE, 2, QuarterTurnRight, Bottom);
    assert Transform(Bottom, QuarterTurnRight) == Left;
    assert SideEdge(RotatedSquareMosaic(SQUARE_EXAMPLE, QuarterTurnRight), 2, 2, Left) == SideEdge(SQUARE_EXAMPLE, 2, 2, Bottom);
  }

  /** The 4x3 mosaic of the source's tests: tiles 0..=3, 16..=19 and
      32..=35 in three rows, none rotated. */
  const RECTANGLE_EXAMPLE: Mosaic :=
    ArrayMosaic([[RotatedTile(0, Identity), RotatedTile(1, Identity), RotatedTile(2, Identity), RotatedTile(3, Identity)],
                 [RotatedTile(16, Identity), RotatedTile(17, Identity), RotatedTile(18, Identity), RotatedTile(19, Identity)],
                 [RotatedTile(32, Identity), RotatedTile(33, Identity), RotatedTile(34, Identity), RotatedTile(35, Identity)]])

  /** The catalog letters the rectangular example's edges are made of. */
  lemma RectangleExampleLetters()
    ensures ToChar(TileColor(3, Right)) == 'f' && ToChar(TileColor(19, Right)) == 't'
  {
    TileColorLetter(3, Right);
    TileColorLetter(19, Right);
  }

  /** The catalog letters of the rectangular example's bottom edge and
      bottom-right corner. */
  lemma RectangleExampleBottomLetters()
    ensures ToChar(TileColor(35, Right)) == 'd'
    ensures ToChar(TileColor(35, Bottom)) == 'm' && ToChar(TileColor(34, Bottom)) == 'd'
    ensures ToChar(TileColor(33, Bottom)) == 't' && ToChar(TileColor(32, Bottom)) == 'f'
  {
    TileColorLetter(35, Right);
    TileColorLetter(35, Bottom);
    TileColorLetter(34, Bottom);
    TileColorLetter(33, Bottom);
    TileColorLetter(32, Bottom);
  }

  /** The catalog letters of the rectangular example's top and left
      edges. */
  lemma RectangleExampleExteriorLetters()
    ensures ToChar(TileColor(0, Top)) == 'a' && ToChar(TileColor(1, Top)) == 'a'
    ensures ToChar(TileColor(2, Top)) == 'a' && ToChar(TileColor(3, Top)) == 'a'
    ensures ToChar(TileColor(32, Left)) == 'a' && ToChar(TileColor(16, Left)) == 'a'
    ensures ToChar(TileColor(0, Left)) == 'a'
  {
    TileColorLetter(0, Top);
    TileColorLetter(1, Top);
    TileColorLetter(2, Top);
    TileColorLetter(3, Top);
    TileColorLetter(32, Left);
    TileColorLetter(16, Left);
    TileColorLetter(0, Left);
  }

  /** The rectangular example's right and bottom edges read "ftd" and
      "mdtf". */
  lemma RectangleExampleEdges()
    ensures Shape(RECTANGLE_EXAMPLE, 4, 3)
    ensures Render(SideEdge(RECTANGLE_EXAMPLE, 4, 3, Right)) == "ftd"
    ensures Render(SideEdge(RECTANGLE_EXAMPLE, 4, 3, Bottom)) == "mdtf"
  {
    RectangleExampleLetters();
    RectangleExampleBottomLetters();
    assert SideEdge(RECTANGLE_EXAMPLE, 4, 3, Right) == [TileColor(3, Right), TileColor(19, Right), TileColor(35, Right)];
    assert SideEdge(RECTANGLE_EXAMPLE, 4, 3, Bottom)
      == [TileColor(35, Bottom), TileColor(34, Bottom), TileColor(33, Bottom), TileColor(32, Bottom)];
  }

  /** The rectangular example's top and left edges, on the puzzle's
      border, read "aaaa" and "aaa". */
  lemma RectangleExampleExteriorEdges()
    ensures Render(SideEdge(RECTANGLE_EXAMPLE, 4, 3, Top)) == "aaaa"
    ensures Render(SideEdge(RECTANGLE_EXAMPLE, 4, 3, Left)) == "aaa"
  {
    RectangleExampleExteriorLetters();
    assert SideEdge(RECTANGLE_EXAMPLE, 4, 3, Top) == [TileColor(0, Top), TileColor(1, Top), TileColor(2, Top), TileColor(3, Top)];
    assert SideEdge(RECTANGLE_EXAMPLE, 4, 3, Left) == [TileColor(32, Left), TileColor(16, Left), TileColor(0, Left)];
  }

  /** The source's `rotated_rectangular_mosaic` test: the half-turned view
      reads the cells in reverse order, each turned half, and its edges are
      the example's edges swapped in pairs. */
  lemma {:induction false} RotatedRectangleExamples()
    ensures Get(RotatedRectangularMosaic(RECTANGLE_EXAMPLE, R.HalfTurn), 4, 3, Position(0, 0)) == RotatedTile(35, HalfTurn)
    ensures Get(RotatedRectangularMosaic(RECTANGLE_EXAMPLE, R.HalfTurn), 4, 3, Position(3, 2)) == RotatedTile(0, HalfTurn)
    ensures Get(RotatedRectangularMosaic(RECTANGLE_EXAMPLE, R.Identity), 4, 3, Position(1, 2)) == RotatedTile(33, Identity)
    ensures Render(SideEdge(RotatedRectangularMosaic(RECTANGLE_EXAMPLE, R.HalfTurn), 4, 3, Right)) == "aaa"
    ensures Render(SideEdge(RotatedRectangularMosaic(RECTANGLE_EXAMPLE, R.HalfTurn), 4, 3, Top)) == "mdtf"
    ensures Render(SideEdge(RotatedRectangularMosaic(RECTANGLE_EXAMPLE, R.HalfTurn), 4, 3, Left)) == "ftd"
    ensures Render(SideEdge(RotatedRectangularMosaic(RECTANGLE_EXAMPLE, R.HalfTurn), 4, 3, Bottom)) == "aaaa"
  {
    RectangleExampleEdges();
    RectangleExampleExteriorEdges();
    RectangularViewEdge(RECTANGLE_EXAMPLE, 4, 3, R.HalfTurn, Left);
    RectangularViewEdge(RECTANGLE_EXAMPLE, 4, 3, R.HalfTurn, Bottom);
    RectangularViewEdge(RECTANGLE_EXAMPLE, 4, 3, R.HalfTurn, Right);
    RectangularViewEdge(RECTANGLE_EXAMPLE, 4, 3, R.HalfTurn, Top);
  }
}
