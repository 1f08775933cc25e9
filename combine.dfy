/** The splice of the doubling join (src/set/mod.rs): two mosaics laid side
    by side, or one above the other, into a fresh array mosaic, refused
    when a catalog tile would be used twice; and the least rotated tile of
    a mosaic, the tie-break of the center joins. */
module Combine {
  import opened Sides
  import opened Catalog
  import opened Tiles
  import opened Mosaics

  type Grid = seq<seq<RotatedTile>>

  /** `g` has `h` rows of `w` cells. */
  predicate IsGrid(g: Grid, w: int, h: int)
  {
    |g| == h && forall y :: 0 <= y < h ==> |g[y]| == w
  }

  /** No catalog tile occurs in two cells of the grid. */
  predicate DistinctTiles(g: Grid, w: int, h: int)
    requires IsGrid(g, w, h)
  {
    forall x1, y1, x2, y2 :: 0 <= x1 < w && 0 <= y1 < h && 0 <= x2 < w && 0 <= y2 < h && (x1 != x2 || y1 != y2) ==>
      g[y1][x1].tile != g[y2][x2].tile
  }

  /** Some catalog tile occurs in two cells of the grid. */
  ghost predicate RepeatsTile(g: Grid, w: int, h: int)
    requires IsGrid(g, w, h)
  {
    exists x1, y1, x2, y2 :: 0 <= x1 < w && 0 <= y1 < h && 0 <= x2 < w && 0 <= y2 < h && (x1 != x2 || y1 != y2)
      && g[y1][x1].tile == g[y2][x2].tile
  }

  /** Some catalog tile occurs in a cell of `ga` and in a cell of `gb`. */
  ghost predicate SharesTile(ga: Grid, gb: Grid, w: int, h: int)
    requires IsGrid(ga, w, h) && IsGrid(gb, w, h)
  {
    exists x1, y1, x2, y2 :: 0 <= x1 < w && 0 <= y1 < h && 0 <= x2 < w && 0 <= y2 < h && ga[y1][x1].tile == gb[y2][x2].tile
  }

  /** Two distinct cells holding one tile make the grid not distinct. */
  lemma NotDistinct(g: Grid, w: int, h: int, x1: int, y1: int, x2: int, y2: int)
    requires IsGrid(g, w, h) && 0 <= x1 < w && 0 <= y1 < h && 0 <= x2 < w && 0 <= y2 < h && (x1 != x2 || y1 != y2)
    requires g[y1][x1].tile == g[y2][x2].tile
    ensures !DistinctTiles(g, w, h)
  {
  }

  /** Two distinct cells holding one tile witness a repeat. */
  lemma Repeated(g: Grid, w: int, h: int, x1: int, y1: int, x2: int, y2: int)
    requires IsGrid(g, w, h) && 0 <= x1 < w && 0 <= y1 < h && 0 <= x2 < w && 0 <= y2 < h && (x1 != x2 || y1 != y2)
    requires g[y1][x1].tile == g[y2][x2].tile
    ensures RepeatsTile(g, w, h)
  {
  }

  /** A cell of each grid holding one tile witnesses a shared tile. */
  lemma Shared(ga: Grid, gb: Grid, w: int, h: int, x1: int, y1: int, x2: int, y2: int)
    requires IsGrid(ga, w, h) && IsGrid(gb, w, h) && 0 <= x1 < w && 0 <= y1 < h && 0 <= x2 < w && 0 <= y2 < h
    requires ga[y1][x1].tile == gb[y2][x2].tile
    ensures SharesTile(ga, gb, w, h)
  {
  }

  /* ------------------------------------------------------ Marking tiles */

  /** The state of the `used_tiles` bit array after marking the cells
      `seen` of `g`: a bit is set exactly for the tiles of those cells,
      and `owner` names the one seen cell that holds each set tile. */
  ghost predicate Marked(used: seq<bool>, g: Grid, w: int, h: int, seen: set<Position>, owner: map<Tile, Position>)
    requires IsGrid(g, w, h)
  {
    |used| == 256
    && (forall t :: 0 <= t < 256 ==> (used[t] <==> t as Tile in owner))
    && (forall t :: t in owner ==> owner[t] in seen && InBounds(owner[t], w, h) && g[owner[t].y][owner[t].x].tile == t)
    && (forall p :: p in seen ==> InBounds(p, w, h) && g[p.y][p.x].tile in owner && owner[g[p.y][p.x].tile] == p)
  }

  /** The closure `mark`: refuse a tile whose bit is already set, otherwise
      set its bit. A refusal means the grid repeats a tile. */
  method Mark(used: array<bool>, rotatedTile: RotatedTile, ghost g: Grid, ghost w: int, ghost h: int, ghost p: Position,
              ghost seen: set<Position>, ghost owner: map<Tile, Position>)
    returns (accepted: bool, ghost owner': map<Tile, Position>)
    requires IsGrid(g, w, h) && InBounds(p, w, h) && p !in seen && rotatedTile == g[p.y][p.x]
    requires used.Length == 256 && Marked(used[..], g, w, h, seen, owner)
    modifies used
    ensures accepted ==> Marked(used[..], g, w, h, seen + {p}, owner')
    ensures !accepted ==> !DistinctTiles(g, w, h)
  {
    var index := rotatedTile.tile as int;
    if used[index] {
      var q := owner[rotatedTile.tile];
      assert q in seen && q != p && g[q.y][q.x].tile == g[p.y][p.x].tile;
      return false, owner;
    }
    used[index] := true;
    owner' := owner[rotatedTile.tile := p];
    accepted := true;
  }

  /** The cells `seen` of `tiles` hold what `g` holds there. */
  ghost predicate Copied(tiles: Grid, g: Grid, w: int, h: int, seen: set<Position>)
    requires IsGrid(tiles, w, h) && IsGrid(g, w, h)
  {
    forall p :: p in seen ==> InBounds(p, w, h) && tiles[p.y][p.x] == g[p.y][p.x]
  }

  /** One statement of the combine loops: mark a cell's tile and, unless it
      is refused, store the cell at `p`. */
  method MarkAndStore(used: array<bool>, tiles: Grid, rotatedTile: RotatedTile, ghost g: Grid, w: int, h: int, p: Position,
                      ghost seen: set<Position>, ghost owner: map<Tile, Position>)
    returns (accepted: bool, tiles': Grid, ghost owner': map<Tile, Position>)
    requires IsGrid(g, w, h) && IsGrid(tiles, w, h) && InBounds(p, w, h) && p !in seen && rotatedTile == g[p.y][p.x]
    requires used.Length == 256 && Marked(used[..], g, w, h, seen, owner) && Copied(tiles, g, w, h, seen)
    modifies used
    ensures accepted ==> IsGrid(tiles', w, h) && Marked(used[..], g, w, h, seen + {p}, owner') && Copied(tiles', g, w, h, seen + {p})
    ensures !accepted ==> !DistinctTiles(g, w, h)
  {
    accepted, owner' := Mark(used, rotatedTile, g, w, h, p, seen, owner);
    if accepted {
      tiles' := tiles[p.y := tiles[p.y][p.x := rotatedTile]];
    } else {
      tiles' := tiles;
    }
  }

  /** One step of the combine loops: mark and store a cell of the first
      mosaic at `p1`, then, unless refused, one of the second at `p2`. */
  method MarkAndStorePair(used: array<bool>, tiles: Grid, first: RotatedTile, second: RotatedTile, ghost g: Grid, w: int, h: int,
                          p1: Position, p2: Position, ghost seen: set<Position>, ghost seen': set<Position>,
                          ghost owner: map<Tile, Position>)
    returns (accepted: bool, tiles': Grid, ghost owner': map<Tile, Position>)
    requires IsGrid(g, w, h) && IsGrid(tiles, w, h) && InBounds(p1, w, h) && InBounds(p2, w, h)
    requires p1 !in seen && p2 !in seen + {p1} && seen' == seen + {p1} + {p2} && first == g[p1.y][p1.x] && second == g[p2.y][p2.x]
    requires used.Length == 256 && Marked(used[..], g, w, h, seen, owner) && Copied(tiles, g, w, h, seen)
    modifies used
    ensures accepted ==> IsGrid(tiles', w, h) && Marked(used[..], g, w, h, seen', owner') && Copied(tiles', g, w, h, seen')
    ensures !accepted ==> !DistinctTiles(g, w, h)
  {
    accepted, tiles', owner' := MarkAndStore(used, tiles, first, g, w, h, p1, seen, owner);
    if accepted {
      accepted, tiles', owner' := MarkAndStore(used, tiles', second, g, w, h, p2, seen + {p1}, owner');
    }
  }

  /** Once every cell is marked and stored, no tile is repeated and the
      stored grid is `g`. */
  lemma MarkedAll(used: seq<bool>, tiles: Grid, g: Grid, w: int, h: int, seen: set<Position>, owner: map<Tile, Position>)
    requires IsGrid(g, w, h) && IsGrid(tiles, w, h) && Marked(used, g, w, h, seen, owner) && Copied(tiles, g, w, h, seen)
    requires forall p :: InBounds(p, w, h) ==> p in seen
    ensures DistinctTiles(g, w, h) && tiles == g
  {
    forall x1, y1, x2, y2 | 0 <= x1 < w && 0 <= y1 < h && 0 <= x2 < w && 0 <= y2 < h && (x1 != x2 || y1 != y2)
      ensures g[y1][x1].tile != g[y2][x2].tile
    {
      var p, q := Position(x1, y1), Position(x2, y2);
      assert p in seen && q in seen;
    }
    forall y | 0 <= y < h
      ensures tiles[y] == g[y]
    {
      forall x | 0 <= x < w
        ensures tiles[y][x] == g[y][x]
      {
        assert Position(x, y) in seen;
      }
    }
  }

  /** Cell `(x, y)` of the rows of a mosaic is its `get(x, y)`. */
  lemma CellsAt(m: Mosaic, w: int, h: int, x: int, y: int)
    requires Shape(m, w, h) && 0 <= x < w && 0 <= y < h
    ensures Cells(m, w, h)[y][x] == Get(m, w, h, Position(x, y))
  {
  }

  /** A fresh grid of ZERO tiles, `to_array_mosaic`'s starting point. */
  function ZeroGrid(w: nat, h: nat): (g: Grid)
    ensures IsGrid(g, w, h)
  {
    seq(h, _ => seq(w, _ => ZERO))
  }

  /* ------------------------------------------- Squares side by side */

  /** The cells the side-by-side loop has marked before step `(x, y)`:
      the rows above, and in row `y` the first `x` cells of each half. */
  ghost function SeenH(s: int, y: int, x: int): set<Position>
  {
    set i, j | 0 <= i < 2 * s && 0 <= j < s && (j < y || (j == y && (i < x || s <= i < s + x))) :: Position(i, j)
  }

  /** A step of the side-by-side loop marks two cells not yet marked. */
  lemma SeenHStep(s: int, y: int, x: int)
    requires 0 <= y < s && 0 <= x < s
    ensures Position(x, y) !in SeenH(s, y, x) && Position(x + s, y) !in SeenH(s, y, x) + {Position(x, y)}
    ensures SeenH(s, y, x) + {Position(x, y)} + {Position(x + s, y)} == SeenH(s, y, x + 1)
  {
  }

  /** The loop's first, row-changing and last states. */
  lemma SeenHRows(s: int, y: int)
    requires 0 <= y <= s
    ensures SeenH(s, 0, 0) == {}
    ensures y < s ==> SeenH(s, y, s) == SeenH(s, y + 1, 0)
    ensures forall p :: InBounds(p, 2 * s, s) ==> p in SeenH(s, s, 0)
  {
    forall p | InBounds(p, 2 * s, s)
      ensures p in SeenH(s, s, 0)
    {
      assert p == Position(p.x, p.y);
    }
  }


  /** The grid with `ga` on the left and `gb` on the right. */
  function JoinedHorizontally(ga: Grid, gb: Grid, s: int): (g: Grid)
    requires IsGrid(ga, s, s) && IsGrid(gb, s, s)
    ensures IsGrid(g, 2 * s, s)
  {
    seq(s, y requires 0 <= y < s => ga[y] + gb[y])
  }

  /** The cells of the side-by-side grid. */
  lemma JoinedHorizontallyAt(ga: Grid, gb: Grid, s: int, x: int, y: int)
    requires IsGrid(ga, s, s) && IsGrid(gb, s, s) && 0 <= x < 2 * s && 0 <= y < s
    ensures JoinedHorizontally(ga, gb, s)[y][x] == if x < s then ga[y][x] else gb[y][x - s]
  {
    assert JoinedHorizontally(ga, gb, s)[y] == ga[y] + gb[y];
  }

  /** The side-by-side grid repeats a tile only where one of the halves
      does or the halves share one. */
  lemma JoinedHorizontallyRepeats(ga: Grid, gb: Grid, s: int)
    requires IsGrid(ga, s, s) && IsGrid(gb, s, s) && !DistinctTiles(JoinedHorizontally(ga, gb, s), 2 * s, s)
    ensures RepeatsTile(ga, s, s) || RepeatsTile(gb, s, s) || SharesTile(ga, gb, s, s)
  {
    var g: Grid := JoinedHorizontally(ga, gb, s);
    var x1: int, y1: int, x2: int, y2: int :| 0 <= x1 < 2 * s && 0 <= y1 < s && 0 <= x2 < 2 * s && 0 <= y2 < s && (x1 != x2 || y1 != y2)
      && g[y1][x1].tile == g[y2][x2].tile;
    JoinedHorizontallyAt(ga, gb, s, x1, y1);
    JoinedHorizontallyAt(ga, gb, s, x2, y2);
    if x1 < s && x2 < s {
      Repeated(ga, s, s, x1, y1, x2, y2);
    } else if s <= x1 && s <= x2 {
      Repeated(gb, s, s, x1 - s, y1, x2 - s, y2);
    } else if x1 < s {
      Shared(ga, gb, s, s, x1, y1, x2 - s, y2);
    } else {
      Shared(ga, gb, s, s, x2, y2, x1 - s, y1);
    }
  }

  /** A tile repeated inside a half, or shared by the halves, is repeated
      in the side-by-side grid. */
  lemma JoinedHorizontallyKeeps(ga: Grid, gb: Grid, s: int)
    requires IsGrid(ga, s, s) && IsGrid(gb, s, s)
    requires RepeatsTile(ga, s, s) || RepeatsTile(gb, s, s) || SharesTile(ga, gb, s, s)
    ensures !DistinctTiles(JoinedHorizontally(ga, gb, s), 2 * s, s)
  {
    if RepeatsTile(ga, s, s) {
      JoinedHorizontallyKeepsLeft(ga, gb, s);
    } else if RepeatsTile(gb, s, s) {
      JoinedHorizontallyKeepsRight(ga, gb, s);
    } else {
      JoinedHorizontallyKeepsShared(ga, gb, s);
    }
  }

  /** A tile repeated in the left half is repeated in the joined grid. */
  lemma JoinedHorizontallyKeepsLeft(ga: Grid, gb: Grid, s: int)
    requires IsGrid(ga, s, s) && IsGrid(gb, s, s) && RepeatsTile(ga, s, s)
    ensures !DistinctTiles(JoinedHorizontally(ga, gb, s), 2 * s, s)
  {
    var x1: int, y1: int, x2: int, y2: int :| 0 <= x1 < s && 0 <= y1 < s && 0 <= x2 < s && 0 <= y2 < s && (x1 != x2 || y1 != y2)
        && ga[y1][x1].tile == ga[y2][x2].tile;
    SideBySideCells(ga, gb, s, x1, y1, x2, y2, x1, x2);
  }

  /** A tile repeated in the right half is repeated in the joined grid. */
  lemma JoinedHorizontallyKeepsRight(ga: Grid, gb: Grid, s: int)
    requires IsGrid(ga, s, s) && IsGrid(gb, s, s) && RepeatsTile(gb, s, s)
    ensures !DistinctTiles(JoinedHorizontally(ga, gb, s), 2 * s, s)
  {
    var x1: int, y1: int, x2: int, y2: int :| 0 <= x1 < s && 0 <= y1 < s && 0 <= x2 < s && 0 <= y2 < s && (x1 != x2 || y1 != y2)
        && gb[y1][x1].tile == gb[y2][x2].tile;
    SideBySideCells(ga, gb, s, x1, y1, x2, y2, x1 + s, x2 + s);
  }

  /** A tile shared by the halves is repeated in the joined grid. */
  lemma JoinedHorizontallyKeepsShared(ga: Grid, gb: Grid, s: int)
    requires IsGrid(ga, s, s) && IsGrid(gb, s, s) && SharesTile(ga, gb, s, s)
    ensures !DistinctTiles(JoinedHorizontally(ga, gb, s), 2 * s, s)
  {
    var x1: int, y1: int, x2: int, y2: int :| 0 <= x1 < s && 0 <= y1 < s && 0 <= x2 < s && 0 <= y2 < s && ga[y1][x1].tile == gb[y2][x2].tile;
    SideBySideCells(ga, gb, s, x1, y1, x2, y2, x1, x2 + s);
  }

  /** Two cells of the halves, at columns `c1` and `c2` of the side-by-side
      grid, that hold one tile make that grid not distinct. */
  lemma SideBySideCells(ga: Grid, gb: Grid, s: int, x1: int, y1: int, x2: int, y2: int, c1: int, c2: int)
    requires IsGrid(ga, s, s) && IsGrid(gb, s, s)
    requires 0 <= x1 < s && 0 <= y1 < s && 0 <= x2 < s && 0 <= y2 < s
    requires (c1 == x1 || c1 == x1 + s) && (c2 == x2 || c2 == x2 + s) && (c1 != c2 || y1 != y2)
    requires (if c1 < s then ga[y1][x1] else gb[y1][x1]).tile == (if c2 < s then ga[y2][x2] else gb[y2][x2]).tile
    ensures !DistinctTiles(JoinedHorizontally(ga, gb, s), 2 * s, s)
  {
    var g: Grid := JoinedHorizontally(ga, gb, s);
    JoinedHorizontallyAt(ga, gb, s, c1, y1);
    JoinedHorizontallyAt(ga, gb, s, c2, y2);
    NotDistinct(g, 2 * s, s, c1, y1, c2, y2);
  }

  /** What `combine_squares_horizontally_to_rectangle` returns: the joined
      grid, unless it repeats a tile. */
  function CombineHorizontally(a: Mosaic, b: Mosaic, s: int): Option<Mosaic>
    requires Shape(a, s, s) && Shape(b, s, s)
  {
    var g: Grid := JoinedHorizontally(Cells(a, s, s), Cells(b, s, s), s);
    if DistinctTiles(g, 2 * s, s) then Some(ArrayMosaic(g)) else None
  }

  /** The outcome of the side-by-side join, once its grid is known. */
  lemma HorizontalOutcome(a: Mosaic, b: Mosaic, s: int, g: Grid)
    requires Shape(a, s, s) && Shape(b, s, s)
    requires g == JoinedHorizontally(Cells(a, s, s), Cells(b, s, s), s)
    ensures DistinctTiles(g, 2 * s, s) ==> CombineHorizontally(a, b, s) == Some(ArrayMosaic(g))
    ensures !DistinctTiles(g, 2 * s, s) ==> CombineHorizontally(a, b, s) == None
  {
  }

  /** What step `(x, y)` of the side-by-side loop relies on: the two
      cells it copies are those of the joined grid, and neither is marked
      yet. */
  lemma SideBySideStep(a: Mosaic, b: Mosaic, s: int, g: Grid, x: int, y: int)
    requires Shape(a, s, s) && Shape(b, s, s) && 0 <= x < s && 0 <= y < s
    requires g == JoinedHorizontally(Cells(a, s, s), Cells(b, s, s), s)
    ensures IsGrid(g, 2 * s, s) && Get(a, s, s, Position(x, y)) == g[y][x] && Get(b, s, s, Position(x, y)) == g[y][x + s]
    ensures Position(x, y) !in SeenH(s, y, x) && Position(x + s, y) !in SeenH(s, y, x) + {Position(x, y)}
    ensures SeenH(s, y, x) + {Position(x, y)} + {Position(x + s, y)} == SeenH(s, y, x + 1)
  {
    SideBySideCellAt(a, b, s, g, x, y);
    SeenHStep(s, y, x);
  }

  /** One row `y` of the side-by-side loop: for each `x`, mark and copy
      cell `x` of `a` and then cell `x` of `b`. */
  method MarkRowSideBySide(used: array<bool>, tiles: Grid, a: Mosaic, b: Mosaic, s: int, y: int, ghost g: Grid,
                           ghost owner: map<Tile, Position>)
    returns (accepted: bool, tiles': Grid, ghost owner': map<Tile, Position>)
    requires Shape(a, s, s) && Shape(b, s, s) && 0 <= y < s && used.Length == 256
    requires g == JoinedHorizontally(Cells(a, s, s), Cells(b, s, s), s)
    requires IsGrid(tiles, 2 * s, s) && Marked(used[..], g, 2 * s, s, SeenH(s, y, 0), owner) && Copied(tiles, g, 2 * s, s, SeenH(s, y, 0))
    modifies used
    ensures accepted ==> (IsGrid(tiles', 2 * s, s) && Marked(used[..], g, 2 * s, s, SeenH(s, y, s), owner')
                          && Copied(tiles', g, 2 * s, s, SeenH(s, y, s)))
    ensures !accepted ==> !DistinctTiles(g, 2 * s, s)
  {
    tiles', owner' := tiles, owner;
    for x := 0 to s
      invariant IsGrid(tiles', 2 * s, s) && Marked(used[..], g, 2 * s, s, SeenH(s, y, x), owner') && Copied(tiles', g, 2 * s, s, SeenH(s, y, x))
    {
      SideBySideStep(a, b, s, g, x, y);
      accepted, tiles', owner' := MarkAndStorePair(used, tiles', Get(a, s, s, Position(x, y)), Get(b, s, s, Position(x, y)),
                                                   g, 2 * s, s, Position(x, y), Position(x + s, y), SeenH(s, y, x), SeenH(s, y, x + 1), owner');
      if !accepted {
        return;
      }
    }
    accepted := true;
  }

  /** `combine_squares_horizontally_to_rectangle`: walk the rows, and in
      each row mark and copy cell `x` of `a` and then cell `x` of `b`;
      give up at the first tile marked twice. */
  method CombineSquaresHorizontally(a: Mosaic, b: Mosaic, s: int) returns (result: Option<Mosaic>)
    requires Shape(a, s, s) && Shape(b, s, s)
    ensures result == CombineHorizontally(a, b, s)
  {
    ghost var g := JoinedHorizontally(Cells(a, s, s), Cells(b, s, s), s);
    var used := new bool[256](_ => false);
    var tiles := ZeroGrid(2 * s, s);
    ghost var owner: map<Tile, Position> := map[];
    SeenHRows(s, 0);
    for y := 0 to s
      invariant IsGrid(tiles, 2 * s, s) && Marked(used[..], g, 2 * s, s, SeenH(s, y, 0), owner) && Copied(tiles, g, 2 * s, s, SeenH(s, y, 0))
    {
      var accepted;
      accepted, tiles, owner := MarkRowSideBySide(used, tiles, a, b, s, y, g, owner);
      if !accepted {
        HorizontalOutcome(a, b, s, g);
        return None;
      }
      SeenHRows(s, y);
    }
    SeenHRows(s, s);
    MarkedAll(used[..], tiles, g, 2 * s, s, SeenH(s, s, 0), owner);
    HorizontalOutcome(a, b, s, g);
    result := Some(ArrayMosaic(tiles));
  }

  /** The side-by-side join fails exactly when a tile repeats inside
      `a`, inside `b`, or between them. */
  lemma CombineHorizontallyRefuses(a: Mosaic, b: Mosaic, s: int)
    requires Shape(a, s, s) && Shape(b, s, s)
    ensures CombineHorizontally(a, b, s).None? <==>
      RepeatsTile(Cells(a, s, s), s, s) || RepeatsTile(Cells(b, s, s), s, s) || SharesTile(Cells(a, s, s), Cells(b, s, s), s, s)
  {
    var ga, gb := Cells(a, s, s), Cells(b, s, s);
    if !DistinctTiles(JoinedHorizontally(ga, gb, s), 2 * s, s) {
      JoinedHorizontallyRepeats(ga, gb, s);
    }
    if RepeatsTile(ga, s, s) || RepeatsTile(gb, s, s) || SharesTile(ga, gb, s, s) {
      JoinedHorizontallyKeeps(ga, gb, s);
    }
  }

  /** On success the left half of the rectangle is `a` and the right half
      is `b`. */
  lemma CombineHorizontallyCells(a: Mosaic, b: Mosaic, s: int)
    requires Shape(a, s, s) && Shape(b, s, s) && CombineHorizontally(a, b, s).Some?
    ensures var m := CombineHorizontally(a, b, s).value;
      m.ArrayMosaic? && Shape(m, 2 * s, s) &&
      forall x, y :: 0 <= x < s && 0 <= y < s ==>
        Get(m, 2 * s, s, Position(x, y)) == Get(a, s, s, Position(x, y))
        && Get(m, 2 * s, s, Position(x + s, y)) == Get(b, s, s, Position(x, y))
  {
    var g: Grid := JoinedHorizontally(Cells(a, s, s), Cells(b, s, s), s);
    HorizontalOutcome(a, b, s, g);
    forall x, y | 0 <= x < s && 0 <= y < s
      ensures Get(ArrayMosaic(g), 2 * s, s, Position(x, y)) == Get(a, s, s, Position(x, y))
      ensures Get(ArrayMosaic(g), 2 * s, s, Position(x + s, y)) == Get(b, s, s, Position(x, y))
    {
      SideBySideCellAt(a, b, s, g, x, y);
    }
  }

  /** Cell `(x, y)` of each square in the side-by-side grid. */
  lemma SideBySideCellAt(a: Mosaic, b: Mosaic, s: int, g: Grid, x: int, y: int)
    requires Shape(a, s, s) && Shape(b, s, s) && 0 <= x < s && 0 <= y < s
    requires g == JoinedHorizontally(Cells(a, s, s), Cells(b, s, s), s)
    ensures Get(ArrayMosaic(g), 2 * s, s, Position(x, y)) == Get(a, s, s, Position(x, y))
    ensures Get(ArrayMosaic(g), 2 * s, s, Position(x + s, y)) == Get(b, s, s, Position(x, y))
  {
    JoinedHorizontallyAt(Cells(a, s, s), Cells(b, s, s), s, x, y);
    JoinedHorizontallyAt(Cells(a, s, s), Cells(b, s, s), s, x + s, y);
    CellsAt(a, s, s, x, y);
    CellsAt(b, s, s, x, y);
  }

  /* ----------------------------------------- Rectangles one on another */

  /** The cells the stacked loop has marked before step `(x, y)`: rows
      `0 .. y` of each half, and the first `x` cells of row `y` of each. */
  ghost function SeenV(s: int, y: int, x: int): set<Position>
  {
    set i, j | 0 <= i < 2 * s && 0 <= j < 2 * s && (j < y || s <= j < s + y || ((j == y || j == y + s) && i < x)) :: Position(i, j)
  }

  /** A step of the stacked loop marks two cells not yet marked. */
  lemma SeenVStep(s: int, y: int, x: int)
    requires 0 <= y < s && 0 <= x < 2 * s
    ensures Position(x, y) !in SeenV(s, y, x) && Position(x, y + s) !in SeenV(s, y, x) + {Position(x, y)}
    ensures SeenV(s, y, x) + {Position(x, y)} + {Position(x, y + s)} == SeenV(s, y, x + 1)
  {
  }

  /** The loop's first, row-changing and last states. */
  lemma SeenVRows(s: int, y: int)
    requires 0 <= y <= s
    ensures SeenV(s, 0, 0) == {}
    ensures y < s ==> SeenV(s, y, 2 * s) == SeenV(s, y + 1, 0)
    ensures forall p :: InBounds(p, 2 * s, 2 * s) ==> p in SeenV(s, s, 0)
  {
    forall p | InBounds(p, 2 * s, 2 * s)
      ensures p in SeenV(s, s, 0)
    {
      assert p == Position(p.x, p.y);
    }
  }


  /** The grid with `ga` on top of `gb`. */
  function JoinedVertically(ga: Grid, gb: Grid, s: int): (g: Grid)
    requires IsGrid(ga, 2 * s, s) && IsGrid(gb, 2 * s, s)
    ensures IsGrid(g, 2 * s, 2 * s)
  {
    ga + gb
  }

  /** The rows of the stacked grid. */
  lemma JoinedVerticallyAt(ga: Grid, gb: Grid, s: int, y: int)
    requires IsGrid(ga, 2 * s, s) && IsGrid(gb, 2 * s, s) && 0 <= y < s
    ensures JoinedVertically(ga, gb, s)[y] == ga[y] && JoinedVertically(ga, gb, s)[y + s] == gb[y]
  {
  }

  /** The stacked grid repeats a tile only where one of the halves does
      or the halves share one. */
  lemma JoinedVerticallyRepeats(ga: Grid, gb: Grid, s: int)
    requires IsGrid(ga, 2 * s, s) && IsGrid(gb, 2 * s, s) && !DistinctTiles(JoinedVertically(ga, gb, s), 2 * s, 2 * s)
    ensures RepeatsTile(ga, 2 * s, s) || RepeatsTile(gb, 2 * s, s) || SharesTile(ga, gb, 2 * s, s)
  {
    var g: Grid := JoinedVertically(ga, gb, s);
    var x1: int, y1: int, x2: int, y2: int :| 0 <= x1 < 2 * s && 0 <= y1 < 2 * s && 0 <= x2 < 2 * s && 0 <= y2 < 2 * s && (x1 != x2 || y1 != y2)
      && g[y1][x1].tile == g[y2][x2].tile;
    if y1 < s && y2 < s {
      Repeated(ga, 2 * s, s, x1, y1, x2, y2);
    } else if s <= y1 && s <= y2 {
      Repeated(gb, 2 * s, s, x1, y1 - s, x2, y2 - s);
    } else if y1 < s {
      Shared(ga, gb, 2 * s, s, x1, y1, x2, y2 - s);
    } else {
      Shared(ga, gb, 2 * s, s, x2, y2, x1, y1 - s);
    }
  }

  /** A tile repeated inside a half, or shared by the halves, is repeated
      in the stacked grid. */
  lemma JoinedVerticallyKeeps(ga: Grid, gb: Grid, s: int)
    requires IsGrid(ga, 2 * s, s) && IsGrid(gb, 2 * s, s)
    requires RepeatsTile(ga, 2 * s, s) || RepeatsTile(gb, 2 * s, s) || SharesTile(ga, gb, 2 * s, s)
    ensures !DistinctTiles(JoinedVertically(ga, gb, s), 2 * s, 2 * s)
  {
    if RepeatsTile(ga, 2 * s, s) {
      JoinedVerticallyKeepsTop(ga, gb, s);
    } else if RepeatsTile(gb, 2 * s, s) {
      JoinedVerticallyKeepsBottom(ga, gb, s);
    } else {
      JoinedVerticallyKeepsShared(ga, gb, s);
    }
  }

  /** A tile repeated in the top half is repeated in the stacked grid. */
  lemma JoinedVerticallyKeepsTop(ga: Grid, gb: Grid, s: int)
    requires IsGrid(ga, 2 * s, s) && IsGrid(gb, 2 * s, s) && RepeatsTile(ga, 2 * s, s)
    ensures !DistinctTiles(JoinedVertically(ga, gb, s), 2 * s, 2 * s)
  {
    var x1: int, y1: int, x2: int, y2: int :| 0 <= x1 < 2 * s && 0 <= y1 < s && 0 <= x2 < 2 * s && 0 <= y2 < s && (x1 != x2 || y1 != y2)
        && ga[y1][x1].tile == ga[y2][x2].tile;
    StackedCells(ga, gb, s, x1, y1, x2, y2, y1, y2);
  }

  /** A tile repeated in the bottom half is repeated in the stacked grid. */
  lemma JoinedVerticallyKeepsBottom(ga: Grid, gb: Grid, s: int)
    requires IsGrid(ga, 2 * s, s) && IsGrid(gb, 2 * s, s) && RepeatsTile(gb, 2 * s, s)
    ensures !DistinctTiles(JoinedVertically(ga, gb, s), 2 * s, 2 * s)
  {
    var x1: int, y1: int, x2: int, y2: int :| 0 <= x1 < 2 * s && 0 <= y1 < s && 0 <= x2 < 2 * s && 0 <= y2 < s && (x1 != x2 || y1 != y2)
        && gb[y1][x1].tile == gb[y2][x2].tile;
    StackedCells(ga, gb, s, x1, y1, x2, y2, y1 + s, y2 + s);
  }

  /** A tile shared by the halves is repeated in the stacked grid. */
  lemma JoinedVerticallyKeepsShared(ga: Grid, gb: Grid, s: int)
    requires IsGrid(ga, 2 * s, s) && IsGrid(gb, 2 * s, s) && SharesTile(ga, gb, 2 * s, s)
    ensures !DistinctTiles(JoinedVertically(ga, gb, s), 2 * s, 2 * s)
  {
    var x1: int, y1: int, x2: int, y2: int :| 0 <= x1 < 2 * s && 0 <= y1 < s && 0 <= x2 < 2 * s && 0 <= y2 < s && ga[y1][x1].tile == gb[y2][x2].tile;
    StackedCells(ga, gb, s, x1, y1, x2, y2, y1, y2 + s);
  }

  /** Two cells of the halves, at rows `r1` and `r2` of the stacked grid,
      that hold one tile make the stacked grid not distinct. */
  lemma StackedCells(ga: Grid, gb: Grid, s: int, x1: int, y1: int, x2: int, y2: int, r1: int, r2: int)
    requires IsGrid(ga, 2 * s, s) && IsGrid(gb, 2 * s, s)
    requires 0 <= x1 < 2 * s && 0 <= y1 < s && 0 <= x2 < 2 * s && 0 <= y2 < s
    requires (r1 == y1 || r1 == y1 + s) && (r2 == y2 || r2 == y2 + s) && (x1 != x2 || r1 != r2)
    requires (if r1 < s then ga[y1][x1] else gb[y1][x1]).tile == (if r2 < s then ga[y2][x2] else gb[y2][x2]).tile
    ensures !DistinctTiles(JoinedVertically(ga, gb, s), 2 * s, 2 * s)
  {
    var g: Grid := JoinedVertically(ga, gb, s);
    assert g[r1] == if r1 < s then ga[y1] else gb[y1];
    assert g[r2] == if r2 < s then ga[y2] else gb[y2];
    NotDistinct(g, 2 * s, 2 * s, x1, r1, x2, r2);
  }

  /** What `combine_rectangles_vertically_to_square` returns: the joined
      grid, unless it repeats a tile. */
  function CombineVertically(a: Mosaic, b: Mosaic, s: int): Option<Mosaic>
    requires Shape(a, 2 * s, s) && Shape(b, 2 * s, s)
  {
    var g: Grid := JoinedVertically(Cells(a, 2 * s, s), Cells(b, 2 * s, s), s);
    if DistinctTiles(g, 2 * s, 2 * s) then Some(ArrayMosaic(g)) else None
  }

  /** The outcome of the stacked join, once its grid is known. */
  lemma VerticalOutcome(a: Mosaic, b: Mosaic, s: int, g: Grid)
    requires Shape(a, 2 * s, s) && Shape(b, 2 * s, s)
    requires g == JoinedVertically(Cells(a, 2 * s, s), Cells(b, 2 * s, s), s)
    ensures DistinctTiles(g, 2 * s, 2 * s) ==> CombineVertically(a, b, s) == Some(ArrayMosaic(g))
    ensures !DistinctTiles(g, 2 * s, 2 * s) ==> CombineVertically(a, b, s) == None
  {
  }

  /** What step `(x, y)` of the stacked loop relies on: the two cells it
      copies are those of the stacked grid, and neither is marked yet. */
  lemma StackedStep(a: Mosaic, b: Mosaic, s: int, g: Grid, x: int, y: int)
    requires Shape(a, 2 * s, s) && Shape(b, 2 * s, s) && 0 <= x < 2 * s && 0 <= y < s
    requires g == JoinedVertically(Cells(a, 2 * s, s), Cells(b, 2 * s, s), s)
    ensures IsGrid(g, 2 * s, 2 * s) && Get(a, 2 * s, s, Position(x, y)) == g[y][x] && Get(b, 2 * s, s, Position(x, y)) == g[y + s][x]
    ensures Position(x, y) !in SeenV(s, y, x) && Position(x, y + s) !in SeenV(s, y, x) + {Position(x, y)}
    ensures SeenV(s, y, x) + {Position(x, y)} + {Position(x, y + s)} == SeenV(s, y, x + 1)
  {
    StackedCellAt(a, b, s, g, x, y);
    SeenVStep(s, y, x);
  }

  /** One row `y` of the stacked loop: for each `x`, mark and copy cell
      `x` of `a` into row `y` and then cell `x` of `b` into row `y + s`. */
  method MarkRowStacked(used: array<bool>, tiles: Grid, a: Mosaic, b: Mosaic, s: int, y: int, ghost g: Grid,
                        ghost owner: map<Tile, Position>)
    returns (accepted: bool, tiles': Grid, ghost owner': map<Tile, Position>)
    requires Shape(a, 2 * s, s) && Shape(b, 2 * s, s) && 0 <= y < s && used.Length == 256
    requires g == JoinedVertically(Cells(a, 2 * s, s), Cells(b, 2 * s, s), s)
    requires IsGrid(tiles, 2 * s, 2 * s) && Marked(used[..], g, 2 * s, 2 * s, SeenV(s, y, 0), owner)
    requires Copied(tiles, g, 2 * s, 2 * s, SeenV(s, y, 0))
    modifies used
    ensures accepted ==> (IsGrid(tiles', 2 * s, 2 * s) && Marked(used[..], g, 2 * s, 2 * s, SeenV(s, y, 2 * s), owner')
                          && Copied(tiles', g, 2 * s, 2 * s, SeenV(s, y, 2 * s)))
    ensures !accepted ==> !DistinctTiles(g, 2 * s, 2 * s)
  {
    tiles', owner' := tiles, owner;
    for x := 0 to 2 * s
      invariant IsGrid(tiles', 2 * s, 2 * s) && Marked(used[..], g, 2 * s, 2 * s, SeenV(s, y, x), owner')
      invariant Copied(tiles', g, 2 * s, 2 * s, SeenV(s, y, x))
    {
      StackedStep(a, b, s, g, x, y);
      accepted, tiles', owner' := MarkAndStorePair(used, tiles', Get(a, 2 * s, s, Position(x, y)), Get(b, 2 * s, s, Position(x, y)),
                                                   g, 2 * s, 2 * s, Position(x, y), Position(x, y + s), SeenV(s, y, x), SeenV(s, y, x + 1), owner');
      if !accepted {
        return;
      }
    }
    accepted := true;
  }

  /** `combine_rectangles_vertically_to_square`: walk the rows of `a`, and
      in each mark and copy cell `x` of `a` into row `y` and then cell `x`
      of `b` into row `y + s`; give up at the first tile marked twice. */
  method CombineRectanglesVertically(a: Mosaic, b: Mosaic, s: int) returns (result: Option<Mosaic>)
    requires Shape(a, 2 * s, s) && Shape(b, 2 * s, s)
    ensures result == CombineVertically(a, b, s)
  {
    ghost var g := JoinedVertically(Cells(a, 2 * s, s), Cells(b, 2 * s, s), s);
    var used := new bool[256](_ => false);
    var tiles := ZeroGrid(2 * s, 2 * s);
    ghost var owner: map<Tile, Position> := map[];
    SeenVRows(s, 0);
    for y := 0 to s
      invariant IsGrid(tiles, 2 * s, 2 * s) && Marked(used[..], g, 2 * s, 2 * s, SeenV(s, y, 0), owner)
      invariant Copied(tiles, g, 2 * s, 2 * s, SeenV(s, y, 0))
    {
      var accepted;
      accepted, tiles, owner := MarkRowStacked(used, tiles, a, b, s, y, g, owner);
      if !accepted {
        VerticalOutcome(a, b, s, g);
        return None;
      }
      SeenVRows(s, y);
    }
    SeenVRows(s, s);
    MarkedAll(used[..], tiles, g, 2 * s, 2 * s, SeenV(s, s, 0), owner);
    VerticalOutcome(a, b, s, g);
    result := Some(ArrayMosaic(tiles));
  }

  /** The stacked join fails exactly when a tile repeats inside `a`,
      inside `b`, or between them. */
  lemma CombineVerticallyRefuses(a: Mosaic, b: Mosaic, s: int)
    requires Shape(a, 2 * s, s) && Shape(b, 2 * s, s)
    ensures CombineVertically(a, b, s).None? <==>
      RepeatsTile(Cells(a, 2 * s, s), 2 * s, s) || RepeatsTile(Cells(b, 2 * s, s), 2 * s, s)
      || SharesTile(Cells(a, 2 * s, s), Cells(b, 2 * s, s), 2 * s, s)
  {
    var ga, gb := Cells(a, 2 * s, s), Cells(b, 2 * s, s);
    if !DistinctTiles(JoinedVertically(ga, gb, s), 2 * s, 2 * s) {
      JoinedVerticallyRepeats(ga, gb, s);
    }
    if RepeatsTile(ga, 2 * s, s) || RepeatsTile(gb, 2 * s, s) || SharesTile(ga, gb, 2 * s, s) {
      JoinedVerticallyKeeps(ga, gb, s);
    }
  }

  /** On success the top half of the square is `a` and the bottom half is
      `b`. */
  lemma CombineVerticallyCells(a: Mosaic, b: Mosaic, s: int)
    requires Shape(a, 2 * s, s) && Shape(b, 2 * s, s) && CombineVertically(a, b, s).Some?
    ensures var m := CombineVertically(a, b, s).value;
      m.ArrayMosaic? && Shape(m, 2 * s, 2 * s) &&
      forall x, y :: 0 <= x < 2 * s && 0 <= y < s ==>
        Get(m, 2 * s, 2 * s, Position(x, y)) == Get(a, 2 * s, s, Position(x, y))
        && Get(m, 2 * s, 2 * s, Position(x, y + s)) == Get(b, 2 * s, s, Position(x, y))
  {
    var g: Grid := JoinedVertically(Cells(a, 2 * s, s), Cells(b, 2 * s, s), s);
    VerticalOutcome(a, b, s, g);
    forall x, y | 0 <= x < 2 * s && 0 <= y < s
      ensures Get(ArrayMosaic(g), 2 * s, 2 * s, Position(x, y)) == Get(a, 2 * s, s, Position(x, y))
      ensures Get(ArrayMosaic(g), 2 * s, 2 * s, Position(x, y + s)) == Get(b, 2 * s, s, Position(x, y))
    {
      StackedCellAt(a, b, s, g, x, y);
    }
  }

  /** Cell `(x, y)` of each rectangle in the stacked grid. */
  lemma StackedCellAt(a: Mosaic, b: Mosaic, s: int, g: Grid, x: int, y: int)
    requires Shape(a, 2 * s, s) && Shape(b, 2 * s, s) && 0 <= x < 2 * s && 0 <= y < s
    requires g == JoinedVertically(Cells(a, 2 * s, s), Cells(b, 2 * s, s), s)
    ensures Get(ArrayMosaic(g), 2 * s, 2 * s, Position(x, y)) == Get(a, 2 * s, s, Position(x, y))
    ensures Get(ArrayMosaic(g), 2 * s, 2 * s, Position(x, y + s)) == Get(b, 2 * s, s, Position(x, y))
  {
    JoinedVerticallyAt(Cells(a, 2 * s, s), Cells(b, 2 * s, s), s, y);
    CellsAt(a, 2 * s, s, x, y);
    CellsAt(b, 2 * s, s, x, y);
  }

  /* ------------------------------------------------ The least tile */

  /** The least of MAX and the cells of `g` before cell `(x, y)` in row
      order. */
  function MinThrough(g: Grid, w: int, h: int, y: int, x: int): RotatedTile
    requires IsGrid(g, w, h) && 0 <= y <= h && 0 <= x <= w && (y == h ==> x == 0)
    decreases y, x
  {
    if x == 0 then
      if y == 0 then MAX else MinThrough(g, w, h, y - 1, w)
    else
      MinRotatedTile(MinThrough(g, w, h, y, x - 1), g[y][x - 1])
  }

  /** The least rotated tile of the mosaic. */
  function MinCell(m: Mosaic, w: int, h: int): RotatedTile
    requires Shape(m, w, h)
  {
    MinThrough(Cells(m, w, h), w, h, h, 0)
  }

  /** `min_rotated_tile`: start from MAX and keep the least cell. */
  method MinRotatedTileOf(m: Mosaic, w: int, h: int) returns (result: RotatedTile)
    requires Shape(m, w, h)
    ensures result == MinCell(m, w, h)
  {
    ghost var g := Cells(m, w, h);
    result := MAX;
    for y := 0 to h
      invariant result == MinThrough(g, w, h, y, 0)
    {
      for x := 0 to w
        invariant result == MinThrough(g, w, h, y, x)
      {
        result := MinRotatedTile(result, Get(m, w, h, Position(x, y)));
      }
    }
  }

  /** The fold is below every visited cell, and is MAX or one of them. */
  lemma {:induction false} MinThroughIsLeast(g: Grid, w: int, h: int, y: int, x: int)
    requires IsGrid(g, w, h) && 0 <= y <= h && 0 <= x <= w && (y == h ==> x == 0)
    ensures forall i, j :: 0 <= i < w && 0 <= j < h && (j < y || (j == y && i < x)) ==>
      RotatedTileLe(MinThrough(g, w, h, y, x), g[j][i])
    ensures MinThrough(g, w, h, y, x) == MAX
      || exists i, j :: 0 <= i < w && 0 <= j < h && (j < y || (j == y && i < x)) && MinThrough(g, w, h, y, x) == g[j][i]
    decreases y, x
  {
    if x == 0 {
      if y > 0 {
        MinThroughIsLeast(g, w, h, y - 1, w);
      }
    } else {
      var before := MinThrough(g, w, h, y, x - 1);
      var cell := g[y][x - 1];
      MinThroughIsLeast(g, w, h, y, x - 1);
      MinRotatedTileIsMin(before, cell);
      forall i, j | 0 <= i < w && 0 <= j < h && (j < y || (j == y && i < x - 1))
        ensures RotatedTileLe(MinThrough(g, w, h, y, x), g[j][i])
      {
        RotatedTileOrder(MinThrough(g, w, h, y, x), before, g[j][i]);
      }
    }
  }

  /** `min_rotated_tile` returns a cell of the mosaic that no cell is
      below. */
  lemma {:induction false} MinCellIsLeast(m: Mosaic, w: int, h: int)
    requires Shape(m, w, h)
    ensures forall x, y :: 0 <= x < w && 0 <= y < h ==> RotatedTileLe(MinCell(m, w, h), Get(m, w, h, Position(x, y)))
    ensures exists x, y :: 0 <= x < w && 0 <= y < h && MinCell(m, w, h) == Get(m, w, h, Position(x, y))
  {
    var g := Cells(m, w, h);
    var least := MinCell(m, w, h);
    MinThroughIsLeast(g, w, h, h, 0);
    forall x, y | 0 <= x < w && 0 <= y < h
      ensures RotatedTileLe(least, Get(m, w, h, Position(x, y)))
    {
      assert g[y][x] == Get(m, w, h, Position(x, y));
    }
    if least == MAX {
      RotatedTileOrder(g[0][0], MAX, g[0][0]);
      assert least == Get(m, w, h, Position(0, 0));
    } else {
      var i, j :| 0 <= i < w && 0 <= j < h && least == g[j][i];
      assert least == Get(m, w, h, Position(i, j));
    }
  }
}
