/** The fixed builds of src/set/mod.rs: `build_rectangles` and
    `build_squares` turn two plain filters into a memo and a memo filter,
    and the six builds choose the filters that keep each doubled mosaic in
    canonical orientation. The center builds break the tie among the many
    orientations of an all-center mosaic by the least rotated tile; that
    tile, taken over the two halves, is the least tile of the spliced
    result. */
module Builds {
  import opened Sides
  import opened Tiles
  import opened Mosaics
  import opened Collections
  import opened Combine
  import opened Join
  import R = Rectangular
  import SS = SquareSets
  import RS = RectangleSets

  /* ---------------------------------------------------- The tie-break */

  /** The least tile of a side-by-side splice is the lesser of the least
      tiles of its halves, which is what the rectangular center build
      computes from its memo and the right view. */
  lemma {:induction false} CombinedLeastH(a: Mosaic, b: Mosaic, s: int)
    requires Shape(a, s, s) && Shape(b, s, s) && CombineHorizontally(a, b, s).Some?
    ensures Shape(CombineHorizontally(a, b, s).value, 2 * s, s)
    ensures MinCell(CombineHorizontally(a, b, s).value, 2 * s, s) == MinRotatedTile(MinCell(a, s, s), MinCell(b, s, s))
  {
    var m := CombineHorizontally(a, b, s).value;
    CombineHorizontallyCells(a, b, s);
    var la, lb, lm := MinCell(a, s, s), MinCell(b, s, s), MinCell(m, 2 * s, s);
    var t := MinRotatedTile(la, lb);
    MinCellIsLeast(a, s, s);
    MinCellIsLeast(b, s, s);
    MinCellIsLeast(m, 2 * s, s);
    MinRotatedTileIsMin(la, lb);
    LeastOfHalvesBelowH(a, b, s, m, t);
    var xa: int, ya: int :| 0 <= xa < s && 0 <= ya < s && la == Get(a, s, s, Position(xa, ya));
    assert RotatedTileLe(lm, la) by {
      assert Get(m, 2 * s, s, Position(xa, ya)) == la;
    }
    CellOfRightHalfH(a, b, s, m, lb);
    RotatedTileOrder(lm, lb, t);
    RotatedTileOrder(lm, la, t);
    RotatedTileOrder(t, lm, t);
  }

  /** The least cell of the splice lies in one of the halves, so the
      lesser of the halves' least tiles is not above it. */
  lemma {:induction false} LeastOfHalvesBelowH(a: Mosaic, b: Mosaic, s: int, m: Mosaic, t: RotatedTile)
    requires Shape(a, s, s) && Shape(b, s, s) && Shape(m, 2 * s, s)
    requires forall x, y :: 0 <= x < s && 0 <= y < s ==>
      Get(m, 2 * s, s, Position(x, y)) == Get(a, s, s, Position(x, y))
      && Get(m, 2 * s, s, Position(x + s, y)) == Get(b, s, s, Position(x, y))
    requires RotatedTileLe(t, MinCell(a, s, s)) && RotatedTileLe(t, MinCell(b, s, s))
    ensures RotatedTileLe(t, MinCell(m, 2 * s, s))
  {
    var lm := MinCell(m, 2 * s, s);
    MinCellIsLeast(m, 2 * s, s);
    MinCellIsLeast(a, s, s);
    MinCellIsLeast(b, s, s);
    var x: int, y: int :| 0 <= x < 2 * s && 0 <= y < s && lm == Get(m, 2 * s, s, Position(x, y));
    if x < s {
      RotatedTileOrder(t, MinCell(a, s, s), lm);
    } else {
      assert Position(x, y) == Position((x - s) + s, y);
      assert lm == Get(b, s, s, Position(x - s, y));
      RotatedTileOrder(t, MinCell(b, s, s), lm);
    }
  }

  /** The right half's least tile is a cell of the splice, so the splice's
      least tile is not above it. */
  lemma {:induction false} CellOfRightHalfH(a: Mosaic, b: Mosaic, s: int, m: Mosaic, lb: RotatedTile)
    requires Shape(a, s, s) && Shape(b, s, s) && Shape(m, 2 * s, s) && lb == MinCell(b, s, s)
    requires forall x, y :: 0 <= x < s && 0 <= y < s ==>
      Get(m, 2 * s, s, Position(x + s, y)) == Get(b, s, s, Position(x, y))
    ensures RotatedTileLe(MinCell(m, 2 * s, s), lb)
  {
    MinCellIsLeast(b, s, s);
    MinCellIsLeast(m, 2 * s, s);
    var x: int, y: int :| 0 <= x < s && 0 <= y < s && lb == Get(b, s, s, Position(x, y));
    assert Get(m, 2 * s, s, Position(x + s, y)) == lb;
  }

  /** The least tile of a stacked splice is the lesser of the least tiles
      of its halves, which is what the square center build computes. */
  lemma {:induction false} CombinedLeastV(a: Mosaic, b: Mosaic, s: int)
    requires Shape(a, 2 * s, s) && Shape(b, 2 * s, s) && CombineVertically(a, b, s).Some?
    ensures Shape(CombineVertically(a, b, s).value, 2 * s, 2 * s)
    ensures MinCell(CombineVertically(a, b, s).value, 2 * s, 2 * s) == MinRotatedTile(MinCell(a, 2 * s, s), MinCell(b, 2 * s, s))
  {
    var m := CombineVertically(a, b, s).value;
    CombineVerticallyCells(a, b, s);
    var la, lb, lm := MinCell(a, 2 * s, s), MinCell(b, 2 * s, s), MinCell(m, 2 * s, 2 * s);
    var t := MinRotatedTile(la, lb);
    MinCellIsLeast(a, 2 * s, s);
    MinCellIsLeast(b, 2 * s, s);
    MinCellIsLeast(m, 2 * s, 2 * s);
    MinRotatedTileIsMin(la, lb);
    LeastOfHalvesBelowV(a, b, s, m, t);
    var xa: int, ya: int :| 0 <= xa < 2 * s && 0 <= ya < s && la == Get(a, 2 * s, s, Position(xa, ya));
    assert RotatedTileLe(lm, la) by {
      assert Get(m, 2 * s, 2 * s, Position(xa, ya)) == la;
    }
    CellOfLowerHalfV(a, b, s, m, lb);
    RotatedTileOrder(lm, lb, t);
    RotatedTileOrder(lm, la, t);
    RotatedTileOrder(t, lm, t);
  }

  /** The least cell of the stacked splice lies in one of the halves. */
  lemma {:induction false} LeastOfHalvesBelowV(a: Mosaic, b: Mosaic, s: int, m: Mosaic, t: RotatedTile)
    requires Shape(a, 2 * s, s) && Shape(b, 2 * s, s) && Shape(m, 2 * s, 2 * s)
    requires forall x, y :: 0 <= x < 2 * s && 0 <= y < s ==>
      Get(m, 2 * s, 2 * s, Position(x, y)) == Get(a, 2 * s, s, Position(x, y))
      && Get(m, 2 * s, 2 * s, Position(x, y + s)) == Get(b, 2 * s, s, Position(x, y))
    requires RotatedTileLe(t, MinCell(a, 2 * s, s)) && RotatedTileLe(t, MinCell(b, 2 * s, s))
    ensures RotatedTileLe(t, MinCell(m, 2 * s, 2 * s))
  {
    var lm := MinCell(m, 2 * s, 2 * s);
    MinCellIsLeast(m, 2 * s, 2 * s);
    MinCellIsLeast(a, 2 * s, s);
    MinCellIsLeast(b, 2 * s, s);
    var x: int, y: int :| 0 <= x < 2 * s && 0 <= y < 2 * s && lm == Get(m, 2 * s, 2 * s, Position(x, y));
    if y < s {
      RotatedTileOrder(t, MinCell(a, 2 * s, s), lm);
    } else {
      assert Position(x, y) == Position(x, (y - s) + s);
      assert lm == Get(b, 2 * s, s, Position(x, y - s));
      RotatedTileOrder(t, MinCell(b, 2 * s, s), lm);
    }
  }

  /** The lower half's least tile is a cell of the stacked splice. */
  lemma {:induction false} CellOfLowerHalfV(a: Mosaic, b: Mosaic, s: int, m: Mosaic, lb: RotatedTile)
    requires Shape(a, 2 * s, s) && Shape(b, 2 * s, s) && Shape(m, 2 * s, 2 * s) && lb == MinCell(b, 2 * s, s)
    requires forall x, y :: 0 <= x < 2 * s && 0 <= y < s ==>
      Get(m, 2 * s, 2 * s, Position(x, y + s)) == Get(b, 2 * s, s, Position(x, y))
    ensures RotatedTileLe(MinCell(m, 2 * s, 2 * s), lb)
  {
    MinCellIsLeast(b, 2 * s, s);
    MinCellIsLeast(m, 2 * s, 2 * s);
    var x: int, y: int :| 0 <= x < 2 * s && 0 <= y < s && lb == Get(b, 2 * s, s, Position(x, y));
    assert Get(m, 2 * s, 2 * s, Position(x, y + s)) == lb;
  }

  /* ------------------------------------------------- Filter wrappers */

  /** `build_rectangles`: the memo is present exactly when the left filter
      accepts, and the right filter ignores it. */
  method BuildRectangles(aSet: SS.SquareMosaicSet, aFilter: Mosaic --> bool,
                         bSet: SS.SquareMosaicSet, bFilter: Mosaic --> bool)
    returns (items: seq<Mosaic>, ghost pairs: seq<SquarePair>)
    requires aSet.Valid() && bSet.Valid() && aSet.n == bSet.n
    requires forall m :: Shape(m, aSet.n, aSet.n) ==> aFilter.requires(m)
    requires forall m :: Shape(m, aSet.n, aSet.n) ==> bFilter.requires(m)
    ensures ProducedH(pairs, items, aSet.n) && NoDuplicates(pairs)
    ensures forall p :: p in pairs <==>
      MatchesH(aSet.mosaics, bSet.mosaics, aSet.n, p) && aFilter(p.a.view) && bFilter(p.b.view)
  {
    var aMemo := (a: Mosaic) requires aFilter.requires(a) => if aFilter(a) then Some(()) else None;
    var bMemoFilter := (u: (), b: Mosaic) requires bFilter.requires(b) => bFilter(b);
    items, pairs := BuildRectanglesMemo(aSet, aMemo, bSet, bMemoFilter);
  }

  /** `build_squares`: the same for the stacked join. */
  method BuildSquares(aSet: RS.RectangularMosaicSet, aFilter: Mosaic --> bool,
                      bSet: RS.RectangularMosaicSet, bFilter: Mosaic --> bool)
    returns (items: seq<Mosaic>, ghost pairs: seq<RectPair>)
    requires aSet.Valid() && bSet.Valid() && aSet.w == 2 * aSet.h && bSet.w == aSet.w && bSet.h == aSet.h
    requires forall m :: Shape(m, 2 * aSet.h, aSet.h) ==> aFilter.requires(m)
    requires forall m :: Shape(m, 2 * aSet.h, aSet.h) ==> bFilter.requires(m)
    ensures ProducedV(pairs, items, aSet.h) && NoDuplicates(pairs)
    ensures forall p :: p in pairs <==>
      MatchesV(aSet.mosaics, bSet.mosaics, aSet.h, p) && aFilter(p.a.view) && bFilter(p.b.view)
  {
    var aMemo := (a: Mosaic) requires aFilter.requires(a) => if aFilter(a) then Some(()) else None;
    var bMemoFilter := (u: (), b: Mosaic) requires bFilter.requires(b) => bFilter(b);
    items, pairs := BuildSquaresMemo(aSet, aMemo, bSet, bMemoFilter);
  }

  /* ------------------------------------------------- The six builds */

  /** `build_rectangular_corners`: a corner in canonical orientation on the
      left, an edge turned a quarter right on the right. */
  method BuildRectangularCorners(corners: SS.SquareMosaicSet, edges: SS.SquareMosaicSet)
    returns (items: seq<Mosaic>, ghost pairs: seq<SquarePair>)
    requires corners.Valid() && edges.Valid() && corners.n == edges.n
    ensures ProducedH(pairs, items, corners.n) && NoDuplicates(pairs)
    ensures forall p :: p in pairs <==>
      MatchesH(corners.mosaics, edges.mosaics, corners.n, p)
      && p.a.view.rotation == Identity && p.b.view.rotation == QuarterTurnRight
  {
    items, pairs := BuildRectangles(corners, (a: Mosaic) => a.RotatedSquareMosaic? && a.rotation == Identity,
                                    edges, (b: Mosaic) => b.RotatedSquareMosaic? && b.rotation == QuarterTurnRight);
  }

  /** `build_rectangular_edges`: an edge in canonical orientation on the
      left, a center in any orientation on the right. */
  method BuildRectangularEdges(edges: SS.SquareMosaicSet, centers: SS.SquareMosaicSet)
    returns (items: seq<Mosaic>, ghost pairs: seq<SquarePair>)
    requires edges.Valid() && centers.Valid() && edges.n == centers.n
    ensures ProducedH(pairs, items, edges.n) && NoDuplicates(pairs)
    ensures forall p :: p in pairs <==>
      MatchesH(edges.mosaics, centers.mosaics, edges.n, p) && p.a.view.rotation == Identity
  {
    items, pairs := BuildRectangles(edges, (a: Mosaic) => a.RotatedSquareMosaic? && a.rotation == Identity,
                                    centers, (b: Mosaic) => true);
  }

  /** `build_rectangular_centers`: two centers in any orientation, kept
      only when the least tile of the pair sits in canonical orientation
      or a quarter turn left of it; so every rectangle produced has its
      least tile in one of those two orientations. */
  method BuildRectangularCenters(centers: SS.SquareMosaicSet)
    returns (items: seq<Mosaic>, ghost pairs: seq<SquarePair>)
    requires centers.Valid()
    ensures ProducedH(pairs, items, centers.n) && NoDuplicates(pairs)
    ensures forall p :: p in pairs <==>
      MatchesH(centers.mosaics, centers.mosaics, centers.n, p)
      && var least := MinRotatedTile(MinCell(p.a.view, centers.n, centers.n), MinCell(p.b.view, centers.n, centers.n));
         least.rotation == Identity || least.rotation == QuarterTurnLeft
    ensures forall i :: 0 <= i < |items| ==>
      Shape(items[i], 2 * centers.n, centers.n)
      && (MinCell(items[i], 2 * centers.n, centers.n).rotation == Identity
          || MinCell(items[i], 2 * centers.n, centers.n).rotation == QuarterTurnLeft)
  {
    var s := centers.n;
    var aMemo := (a: Mosaic) requires Shape(a, s, s) => Some(MinCell(a, s, s));
    var bFilter := (aLeast: RotatedTile, b: Mosaic) requires Shape(b, s, s) =>
      var least := MinRotatedTile(aLeast, MinCell(b, s, s));
      least.rotation == Identity || least.rotation == QuarterTurnLeft;
    items, pairs := BuildRectanglesMemo(centers, aMemo, centers, bFilter);
    forall i | 0 <= i < |items|
      ensures Shape(items[i], 2 * s, s)
      ensures MinCell(items[i], 2 * s, s).rotation == Identity || MinCell(items[i], 2 * s, s).rotation == QuarterTurnLeft
    {
      assert pairs[i] in pairs;
      CombinedLeastH(pairs[i].a.view, pairs[i].b.view, s);
    }
  }

  /** `build_square_corners`: a rectangular corner above a rectangular edge,
      both in canonical orientation. */
  method BuildSquareCorners(corners: RS.RectangularMosaicSet, edges: RS.RectangularMosaicSet)
    returns (items: seq<Mosaic>, ghost pairs: seq<RectPair>)
    requires corners.Valid() && edges.Valid()
    requires corners.w == 2 * corners.h && edges.w == corners.w && edges.h == corners.h
    ensures ProducedV(pairs, items, corners.h) && NoDuplicates(pairs)
    ensures forall p :: p in pairs <==>
      MatchesV(corners.mosaics, edges.mosaics, corners.h, p)
      && p.a.view.rectangularRotation == R.Identity && p.b.view.rectangularRotation == R.Identity
  {
    items, pairs := BuildSquares(corners, (a: Mosaic) => a.RotatedRectangularMosaic? && a.rectangularRotation == R.Identity,
                                 edges, (b: Mosaic) => b.RotatedRectangularMosaic? && b.rectangularRotation == R.Identity);
  }

  /** `build_square_edges`: two rectangular edges, one above the other,
      both in canonical orientation. */
  method BuildSquareEdges(edges: RS.RectangularMosaicSet)
    returns (items: seq<Mosaic>, ghost pairs: seq<RectPair>)
    requires edges.Valid() && edges.w == 2 * edges.h
    ensures ProducedV(pairs, items, edges.h) && NoDuplicates(pairs)
    ensures forall p :: p in pairs <==>
      MatchesV(edges.mosaics, edges.mosaics, edges.h, p)
      && p.a.view.rectangularRotation == R.Identity && p.b.view.rectangularRotation == R.Identity
  {
    items, pairs := BuildSquares(edges, (a: Mosaic) => a.RotatedRectangularMosaic? && a.rectangularRotation == R.Identity,
                                 edges, (b: Mosaic) => b.RotatedRectangularMosaic? && b.rectangularRotation == R.Identity);
  }

  /** `build_square_centers`: two rectangular centers in any orientation,
      kept only when the least tile of the pair sits in canonical
      orientation; so every square produced has its least tile in
      canonical orientation. */
  method BuildSquareCenters(centers: RS.RectangularMosaicSet)
    returns (items: seq<Mosaic>, ghost pairs: seq<RectPair>)
    requires centers.Valid() && centers.w == 2 * centers.h
    ensures ProducedV(pairs, items, centers.h) && NoDuplicates(pairs)
    ensures forall p :: p in pairs <==>
      MatchesV(centers.mosaics, centers.mosaics, centers.h, p)
      && MinRotatedTile(MinCell(p.a.view, centers.w, centers.h), MinCell(p.b.view, centers.w, centers.h)).rotation == Identity
    ensures forall i :: 0 <= i < |items| ==>
      Shape(items[i], centers.w, centers.w) && MinCell(items[i], centers.w, centers.w).rotation == Identity
  {
    var s := centers.h;
    var aMemo := (a: Mosaic) requires Shape(a, 2 * s, s) => Some(MinCell(a, 2 * s, s));
    var bFilter := (aLeast: RotatedTile, b: Mosaic) requires Shape(b, 2 * s, s) =>
      MinRotatedTile(aLeast, MinCell(b, 2 * s, s)).rotation == Identity;
    items, pairs := BuildSquaresMemo(centers, aMemo, centers, bFilter);
    forall i | 0 <= i < |items|
      ensures Shape(items[i], 2 * s, 2 * s) && MinCell(items[i], 2 * s, 2 * s).rotation == Identity
    {
      assert pairs[i] in pairs;
      CombinedLeastV(pairs[i].a.view, pairs[i].b.view, s);
    }
  }
}
