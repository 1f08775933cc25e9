/** The canonical classes of single pieces and the 1x1 mosaic sets built
    from them (`src/set/mod.rs`, `is_canonical_*` and `build_1x1_sets*`).
    A corner piece is kept only in the rotation that puts its exterior
    sides on the top and the left, an edge piece only with its exterior side
    on the left, and a center piece only unrotated. */
module Canonical {
  import opened Sides
  import opened Catalog
  import opened Tiles
  import opened Mosaics
  import opened SquareSets

  /** The exterior sides of a corner in canonical orientation: top and left. */
  const CORNER_MASK: ExteriorMask := ExteriorMask(false, true, true, false)

  /** The exterior side of an edge in canonical orientation: the left. */
  const EDGE_MASK: ExteriorMask := ExteriorMask(false, false, true, false)

  predicate IsCanonicalCorner(rt: RotatedTile)
  {
    ExteriorMaskOf(rt) == CORNER_MASK
  }

  predicate IsCanonicalEdge(rt: RotatedTile)
  {
    ExteriorMaskOf(rt) == EDGE_MASK
  }

  predicate IsCanonicalCenter(rt: RotatedTile)
  {
    ExteriorMaskOf(rt) == EMPTY_MASK && rt.rotation == Identity
  }

  /** The set a rotated tile goes to: the first canonical predicate it
      satisfies, in the order the build loops test them. */
  datatype PieceClass = CornerPiece | EdgePiece | CenterPiece | Discarded

  function Classify(rt: RotatedTile): PieceClass
  {
    if IsCanonicalCorner(rt) then CornerPiece
    else if IsCanonicalEdge(rt) then EdgePiece
    else if IsCanonicalCenter(rt) then CenterPiece
    else Discarded
  }

  /** The three canonical predicates never hold together, so the order in
      which the loops test them does not matter. */
  lemma CanonicalExclusive(rt: RotatedTile)
    ensures !(IsCanonicalCorner(rt) && IsCanonicalEdge(rt))
    ensures !(IsCanonicalCorner(rt) && IsCanonicalCenter(rt))
    ensures !(IsCanonicalEdge(rt) && IsCanonicalCenter(rt))
    ensures IsCanonicalCorner(rt) <==> Classify(rt) == CornerPiece
    ensures IsCanonicalEdge(rt) <==> Classify(rt) == EdgePiece
    ensures IsCanonicalCenter(rt) <==> Classify(rt) == CenterPiece
  {
  }

  /** A piece has at most one canonical orientation: two rotations of one
      tile in the same canonical class are the same rotation. */
  lemma CanonicalRotationUnique(t: Tile, r1: Rotation, r2: Rotation)
    requires Classify(RotatedTile(t, r1)) == Classify(RotatedTile(t, r2)) != Discarded
    ensures r1 == r2
  {
    var d := Add(r2, Add(r1, Add(r1, r1)));
    assert Add(r1, d) == r2;
    var rt := RotatedTile(t, r1);
    assert AddRotation(rt, d) == RotatedTile(t, r2);
    ExteriorMaskRotates(rt, d, Left);
    ExteriorMaskRotates(rt, d, Top);
  }

  /* --------------------------------------------------- The enumeration */

  /** The rotations among the first `k` of `Rotation::iter()` under which
      tile `t` is of class `c`, as rotated tiles in that order. */
  function RotSel(c: PieceClass, t: Tile, k: int): seq<RotatedTile>
    requires 0 <= k <= 4
  {
    if k == 0 then []
    else
      var rt := RotatedTile(t, AllRotations[k - 1]);
      RotSel(c, t, k - 1) + (if Classify(rt) == c then [rt] else [])
  }

  /** What the build loops take from tile `t` for class `c`: nothing for a
      skipped tile id, otherwise its rotations of class `c`. */
  function TileSelection(c: PieceClass, skip: seq<int>, t: Tile): seq<RotatedTile>
  {
    if t as int in skip then [] else RotSel(c, t, 4)
  }

  /** The rotated tiles of class `c` that the build loops collect from
      tiles `0 .. n`, in insertion order. */
  function SelectedTiles(c: PieceClass, skip: seq<int>, n: int): seq<RotatedTile>
    requires 0 <= n <= 256
  {
    if n == 0 then [] else SelectedTiles(c, skip, n - 1) + TileSelection(c, skip, (n - 1) as Tile)
  }

  /** The 1x1 mosaic holding `rt`. */
  function Single(rt: RotatedTile): (m: Mosaic)
    ensures Shape(m, 1, 1) && Get(m, 1, 1, Position(0, 0)) == rt
  {
    ArrayMosaic([[rt]])
  }

  function Singles(ts: seq<RotatedTile>): (ms: seq<Mosaic>)
    ensures |ms| == |ts| && forall i :: 0 <= i < |ts| ==> ms[i] == Single(ts[i])
  {
    seq(|ts|, i requires 0 <= i < |ts| => Single(ts[i]))
  }

  lemma SinglesConcat(a: seq<RotatedTile>, b: seq<RotatedTile>)
    ensures Singles(a + b) == Singles(a) + Singles(b)
  {
  }

  /** The rotations of one tile selected for a class: each is of that
      class, and every rotation of that class is selected. */
  lemma {:induction false} RotSelMembers(c: PieceClass, t: Tile, k: int)
    requires 0 <= k <= 4
    ensures forall rt :: rt in RotSel(c, t, k) <==>
      rt.tile == t && RotationToInt(rt.rotation) < k && Classify(rt) == c
  {
    if k > 0 {
      RotSelMembers(c, t, k - 1);
      var last := RotatedTile(t, AllRotations[k - 1]);
      var tail := if Classify(last) == c then [last] else [];
      assert RotSel(c, t, k) == RotSel(c, t, k - 1) + tail;
      forall rt: RotatedTile
        ensures rt in RotSel(c, t, k) <==> rt.tile == t && RotationToInt(rt.rotation) < k && Classify(rt) == c
      {
        assert rt in RotSel(c, t, k) <==> rt in RotSel(c, t, k - 1) || rt in tail;
        assert RotationToInt(rt.rotation) == k - 1 <==> rt.rotation == AllRotations[k - 1];
      }
    }
  }

  /** A tile gives at most one rotated tile to a canonical class. */
  lemma {:induction false} RotSelAtMostOne(c: PieceClass, t: Tile)
    requires c != Discarded
    ensures |RotSel(c, t, 4)| <= 1
  {
    var s := RotSel(c, t, 4);
    RotSelMembers(c, t, 4);
    if |s| > 1 {
      assert s[0] in s && s[1] in s;
      RotSelNoRepeat(c, t, 4);
      CanonicalRotationUnique(t, s[0].rotation, s[1].rotation);
    }
  }

  /** A rotation is selected at most once. */
  lemma {:induction false} RotSelNoRepeat(c: PieceClass, t: Tile, k: int)
    requires 0 <= k <= 4
    ensures forall i, j :: 0 <= i < j < |RotSel(c, t, k)| ==> RotSel(c, t, k)[i] != RotSel(c, t, k)[j]
  {
    if k > 0 {
      RotSelNoRepeat(c, t, k - 1);
      RotSelMembers(c, t, k - 1);
    }
  }

  /** The selection holds exactly the rotated tiles of class `c` whose tile
      is below `n` and not skipped. */
  lemma {:induction false} SelectedTilesMembers(c: PieceClass, skip: seq<int>, n: int)
    requires 0 <= n <= 256
    ensures forall rt :: rt in SelectedTiles(c, skip, n) <==>
      (rt.tile as int) < n && rt.tile as int !in skip && Classify(rt) == c
  {
    if n > 0 {
      SelectedTilesMembers(c, skip, n - 1);
      RotSelMembers(c, (n - 1) as Tile, 4);
    }
  }

  /** Each tile occurs at most once in a class's selection: the 1x1 sets
      hold one orientation per piece. */
  lemma {:induction false} SelectedTilesDistinct(c: PieceClass, skip: seq<int>, n: int)
    requires 0 <= n <= 256 && c != Discarded
    ensures forall i, j :: 0 <= i < j < |SelectedTiles(c, skip, n)| ==>
      SelectedTiles(c, skip, n)[i].tile != SelectedTiles(c, skip, n)[j].tile
  {
    if n > 0 {
      SelectedTilesDistinct(c, skip, n - 1);
      SelectedTilesMembers(c, skip, n - 1);
      RotSelAtMostOne(c, (n - 1) as Tile);
      RotSelMembers(c, (n - 1) as Tile, 4);
      var prefix: seq<RotatedTile> := SelectedTiles(c, skip, n - 1);
      var last: seq<RotatedTile> := TileSelection(c, skip, (n - 1) as Tile);
      forall i, j | 0 <= i < j < |prefix + last|
        ensures (prefix + last)[i].tile != (prefix + last)[j].tile
      {
        if j >= |prefix| {
          assert i < |prefix| && (prefix + last)[j] in last;
          assert prefix[i] in prefix;
        }
      }
    }
  }

  /* ------------------------------------------------------- The builders */

  /** Three valid 1x1 sets whose members are the 1x1 mosaics of `cs`, `es`
      and `ns`. */
  ghost predicate Holds(corners: SquareMosaicSet, edges: SquareMosaicSet, centers: SquareMosaicSet,
                        cs: seq<RotatedTile>, es: seq<RotatedTile>, ns: seq<RotatedTile>)
    reads corners, edges, centers
  {
    corners.Valid() && edges.Valid() && centers.Valid()
    && corners.n == 1 && edges.n == 1 && centers.n == 1
    && corners.mosaics == Singles(cs) && edges.mosaics == Singles(es) && centers.mosaics == Singles(ns)
  }

  /** One step of the build loops: insert `rt` into the set of the first
      canonical predicate it satisfies, if any. */
  method Place(corners: SquareMosaicSet, edges: SquareMosaicSet, centers: SquareMosaicSet, rt: RotatedTile,
               ghost cs: seq<RotatedTile>, ghost es: seq<RotatedTile>, ghost ns: seq<RotatedTile>)
    requires corners != edges && corners != centers && edges != centers
    requires Holds(corners, edges, centers, cs, es, ns)
    modifies corners, edges, centers
    ensures Holds(corners, edges, centers,
                  cs + (if Classify(rt) == CornerPiece then [rt] else []),
                  es + (if Classify(rt) == EdgePiece then [rt] else []),
                  ns + (if Classify(rt) == CenterPiece then [rt] else []))
  {
    SinglesConcat(cs, [rt]);
    SinglesConcat(es, [rt]);
    SinglesConcat(ns, [rt]);
    if IsCanonicalCorner(rt) {
      corners.Insert(Single(rt));
    } else if IsCanonicalEdge(rt) {
      edges.Insert(Single(rt));
    } else if IsCanonicalCenter(rt) {
      centers.Insert(Single(rt));
    }
  }

  /** One more rotation extends the selection by that rotation, if it is
      of the class. */
  lemma RotSelStep(prefix: seq<RotatedTile>, c: PieceClass, t: Tile, k: int)
    requires 0 <= k < 4
    ensures var rt := RotatedTile(t, AllRotations[k]);
      prefix + RotSel(c, t, k + 1) == prefix + RotSel(c, t, k) + (if Classify(rt) == c then [rt] else [])
  {
  }

  /** One turn of the rotation loop: rotation `k` of `tile` is placed. */
  method PlaceRotation(corners: SquareMosaicSet, edges: SquareMosaicSet, centers: SquareMosaicSet, tile: Tile, k: int,
                       ghost cs: seq<RotatedTile>, ghost es: seq<RotatedTile>, ghost ns: seq<RotatedTile>)
    requires 0 <= k < 4
    requires corners != edges && corners != centers && edges != centers
    requires Holds(corners, edges, centers, cs + RotSel(CornerPiece, tile, k), es + RotSel(EdgePiece, tile, k),
                   ns + RotSel(CenterPiece, tile, k))
    modifies corners, edges, centers
    ensures Holds(corners, edges, centers, cs + RotSel(CornerPiece, tile, k + 1), es + RotSel(EdgePiece, tile, k + 1),
                  ns + RotSel(CenterPiece, tile, k + 1))
  {
    var rotatedTile := RotatedTile(tile, AllRotations[k]);
    RotSelStep(cs, CornerPiece, tile, k);
    RotSelStep(es, EdgePiece, tile, k);
    RotSelStep(ns, CenterPiece, tile, k);
    Place(corners, edges, centers, rotatedTile,
          cs + RotSel(CornerPiece, tile, k), es + RotSel(EdgePiece, tile, k), ns + RotSel(CenterPiece, tile, k));
  }

  /** The rotation loop for one tile. */
  method PlaceRotations(corners: SquareMosaicSet, edges: SquareMosaicSet, centers: SquareMosaicSet, tile: Tile,
                        ghost cs: seq<RotatedTile>, ghost es: seq<RotatedTile>, ghost ns: seq<RotatedTile>)
    requires corners != edges && corners != centers && edges != centers
    requires Holds(corners, edges, centers, cs, es, ns)
    modifies corners, edges, centers
    ensures Holds(corners, edges, centers, cs + RotSel(CornerPiece, tile, 4), es + RotSel(EdgePiece, tile, 4),
                  ns + RotSel(CenterPiece, tile, 4))
  {
    assert cs + RotSel(CornerPiece, tile, 0) == cs && es + RotSel(EdgePiece, tile, 0) == es
      && ns + RotSel(CenterPiece, tile, 0) == ns;
    for k := 0 to 4
      invariant Holds(corners, edges, centers, cs + RotSel(CornerPiece, tile, k), es + RotSel(EdgePiece, tile, k),
                      ns + RotSel(CenterPiece, tile, k))
    {
      PlaceRotation(corners, edges, centers, tile, k, cs, es, ns);
    }
  }

  /** The contents the build loops leave in the three sets after tiles
      `0 .. n`. */
  ghost predicate Classified(corners: SquareMosaicSet, edges: SquareMosaicSet, centers: SquareMosaicSet, skip: seq<int>, n: int)
    requires 0 <= n <= 256
    reads corners, edges, centers
  {
    Holds(corners, edges, centers,
          SelectedTiles(CornerPiece, skip, n), SelectedTiles(EdgePiece, skip, n), SelectedTiles(CenterPiece, skip, n))
  }

  /** The loop both 1x1 builders share: every tile id not in `skip`, under
      every rotation, goes into the set of its canonical class. */
  method ClassifyTiles(corners: SquareMosaicSet, edges: SquareMosaicSet, centers: SquareMosaicSet, skip: seq<int>)
    requires corners != edges && corners != centers && edges != centers
    requires Classified(corners, edges, centers, skip, 0)
    modifies corners, edges, centers
    ensures Classified(corners, edges, centers, skip, 256)
  {
    for tileId := 0 to 256
      invariant Classified(corners, edges, centers, skip, tileId)
    {
      if tileId !in skip {
        PlaceRotations(corners, edges, centers, tileId as Tile, SelectedTiles(CornerPiece, skip, tileId),
                       SelectedTiles(EdgePiece, skip, tileId), SelectedTiles(CenterPiece, skip, tileId));
      }
    }
  }

  /** `build_1x1_sets`: the canonical corners, edges and centers of the
      whole catalog as 1x1 mosaics. */
  method Build1x1Sets() returns (corners: SquareMosaicSet, edges: SquareMosaicSet, centers: SquareMosaicSet)
    ensures fresh(corners) && fresh(edges) && fresh(centers)
    ensures corners != edges && corners != centers && edges != centers
    ensures Classified(corners, edges, centers, [], 256)
  {
    corners := new SquareMosaicSet(1);
    edges := new SquareMosaicSet(1);
    centers := new SquareMosaicSet(1);
    ClassifyTiles(corners, edges, centers, []);
  }

  /** The tile ids of the five clue pieces. */
  const CLUE_TILE_IDS: seq<int> := [76, 125, 135, 179, 211]

  /** The five clue pieces in their fixed orientations, at board cells
      c3, c14, i8, n3 and n14. */
  const CLUE_C3: RotatedTile := RotatedTile(76, Identity)
  const CLUE_C14: RotatedTile := RotatedTile(179, QuarterTurnLeft)
  const CLUE_I8: RotatedTile := RotatedTile(135, Identity)
  const CLUE_N3: RotatedTile := RotatedTile(211, HalfTurn)
  const CLUE_N14: RotatedTile := RotatedTile(125, QuarterTurnRight)

  /** A set holding the one 1x1 mosaic of `rt`. */
  method SingletonSet(rt: RotatedTile) returns (set1: SquareMosaicSet)
    ensures fresh(set1) && set1.Valid() && set1.n == 1 && set1.mosaics == [Single(rt)]
  {
    set1 := new SquareMosaicSet(1);
    set1.Insert(Single(rt));
  }

  /** `build_1x1_sets_with_clues`: the canonical sets without the clue
      tiles, then one singleton set per clue. */
  method Build1x1SetsWithClues()
    returns (corners: SquareMosaicSet, edges: SquareMosaicSet, centers: SquareMosaicSet,
             c3: SquareMosaicSet, c14: SquareMosaicSet, i8: SquareMosaicSet, n3: SquareMosaicSet, n14: SquareMosaicSet)
    ensures fresh(corners) && fresh(edges) && fresh(centers)
    ensures corners != edges && corners != centers && edges != centers
    ensures Classified(corners, edges, centers, CLUE_TILE_IDS, 256)
    ensures c3.Valid() && c3.n == 1 && c3.mosaics == [Single(CLUE_C3)]
    ensures c14.Valid() && c14.n == 1 && c14.mosaics == [Single(CLUE_C14)]
    ensures i8.Valid() && i8.n == 1 && i8.mosaics == [Single(CLUE_I8)]
    ensures n3.Valid() && n3.n == 1 && n3.mosaics == [Single(CLUE_N3)]
    ensures n14.Valid() && n14.n == 1 && n14.mosaics == [Single(CLUE_N14)]
  {
    corners := new SquareMosaicSet(1);
    edges := new SquareMosaicSet(1);
    centers := new SquareMosaicSet(1);
    ClassifyTiles(corners, edges, centers, CLUE_TILE_IDS);
    c3 := SingletonSet(CLUE_C3);
    c14 := SingletonSet(CLUE_C14);
    i8 := SingletonSet(CLUE_I8);
    n3 := SingletonSet(CLUE_N3);
    n14 := SingletonSet(CLUE_N14);
  }

  /** The sets built beside the clue sets never hold a clue tile, and hold
      every other piece of their class. */
  lemma {:induction false} CluesAreSetApart(c: PieceClass)
    ensures forall rt :: rt in SelectedTiles(c, CLUE_TILE_IDS, 256) <==> rt.tile as int !in CLUE_TILE_IDS && Classify(rt) == c
  {
    SelectedTilesMembers(c, CLUE_TILE_IDS, 256);
  }
}
