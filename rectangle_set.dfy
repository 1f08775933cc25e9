/** `RectangularMosaicSet` (src/set/rectangle.rs): a list of `w` by `h`
    mosaics with two indexes. A rectangle has two rotations, so every
    member is filed twice in each index: under the right edge of the
    member turned by each rotation, and under its top edge. A query for a
    vertical side uses the first index, one for a horizontal side the
    second, and turns the stored rotation so that the matching edge lands
    on the side asked for. */
module RectangleSets {
  import opened Sides
  import opened Tiles
  import opened Edges
  import opened Mosaics
  import opened Collections
  import R = Rectangular

  /** `RotatedRectangularMosaicIndex`: a member's position and a
      rectangular rotation. */
  datatype RectEntry = RectEntry(slot: nat, rotation: R.RectangularRotation)

  /** One item a query yields: the member's position and the view of the
      member that the query hands out. */
  datatype RectMatch = RectMatch(slot: nat, view: Mosaic)

  type RectIndex = map<Edge, set<RectEntry>>

  /** Every mosaic of the list is `w` by `h`. */
  predicate AllShaped(ms: seq<Mosaic>, w: int, h: int)
  {
    forall i :: 0 <= i < |ms| ==> Shape(ms[i], w, h)
  }

  /** The key a member is filed under for rotation `r` in the index of side
      `s` (Right or Top): that edge of the member turned by `r`. */
  function KeyOf(m: Mosaic, w: int, h: int, r: R.RectangularRotation, s: Side): Edge
    requires Shape(m, w, h)
  {
    SideEdge(RotatedRectangularMosaic(m, r), w, h, s)
  }

  /** Member `m`, at position `i`, turned by `r` is filed under its key. */
  predicate Listed(idx: RectIndex, m: Mosaic, w: int, h: int, s: Side, i: nat, r: R.RectangularRotation)
    requires Shape(m, w, h)
  {
    var e := KeyOf(m, w, h, r, s);
    e in idx && RectEntry(i, r) in idx[e]
  }

  /** Every entry names a member whose key is the edge it is filed under. */
  predicate IndexSound(idx: RectIndex, ms: seq<Mosaic>, w: int, h: int, s: Side)
    requires AllShaped(ms, w, h)
  {
    forall e: Edge, q: RectEntry :: e in idx && q in idx[e] ==> q.slot < |ms| && KeyOf(ms[q.slot], w, h, q.rotation, s) == e
  }

  /** Members `0 .. hi` are filed under both rotations. */
  predicate IndexCovers(idx: RectIndex, ms: seq<Mosaic>, w: int, h: int, s: Side, hi: int)
    requires AllShaped(ms, w, h) && hi <= |ms|
  {
    forall i, r :: 0 <= i < hi ==> Listed(idx, ms[i], w, h, s, i, r)
  }

  /** A key is only ever created together with its first entry. */
  predicate NoEmptyBuckets(idx: RectIndex)
  {
    forall e :: e in idx ==> idx[e] != {}
  }

  /** `idx` is the index of side `s` of the list `ms`. */
  predicate IsEdgeIndex(idx: RectIndex, ms: seq<Mosaic>, w: int, h: int, s: Side)
    requires AllShaped(ms, w, h)
  {
    NoEmptyBuckets(idx) && IndexSound(idx, ms, w, h, s) && IndexCovers(idx, ms, w, h, s, |ms|)
  }

  /** Two indexes of side `s` of the same list are the same map: each of
      the right-edge and top-edge indexes is a function of the members, so
      `insert` and `extend` determine the whole new state by the members
      they leave. */
  lemma IndexIsDetermined(a: RectIndex, b: RectIndex, ms: seq<Mosaic>, w: int, h: int, s: Side)
    requires AllShaped(ms, w, h) && IsEdgeIndex(a, ms, w, h, s) && IsEdgeIndex(b, ms, w, h, s)
    ensures a == b
  {
    forall e, q | e in a && q in a[e]
      ensures e in b && q in b[e]
    {
      assert Listed(b, ms[q.slot], w, h, s, q.slot, q.rotation);
    }
    forall e, q | e in b && q in b[e]
      ensures e in a && q in a[e]
    {
      assert Listed(a, ms[q.slot], w, h, s, q.slot, q.rotation);
    }
    forall e | e in a
      ensures e in b
    {
      var q :| q in a[e];
    }
    forall e | e in b
      ensures e in a
    {
      var q :| q in b[e];
    }
    assert a.Keys == b.Keys;
    forall e | e in a
      ensures a[e] == b[e]
    {
    }
  }

  /** The view a query hands out for an entry: `get(q) + rotation`. */
  function EntryView(m: Mosaic, q: R.RectangularRotation, turn: R.RectangularRotation): Mosaic
  {
    RotatedRectangularMosaic(m, R.AddRectangular(q, turn))
  }

  /** The grid of member `m` turned by `r`, which is what the source's
      ordered set compares. */
  function ViewCells(m: Mosaic, w: int, h: int, r: R.RectangularRotation): seq<seq<RotatedTile>>
    requires Shape(m, w, h)
  {
    WithRectangularRotationIsView(m, w, h, r);
    Cells(WithRectangularRotation(m, r), w, h)
  }

  /** Every member turned by `r`. */
  function RotationViewCells(ms: seq<Mosaic>, w: int, h: int, r: R.RectangularRotation): (g: seq<seq<seq<RotatedTile>>>)
    requires AllShaped(ms, w, h)
    ensures |g| == |ms|
  {
    seq(|ms|, i requires 0 <= i < |ms| => ViewCells(ms[i], w, h, r))
  }

  /** The grids `assert_distinct` collects, in its order: every member
      unturned, then every member turned half. */
  function AllViewCells(ms: seq<Mosaic>, w: int, h: int): (g: seq<seq<seq<RotatedTile>>>)
    requires AllShaped(ms, w, h)
    ensures |g| == 2 * |ms|
  {
    RotationViewCells(ms, w, h, R.Identity) + RotationViewCells(ms, w, h, R.HalfTurn)
  }

  /** The prefix of the grids of one rotation grows by member `i`'s. */
  lemma RotationViewCellsPrefix(ms: seq<Mosaic>, w: int, h: int, r: R.RectangularRotation, i: int)
    requires AllShaped(ms, w, h) && 0 <= i < |ms|
    ensures RotationViewCells(ms, w, h, r)[..i + 1]
      == RotationViewCells(ms, w, h, r)[..i] + [Cells(WithRectangularRotation(ms[i], r), w, h)]
  {
    assert RotationViewCells(ms, w, h, r)[i] == ViewCells(ms[i], w, h, r);
  }

  /** One pass of `assert_distinct`: every member turned by `r` joins the
      grids collected so far, in member order. */
  method CollectRotation(ms: seq<Mosaic>, w: int, h: int, r: R.RectangularRotation,
                         all0: set<seq<seq<RotatedTile>>>, ghost listed0: seq<seq<seq<RotatedTile>>>)
    returns (all: set<seq<seq<RotatedTile>>>, ghost listed: seq<seq<seq<RotatedTile>>>)
    requires AllShaped(ms, w, h) && Collected(all0, listed0)
    ensures listed == listed0 + RotationViewCells(ms, w, h, r) && Collected(all, listed)
  {
    all, listed := all0, listed0;
    for i := 0 to |ms|
      invariant listed == listed0 + RotationViewCells(ms, w, h, r)[..i]
      invariant Collected(all, listed)
    {
      WithRectangularRotationIsView(ms[i], w, h, r);
      var grid := Cells(WithRectangularRotation(ms[i], r), w, h);
      NoDuplicatesAppend(listed, grid, all);
      RotationViewCellsPrefix(ms, w, h, r, i);
      listed := listed + [grid];
      all := all + {grid};
    }
    assert RotationViewCells(ms, w, h, r)[..|ms|] == RotationViewCells(ms, w, h, r);
  }

  /** No member is the half turn of another member, nor of itself. */
  predicate DistinctUpToRotation(ms: seq<Mosaic>, w: int, h: int)
    requires AllShaped(ms, w, h)
  {
    forall i, j, r, q :: 0 <= i < |ms| && 0 <= j < |ms| && (i != j || r != q) ==>
      ViewCells(ms[i], w, h, r) != ViewCells(ms[j], w, h, q)
  }

  /** The two blocks of the collected grids are distinct exactly when no
      member is the half turn of another or of itself. */
  lemma BlocksDistinctUpToRotation(ms: seq<Mosaic>, w: int, h: int)
    requires AllShaped(ms, w, h)
    ensures BlocksDistinct(RotationViewCells(ms, w, h, R.Identity), RotationViewCells(ms, w, h, R.HalfTurn))
      <==> DistinctUpToRotation(ms, w, h)
  {
    var a, b := RotationViewCells(ms, w, h, R.Identity), RotationViewCells(ms, w, h, R.HalfTurn);
    if BlocksDistinct(a, b) {
      forall i, j, r, q | 0 <= i < |ms| && 0 <= j < |ms| && (i != j || r != q)
        ensures ViewCells(ms[i], w, h, r) != ViewCells(ms[j], w, h, q)
      {
        assert a[i] == ViewCells(ms[i], w, h, R.Identity) && b[i] == ViewCells(ms[i], w, h, R.HalfTurn);
        assert a[j] == ViewCells(ms[j], w, h, R.Identity) && b[j] == ViewCells(ms[j], w, h, R.HalfTurn);
        if r == q && i > j {
          assert a[j] != a[i] && b[j] != b[i];
        }
      }
    }
    if DistinctUpToRotation(ms, w, h) {
      forall i, j | 0 <= i < |ms| && 0 <= j < |ms|
        ensures (i < j ==> a[i] != a[j] && b[i] != b[j]) && a[i] != b[j]
      {
        assert a[i] == ViewCells(ms[i], w, h, R.Identity) && b[j] == ViewCells(ms[j], w, h, R.HalfTurn);
        assert a[j] == ViewCells(ms[j], w, h, R.Identity) && b[i] == ViewCells(ms[i], w, h, R.HalfTurn);
      }
    }
  }

  /** The collected grids have no duplicates exactly when no member is the
      half turn of another or of itself. */
  lemma AllViewCellsDistinct(ms: seq<Mosaic>, w: int, h: int)
    requires AllShaped(ms, w, h)
    ensures NoDuplicates(AllViewCells(ms, w, h)) <==> DistinctUpToRotation(ms, w, h)
  {
    NoDuplicatesBlocks(RotationViewCells(ms, w, h, R.Identity), RotationViewCells(ms, w, h, R.HalfTurn));
    BlocksDistinctUpToRotation(ms, w, h);
  }

  /* -------------------------------------------------- Index maintenance */

  /** One step of `insert`'s loop: filing the new member under its key for
      rotation `r` keeps the index sound, keeps every member covered, lists
      the new member for `r` and keeps what was listed. */
  lemma InsertStep(idx: RectIndex, ms: seq<Mosaic>, w: int, h: int, s: Side, slot: nat, r: R.RectangularRotation)
    requires AllShaped(ms, w, h) && slot == |ms| - 1
    requires NoEmptyBuckets(idx) && IndexSound(idx, ms, w, h, s) && IndexCovers(idx, ms, w, h, s, slot)
    ensures var e := KeyOf(ms[slot], w, h, r, s);
      var idx' := idx[e := (if e in idx then idx[e] else {}) + {RectEntry(slot, r)}];
      NoEmptyBuckets(idx') && IndexSound(idx', ms, w, h, s) && IndexCovers(idx', ms, w, h, s, slot)
      && Listed(idx', ms[slot], w, h, s, slot, r)
      && forall q :: Listed(idx, ms[slot], w, h, s, slot, q) ==> Listed(idx', ms[slot], w, h, s, slot, q)
  {
    var e := KeyOf(ms[slot], w, h, r, s);
    var idx' := idx[e := (if e in idx then idx[e] else {}) + {RectEntry(slot, r)}];
    forall i, q | 0 <= i < slot
      ensures Listed(idx', ms[i], w, h, s, i, q)
    {
      assert Listed(idx, ms[i], w, h, s, i, q);
    }
  }

  /** One step of `insert`'s loop as code: file the new member, at position
      `slot`, under `key`, its key for rotation `r`. */
  method FileEntry(idx: RectIndex, key: Edge, slot: nat, r: R.RectangularRotation,
                   ghost ms: seq<Mosaic>, w: int, h: int, s: Side) returns (result: RectIndex)
    requires AllShaped(ms, w, h) && slot == |ms| - 1 && key == KeyOf(ms[slot], w, h, r, s)
    requires NoEmptyBuckets(idx) && IndexSound(idx, ms, w, h, s) && IndexCovers(idx, ms, w, h, s, slot)
    ensures NoEmptyBuckets(result) && IndexSound(result, ms, w, h, s) && IndexCovers(result, ms, w, h, s, slot)
    ensures Listed(result, ms[slot], w, h, s, slot, r)
    ensures forall q :: Listed(idx, ms[slot], w, h, s, slot, q) ==> Listed(result, ms[slot], w, h, s, slot, q)
  {
    var bucket := if key in idx then idx[key] else {};
    InsertStep(idx, ms, w, h, s, slot, r);
    result := idx[key := bucket + {RectEntry(slot, r)}];
  }

  /** An index of a list is still sound for the list with members appended,
      and still covers the old members. */
  lemma IndexAppend(idx: RectIndex, ms: seq<Mosaic>, ms': seq<Mosaic>, w: int, h: int, s: Side)
    requires AllShaped(ms, w, h) && AllShaped(ms', w, h) && |ms| <= |ms'| && ms'[..|ms|] == ms
    requires IsEdgeIndex(idx, ms, w, h, s)
    ensures NoEmptyBuckets(idx) && IndexSound(idx, ms', w, h, s) && IndexCovers(idx, ms', w, h, s, |ms|)
  {
    assert forall i :: 0 <= i < |ms| ==> ms'[i] == ms[i];
    forall i, r | 0 <= i < |ms|
      ensures Listed(idx, ms'[i], w, h, s, i, r)
    {
      assert Listed(idx, ms[i], w, h, s, i, r);
    }
  }

  /** The entries of another set, moved `base` positions further. */
  function Shifted(entries: set<RectEntry>, base: nat): set<RectEntry>
  {
    set q | q in entries :: RectEntry(q.slot + base, q.rotation)
  }

  /** The inner loop of `extend`: each entry of `entries`, moved `base`
      positions further, is inserted into the bucket. */
  method InsertShifted(bucket: set<RectEntry>, entries: set<RectEntry>, base: nat) returns (result: set<RectEntry>)
    ensures result == bucket + Shifted(entries, base)
  {
    result := bucket;
    var rest := entries;
    while rest != {}
      invariant rest <= entries
      invariant result == bucket + Shifted(entries - rest, base)
      decreases rest
    {
      var q :| q in rest;
      result := result + {RectEntry(q.slot + base, q.rotation)};
      rest := rest - {q};
    }
  }

  /** The index with the shifted entries of `entries` added under `edge`. */
  function MergeBucket(idx: RectIndex, edge: Edge, entries: set<RectEntry>, base: nat): RectIndex
  {
    idx[edge := (if edge in idx then idx[edge] else {}) + Shifted(entries, base)]
  }

  /** Every member from position `base` on, under either rotation, whose
      key is one of the keys `done` is filed. */
  predicate MergedKeys(idx: RectIndex, ms: seq<Mosaic>, w: int, h: int, s: Side, base: int, done: set<Edge>)
    requires AllShaped(ms, w, h)
  {
    forall i, r :: 0 <= base <= i < |ms| && KeyOf(ms[i], w, h, r, s) in done ==> Listed(idx, ms[i], w, h, s, i, r)
  }

  /** The shifted entries of key `edge` name appended members whose key is
      `edge`. */
  lemma ShiftedSound(ms: seq<Mosaic>, w: int, h: int, s: Side, base: nat, oidx: RectIndex, oms: seq<Mosaic>, edge: Edge)
    requires AllShaped(ms, w, h) && AllShaped(oms, w, h) && base + |oms| == |ms| && ms[base..] == oms
    requires IndexSound(oidx, oms, w, h, s) && edge in oidx
    ensures forall q :: q in Shifted(oidx[edge], base) ==> q.slot < |ms| && KeyOf(ms[q.slot], w, h, q.rotation, s) == edge
  {
    forall q | q in Shifted(oidx[edge], base)
      ensures q.slot < |ms| && KeyOf(ms[q.slot], w, h, q.rotation, s) == edge
    {
      var p :| p in oidx[edge] && q == RectEntry(p.slot + base, p.rotation);
      assert ms[q.slot] == oms[p.slot];
    }
  }

  /** Merging a non-empty bucket into an index without empty buckets
      leaves none. */
  lemma MergeBucketNonEmpty(idx: RectIndex, edge: Edge, entries: set<RectEntry>, base: nat)
    requires NoEmptyBuckets(idx) && entries != {}
    ensures NoEmptyBuckets(MergeBucket(idx, edge, entries, base))
  {
    var q0 :| q0 in entries;
    assert RectEntry(q0.slot + base, q0.rotation) in MergeBucket(idx, edge, entries, base)[edge];
  }

  /** One step of a merge loop of `extend` keeps the index sound and free
      of empty buckets. */
  lemma MergeStepSound(idx: RectIndex, ms: seq<Mosaic>, w: int, h: int, s: Side, base: nat,
                       oidx: RectIndex, oms: seq<Mosaic>, edge: Edge)
    requires AllShaped(ms, w, h) && AllShaped(oms, w, h) && base + |oms| == |ms| && ms[base..] == oms
    requires IsEdgeIndex(oidx, oms, w, h, s) && edge in oidx
    requires NoEmptyBuckets(idx) && IndexSound(idx, ms, w, h, s)
    ensures NoEmptyBuckets(MergeBucket(idx, edge, oidx[edge], base))
    ensures IndexSound(MergeBucket(idx, edge, oidx[edge], base), ms, w, h, s)
  {
    var idx' := MergeBucket(idx, edge, oidx[edge], base);
    MergeBucketNonEmpty(idx, edge, oidx[edge], base);
    ShiftedSound(ms, w, h, s, base, oidx, oms, edge);
    forall e: Edge, q: RectEntry | e in idx' && q in idx'[e]
      ensures q.slot < |ms| && KeyOf(ms[q.slot], w, h, q.rotation, s) == e
    {
      if e == edge && !(edge in idx && q in idx[edge]) {
        assert q in Shifted(oidx[edge], base);
      } else {
        assert e in idx && q in idx[e];
      }
    }
  }

  /** One step of a merge loop of `extend` keeps the old members covered
      and covers the appended members whose key is `edge`. */
  lemma MergeStepCovers(idx: RectIndex, ms: seq<Mosaic>, w: int, h: int, s: Side, base: nat,
                        oidx: RectIndex, oms: seq<Mosaic>, done: set<Edge>, edge: Edge)
    requires AllShaped(ms, w, h) && AllShaped(oms, w, h) && base + |oms| == |ms| && ms[base..] == oms
    requires IsEdgeIndex(oidx, oms, w, h, s) && edge in oidx
    requires IndexCovers(idx, ms, w, h, s, base) && MergedKeys(idx, ms, w, h, s, base, done)
    ensures IndexCovers(MergeBucket(idx, edge, oidx[edge], base), ms, w, h, s, base)
    ensures MergedKeys(MergeBucket(idx, edge, oidx[edge], base), ms, w, h, s, base, done + {edge})
  {
    var idx' := MergeBucket(idx, edge, oidx[edge], base);
    forall i, r | 0 <= i < base
      ensures Listed(idx', ms[i], w, h, s, i, r)
    {
      assert Listed(idx, ms[i], w, h, s, i, r);
    }
    forall i, r | base <= i < |ms| && KeyOf(ms[i], w, h, r, s) in done + {edge}
      ensures Listed(idx', ms[i], w, h, s, i, r)
    {
      if KeyOf(ms[i], w, h, r, s) == edge {
        assert ms[i] == oms[i - base];
        assert Listed(oidx, oms[i - base], w, h, s, i - base, r);
        assert RectEntry(i, r) in Shifted(oidx[edge], base);
      } else {
        assert Listed(idx, ms[i], w, h, s, i, r);
      }
    }
  }

  /** Once every key of the other index is merged, the appended members
      are covered too. */
  lemma MergeComplete(idx: RectIndex, ms: seq<Mosaic>, w: int, h: int, s: Side, base: nat, oidx: RectIndex, oms: seq<Mosaic>)
    requires AllShaped(ms, w, h) && AllShaped(oms, w, h) && base + |oms| == |ms| && ms[base..] == oms
    requires IsEdgeIndex(oidx, oms, w, h, s)
    requires IndexCovers(idx, ms, w, h, s, base) && MergedKeys(idx, ms, w, h, s, base, oidx.Keys)
    ensures IndexCovers(idx, ms, w, h, s, |ms|)
  {
    forall i, r | 0 <= i < |ms|
      ensures Listed(idx, ms[i], w, h, s, i, r)
    {
      if base <= i {
        assert ms[i] == oms[i - base];
        assert Listed(oidx, oms[i - base], w, h, s, i - base, r);
      }
    }
  }

  /** A merge loop of `extend`: every key of the other index, with its
      entries moved `base` positions further, is merged into `idx`. */
  method MergeIndex(idx: RectIndex, oidx: RectIndex, base: nat, ghost ms: seq<Mosaic>, ghost oms: seq<Mosaic>,
                    w: int, h: int, s: Side) returns (result: RectIndex)
    requires AllShaped(ms, w, h) && AllShaped(oms, w, h) && base + |oms| == |ms| && ms[base..] == oms
    requires IsEdgeIndex(oidx, oms, w, h, s)
    requires NoEmptyBuckets(idx) && IndexSound(idx, ms, w, h, s) && IndexCovers(idx, ms, w, h, s, base)
    ensures IsEdgeIndex(result, ms, w, h, s)
  {
    result := idx;
    var keys := oidx.Keys;
    ghost var done: set<Edge> := {};
    while keys != {}
      invariant keys !! done && keys + done == oidx.Keys
      invariant NoEmptyBuckets(result) && IndexSound(result, ms, w, h, s) && IndexCovers(result, ms, w, h, s, base)
      invariant MergedKeys(result, ms, w, h, s, base, done)
      decreases keys
    {
      var edge :| edge in keys;
      var bucket := if edge in result then result[edge] else {};
      bucket := InsertShifted(bucket, oidx[edge], base);
      MergeStepSound(result, ms, w, h, s, base, oidx, oms, edge);
      MergeStepCovers(result, ms, w, h, s, base, oidx, oms, done, edge);
      result := result[edge := bucket];
      keys := keys - {edge};
      done := done + {edge};
    }
    MergeComplete(result, ms, w, h, s, base, oidx, oms);
  }

  /* -------------------------------------------------------------- Views */

  /** The view a query hands out for an entry of the index of side `s`,
      turned by `turn`, shows on side `s` turned by `turn` exactly the edge
      the entry was filed under. */
  lemma {:induction false} EntryViewEdge(m: Mosaic, w: int, h: int, q: R.RectangularRotation, turn: R.RectangularRotation, s: Side)
    requires Shape(m, w, h)
    ensures Shape(EntryView(m, q, turn), w, h)
    ensures SideEdge(EntryView(m, q, turn), w, h, Transform(s, R.RectangularToSquare(turn))) == KeyOf(m, w, h, q, s)
  {
    var view := RotatedRectangularMosaic(m, q);
    RectangularViewEdge(view, w, h, turn, s);
    WithRectangularRotationIsView(view, w, h, turn);
    SameCellsSameEdges(RotatedRectangularMosaic(view, turn), EntryView(m, q, turn), w, h, Transform(s, R.RectangularToSquare(turn)));
  }

  /** Turning by `rotation_from_right(side)` carries Right onto the side,
      and turning by `rotation_from_top(side)` carries Top onto it. */
  lemma QueryTurnsCarry(v: R.VerticalSide, hs: R.HorizontalSide)
    ensures Transform(Right, R.RectangularToSquare(R.VerticalRotationFromRight(v))) == R.VerticalToSquare(v)
    ensures Transform(Top, R.RectangularToSquare(R.HorizontalRotationFromTop(hs))) == R.HorizontalToSquare(hs)
  {
  }

  /** A rectangular rotation undone: adding it twice is no turn. */
  lemma HalfTurnsCancel(r: R.RectangularRotation, t: R.RectangularRotation)
    ensures R.AddRectangular(R.AddRectangular(r, t), t) == r
  {
  }

  /* ----------------------------------------------------------- The class */

  class RectangularMosaicSet {
    const w: int
    const h: int
    var mosaics: seq<Mosaic>
    var rightIndex: RectIndex
    var topIndex: RectIndex

    ghost predicate Valid()
      reads this
    {
      1 <= w && 1 <= h && AllShaped(mosaics, w, h)
      && IsEdgeIndex(rightIndex, mosaics, w, h, Right) && IsEdgeIndex(topIndex, mosaics, w, h, Top)
    }

    /** `RectangularMosaicSet::new`: no members and no keys. */
    constructor (w: int, h: int)
      requires 1 <= w && 1 <= h
      ensures Valid() && this.w == w && this.h == h && mosaics == [] && rightIndex == map[] && topIndex == map[]
    {
      this.w, this.h := w, h;
      mosaics := [];
      rightIndex, topIndex := map[], map[];
    }

    /** `len`. */
    function Len(): nat
      reads this
    {
      |mosaics|
    }

    /** `insert`: file the new member under the right and the top edge of
        each of its two rotations, then append it. */
    method Insert(m: Mosaic)
      requires Valid() && Shape(m, w, h)
      modifies this
      ensures Valid() && mosaics == old(mosaics) + [m]
    {
      var slot := |mosaics|;
      ghost var ms := mosaics + [m];
      IndexAppend(rightIndex, mosaics, ms, w, h, Right);
      IndexAppend(topIndex, mosaics, ms, w, h, Top);
      for k := 0 to 2
        invariant AllShaped(ms, w, h) && mosaics == ms[..slot]
        invariant NoEmptyBuckets(rightIndex) && IndexSound(rightIndex, ms, w, h, Right) && IndexCovers(rightIndex, ms, w, h, Right, slot)
        invariant NoEmptyBuckets(topIndex) && IndexSound(topIndex, ms, w, h, Top) && IndexCovers(topIndex, ms, w, h, Top, slot)
        invariant forall j :: 0 <= j < k ==> Listed(rightIndex, m, w, h, Right, slot, R.AllRectangularRotations[j])
        invariant forall j :: 0 <= j < k ==> Listed(topIndex, m, w, h, Top, slot, R.AllRectangularRotations[j])
      {
        var rotation := R.AllRectangularRotations[k];
        var view := RotatedRectangularMosaic(m, R.AddRectangular(R.Identity, rotation));
        assert view == RotatedRectangularMosaic(ms[slot], rotation);
        var right := VerticalEdge(view, w, h, R.Right);
        rightIndex := FileEntry(rightIndex, right, slot, rotation, ms, w, h, Right);
        var top := HorizontalEdge(view, w, h, R.Top);
        topIndex := FileEntry(topIndex, top, slot, rotation, ms, w, h, Top);
      }
      mosaics := mosaics + [m];
      forall r: R.RectangularRotation
        ensures Listed(rightIndex, m, w, h, Right, slot, r) && Listed(topIndex, m, w, h, Top, slot, r)
      {
        assert r == R.AllRectangularRotations[R.RectangularRotationToInt(r)];
      }
    }

    /** `extend`: append the other set's members, then merge the other
        set's right-edge index and its top-edge index, each entry moved
        past this set's members. */
    method Extend(other: RectangularMosaicSet)
      requires Valid() && other.Valid() && other.w == w && other.h == h && other != this
      modifies this
      ensures Valid() && mosaics == old(mosaics) + other.mosaics
    {
      var base := |mosaics|;
      mosaics := mosaics + other.mosaics;
      assert AllShaped(mosaics, w, h) by {
        assert forall i :: base <= i < |mosaics| ==> mosaics[i] == other.mosaics[i - base];
      }
      IndexAppend(rightIndex, old(mosaics), mosaics, w, h, Right);
      IndexAppend(topIndex, old(mosaics), mosaics, w, h, Top);
      rightIndex := MergeIndex(rightIndex, other.rightIndex, base, mosaics, other.mosaics, w, h, Right);
      topIndex := MergeIndex(topIndex, other.topIndex, base, mosaics, other.mosaics, w, h, Top);
    }

    /** `query_vertical(side, e)`: the members filed under `e` in the
        right-edge index, each turned by `rotation_from_right(side)`. */
    function QueryVertical(side: R.VerticalSide, e: Edge): set<RectMatch>
      requires Valid()
      reads this
    {
      if e in rightIndex then
        set q | q in rightIndex[e] :: RectMatch(q.slot, EntryView(mosaics[q.slot], q.rotation, R.VerticalRotationFromRight(side)))
      else {}
    }

    /** `query_horizontal(side, e)`: the members filed under `e` in the
        top-edge index, each turned by `rotation_from_top(side)`. */
    function QueryHorizontal(side: R.HorizontalSide, e: Edge): set<RectMatch>
      requires Valid()
      reads this
    {
      if e in topIndex then
        set q | q in topIndex[e] :: RectMatch(q.slot, EntryView(mosaics[q.slot], q.rotation, R.HorizontalRotationFromTop(side)))
      else {}
    }

    /** `iter_by_vertical_edge(side)`: every key of the right-edge index
        with the vertical query for it. */
    function IterByVerticalEdge(side: R.VerticalSide): map<Edge, set<RectMatch>>
      requires Valid()
      reads this
    {
      map e | e in rightIndex :: QueryVertical(side, e)
    }

    /** `iter_by_horizontal_edge(side)`: every key of the top-edge index
        with the horizontal query for it. */
    function IterByHorizontalEdge(side: R.HorizontalSide): map<Edge, set<RectMatch>>
      requires Valid()
      reads this
    {
      map e | e in topIndex :: QueryHorizontal(side, e)
    }

    /** What `query_vertical(side, e)` yields: each item is a member turned
        so that its edge on `side` is `e`; and every member, under each
        rotation whose edge on `side` is `e`, is yielded. */
    lemma {:induction false} QueryVerticalMatches(side: R.VerticalSide, e: Edge)
      requires Valid()
      ensures forall v :: v in QueryVertical(side, e) ==>
        v.slot < |mosaics| && v.view.RotatedRectangularMosaic? && v.view.mosaic == mosaics[v.slot]
        && Shape(v.view, w, h) && SideEdge(v.view, w, h, R.VerticalToSquare(side)) == e
      ensures forall i, r :: 0 <= i < |mosaics| && SideEdge(RotatedRectangularMosaic(mosaics[i], r), w, h, R.VerticalToSquare(side)) == e ==>
        RectMatch(i, RotatedRectangularMosaic(mosaics[i], r)) in QueryVertical(side, e)
    {
      var turn := R.VerticalRotationFromRight(side);
      QueryTurnsCarry(side, R.Top);
      forall v | v in QueryVertical(side, e)
        ensures v.slot < |mosaics| && v.view.RotatedRectangularMosaic? && v.view.mosaic == mosaics[v.slot]
        ensures Shape(v.view, w, h) && SideEdge(v.view, w, h, R.VerticalToSquare(side)) == e
      {
        var q :| q in rightIndex[e] && v == RectMatch(q.slot, EntryView(mosaics[q.slot], q.rotation, turn));
        EntryViewEdge(mosaics[q.slot], w, h, q.rotation, turn, Right);
      }
      forall i, r | 0 <= i < |mosaics| && SideEdge(RotatedRectangularMosaic(mosaics[i], r), w, h, R.VerticalToSquare(side)) == e
        ensures RectMatch(i, RotatedRectangularMosaic(mosaics[i], r)) in QueryVertical(side, e)
      {
        var q := R.AddRectangular(r, turn);
        HalfTurnsCancel(r, turn);
        EntryViewEdge(mosaics[i], w, h, q, turn, Right);
        assert Listed(rightIndex, mosaics[i], w, h, Right, i, q);
      }
    }

    /** What `query_horizontal(side, e)` yields: each item is a member
        turned so that its edge on `side` is `e`; and every member, under
        each rotation whose edge on `side` is `e`, is yielded. */
    lemma {:induction false} QueryHorizontalMatches(side: R.HorizontalSide, e: Edge)
      requires Valid()
      ensures forall v :: v in QueryHorizontal(side, e) ==>
        v.slot < |mosaics| && v.view.RotatedRectangularMosaic? && v.view.mosaic == mosaics[v.slot]
        && Shape(v.view, w, h) && SideEdge(v.view, w, h, R.HorizontalToSquare(side)) == e
      ensures forall i, r :: 0 <= i < |mosaics| && SideEdge(RotatedRectangularMosaic(mosaics[i], r), w, h, R.HorizontalToSquare(side)) == e ==>
        RectMatch(i, RotatedRectangularMosaic(mosaics[i], r)) in QueryHorizontal(side, e)
    {
      var turn := R.HorizontalRotationFromTop(side);
      QueryTurnsCarry(R.Right, side);
      forall v | v in QueryHorizontal(side, e)
        ensures v.slot < |mosaics| && v.view.RotatedRectangularMosaic? && v.view.mosaic == mosaics[v.slot]
        ensures Shape(v.view, w, h) && SideEdge(v.view, w, h, R.HorizontalToSquare(side)) == e
      {
        var q :| q in topIndex[e] && v == RectMatch(q.slot, EntryView(mosaics[q.slot], q.rotation, turn));
        EntryViewEdge(mosaics[q.slot], w, h, q.rotation, turn, Top);
      }
      forall i, r | 0 <= i < |mosaics| && SideEdge(RotatedRectangularMosaic(mosaics[i], r), w, h, R.HorizontalToSquare(side)) == e
        ensures RectMatch(i, RotatedRectangularMosaic(mosaics[i], r)) in QueryHorizontal(side, e)
      {
        var q := R.AddRectangular(r, turn);
        HalfTurnsCancel(r, turn);
        EntryViewEdge(mosaics[i], w, h, q, turn, Top);
        assert Listed(topIndex, mosaics[i], w, h, Top, i, q);
      }
    }

    /** What `iter_by_vertical_edge(side)` yields: every key has an item,
        each item shows the key on `side`, and every member under each
        rotation is yielded under the key of its edge on `side`. */
    lemma {:induction false} IterByVerticalEdgeGroups(side: R.VerticalSide)
      requires Valid()
      ensures forall e :: e in IterByVerticalEdge(side) ==> IterByVerticalEdge(side)[e] != {}
      ensures forall e, v :: e in IterByVerticalEdge(side) && v in IterByVerticalEdge(side)[e] ==>
        v.slot < |mosaics| && v.view.RotatedRectangularMosaic? && v.view.mosaic == mosaics[v.slot]
        && Shape(v.view, w, h) && SideEdge(v.view, w, h, R.VerticalToSquare(side)) == e
      ensures forall i, r :: 0 <= i < |mosaics| ==>
        var v := RotatedRectangularMosaic(mosaics[i], r);
        var e := SideEdge(v, w, h, R.VerticalToSquare(side));
        e in IterByVerticalEdge(side) && RectMatch(i, v) in IterByVerticalEdge(side)[e]
    {
      var groups := IterByVerticalEdge(side);
      var turn := R.VerticalRotationFromRight(side);
      QueryTurnsCarry(side, R.Top);
      forall e | e in groups
        ensures groups[e] != {}
        ensures forall v: RectMatch :: v in groups[e] ==>
          v.slot < |mosaics| && v.view.RotatedRectangularMosaic? && v.view.mosaic == mosaics[v.slot]
          && Shape(v.view, w, h) && SideEdge(v.view, w, h, R.VerticalToSquare(side)) == e
      {
        QueryVerticalMatches(side, e);
        var q :| q in rightIndex[e];
        assert RectMatch(q.slot, EntryView(mosaics[q.slot], q.rotation, turn)) in groups[e];
      }
      forall i, r | 0 <= i < |mosaics|
        ensures var v := RotatedRectangularMosaic(mosaics[i], r);
          var e := SideEdge(v, w, h, R.VerticalToSquare(side));
          e in groups && RectMatch(i, v) in groups[e]
      {
        var v := RotatedRectangularMosaic(mosaics[i], r);
        var e := SideEdge(v, w, h, R.VerticalToSquare(side));
        var q := R.AddRectangular(r, turn);
        HalfTurnsCancel(r, turn);
        EntryViewEdge(mosaics[i], w, h, q, turn, Right);
        assert Listed(rightIndex, mosaics[i], w, h, Right, i, q);
        QueryVerticalMatches(side, e);
      }
    }

    /** What `iter_by_horizontal_edge(side)` yields: every key has an item,
        each item shows the key on `side`, and every member under each
        rotation is yielded under the key of its edge on `side`. */
    lemma {:induction false} IterByHorizontalEdgeGroups(side: R.HorizontalSide)
      requires Valid()
      ensures forall e :: e in IterByHorizontalEdge(side) ==> IterByHorizontalEdge(side)[e] != {}
      ensures forall e, v :: e in IterByHorizontalEdge(side) && v in IterByHorizontalEdge(side)[e] ==>
        v.slot < |mosaics| && v.view.RotatedRectangularMosaic? && v.view.mosaic == mosaics[v.slot]
        && Shape(v.view, w, h) && SideEdge(v.view, w, h, R.HorizontalToSquare(side)) == e
      ensures forall i, r :: 0 <= i < |mosaics| ==>
        var v := RotatedRectangularMosaic(mosaics[i], r);
        var e := SideEdge(v, w, h, R.HorizontalToSquare(side));
        e in IterByHorizontalEdge(side) && RectMatch(i, v) in IterByHorizontalEdge(side)[e]
    {
      var groups := IterByHorizontalEdge(side);
      var turn := R.HorizontalRotationFromTop(side);
      QueryTurnsCarry(R.Right, side);
      forall e | e in groups
        ensures groups[e] != {}
        ensures forall v: RectMatch :: v in groups[e] ==>
          v.slot < |mosaics| && v.view.RotatedRectangularMosaic? && v.view.mosaic == mosaics[v.slot]
          && Shape(v.view, w, h) && SideEdge(v.view, w, h, R.HorizontalToSquare(side)) == e
      {
        QueryHorizontalMatches(side, e);
        var q :| q in topIndex[e];
        assert RectMatch(q.slot, EntryView(mosaics[q.slot], q.rotation, turn)) in groups[e];
      }
      forall i, r | 0 <= i < |mosaics|
        ensures var v := RotatedRectangularMosaic(mosaics[i], r);
          var e := SideEdge(v, w, h, R.HorizontalToSquare(side));
          e in groups && RectMatch(i, v) in groups[e]
      {
        var v := RotatedRectangularMosaic(mosaics[i], r);
        var e := SideEdge(v, w, h, R.HorizontalToSquare(side));
        var q := R.AddRectangular(r, turn);
        HalfTurnsCancel(r, turn);
        EntryViewEdge(mosaics[i], w, h, q, turn, Top);
        assert Listed(topIndex, mosaics[i], w, h, Top, i, q);
        QueryHorizontalMatches(side, e);
      }
    }

    /** `assert_distinct`: collect every member under both rotations into
        an ordered set and compare its size with twice the number of
        members; `false` is the source's panic. */
    method AssertDistinct() returns (distinct: bool)
      requires Valid()
      ensures distinct <==> DistinctUpToRotation(mosaics, w, h)
    {
      var all: set<seq<seq<RotatedTile>>>;
      ghost var listed: seq<seq<seq<RotatedTile>>>;
      all, listed := CollectRotation(mosaics, w, h, R.Identity, {}, []);
      all, listed := CollectRotation(mosaics, w, h, R.HalfTurn, all, listed);
      assert listed == AllViewCells(mosaics, w, h);
      distinct := |all| == 2 * |mosaics|;
      AllViewCellsDistinct(mosaics, w, h);
    }
  }

  /* ------------------------------------------------------------ Example */

  /** The 3x2 mosaic of the source's `iter_by_edge` test: tiles 0..=2 and
      16..=18 in two rows, none rotated. */
  const QUERY_EXAMPLE: Mosaic :=
    ArrayMosaic([[RotatedTile(0, Identity), RotatedTile(1, Identity), RotatedTile(2, Identity)],
                 [RotatedTile(16, Identity), RotatedTile(17, Identity), RotatedTile(18, Identity)]])

  /** Its right edge reads "bv" and its left edge "aa". */
  lemma QueryExampleEdges()
    ensures Shape(QUERY_EXAMPLE, 3, 2)
    ensures Render(SideEdge(QUERY_EXAMPLE, 3, 2, Right)) == "bv"
    ensures Render(SideEdge(QUERY_EXAMPLE, 3, 2, Left)) == "aa"
  {
    TileColorLetter(2, Right);
    TileColorLetter(18, Right);
    TileColorLetter(16, Left);
    TileColorLetter(0, Left);
    assert SideEdge(QUERY_EXAMPLE, 3, 2, Right) == [TileColor(2, Right), TileColor(18, Right)];
    assert SideEdge(QUERY_EXAMPLE, 3, 2, Left) == [TileColor(16, Left), TileColor(0, Left)];
  }

  /** The `iter_by_edge` test: a set holding only that mosaic answers a
      vertical query for the right edge "bv" with exactly the unturned
      mosaic; turned half, its right edge is its left edge "aa". */
  lemma QueryExample(s: RectangularMosaicSet, e: Edge)
    requires s.Valid() && s.w == 3 && s.h == 2 && s.mosaics == [QUERY_EXAMPLE] && Render(e) == "bv"
    ensures forall v :: v in s.QueryVertical(R.Right, e) <==>
      v == RectMatch(0, RotatedRectangularMosaic(QUERY_EXAMPLE, R.Identity))
  {
    var m := QUERY_EXAMPLE;
    QueryExampleEdges();
    RectangularViewEdge(m, 3, 2, R.Identity, Right);
    RectangularViewEdge(m, 3, 2, R.HalfTurn, Left);
    RenderInjective(SideEdge(RotatedRectangularMosaic(m, R.Identity), 3, 2, Right), e);
    s.QueryVerticalMatches(R.Right, e);
    forall v | v in s.QueryVertical(R.Right, e)
      ensures v.view == RotatedRectangularMosaic(m, R.Identity)
    {
      var r := v.view.rectangularRotation;
      assert v.view == RotatedRectangularMosaic(m, r);
      assert Render(SideEdge(v.view, 3, 2, Right)) == "bv";
      assert r != R.HalfTurn;
    }
  }
}
