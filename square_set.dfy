/** `SquareMosaicSet` (src/set/square.rs): a list of square mosaics of side
    `n`, indexed by edge. Every member is filed four times, once per
    rotation, under the right edge of the member turned by that rotation;
    a query for any side then turns the stored rotation further so that
    the matching edge lands on the side asked for. */
module SquareSets {
  import opened Sides
  import opened Tiles
  import opened Edges
  import opened Mosaics
  import opened Collections

  /** `RotatedSquareMosaicIndex`: a member's position in the list and a
      rotation. */
  datatype SquareEntry = SquareEntry(slot: nat, rotation: Rotation)

  /** One item a query yields: the member's position and the view of the
      member that the query hands out. */
  datatype SquareMatch = SquareMatch(slot: nat, view: Mosaic)

  /** Every mosaic of the list is `n` by `n`. */
  predicate AllShaped(ms: seq<Mosaic>, n: int)
  {
    forall i :: 0 <= i < |ms| ==> Shape(ms[i], n, n)
  }

  /** The key a member is filed under for rotation `r`: the right edge of
      `with_square_rotation(r)`. */
  function RightEdgeOf(m: Mosaic, n: int, r: Rotation): Edge
    requires Shape(m, n, n)
  {
    WithSquareRotationIsView(m, n, r);
    SideEdge(WithSquareRotation(m, r), n, n, Right)
  }

  /** Member `m`, at position `i`, turned by `r` is filed under its key. */
  predicate Listed(idx: map<Edge, set<SquareEntry>>, m: Mosaic, n: int, i: nat, r: Rotation)
    requires Shape(m, n, n)
  {
    var e := RightEdgeOf(m, n, r);
    e in idx && SquareEntry(i, r) in idx[e]
  }

  /** Every entry names a member whose key, for the entry's rotation, is
      the edge it is filed under. */
  predicate IndexSound(idx: map<Edge, set<SquareEntry>>, ms: seq<Mosaic>, n: int)
    requires AllShaped(ms, n)
  {
    forall e, q :: e in idx && q in idx[e] ==> q.slot < |ms| && RightEdgeOf(ms[q.slot], n, q.rotation) == e
  }

  /** Members `0 .. hi` are filed under all four rotations. */
  predicate IndexCovers(idx: map<Edge, set<SquareEntry>>, ms: seq<Mosaic>, n: int, hi: int)
    requires AllShaped(ms, n) && hi <= |ms|
  {
    forall i, r :: 0 <= i < hi ==> Listed(idx, ms[i], n, i, r)
  }

  /** A key is only ever created together with its first entry. */
  predicate NoEmptyBuckets(idx: map<Edge, set<SquareEntry>>)
  {
    forall e :: e in idx ==> idx[e] != {}
  }

  /** `idx` is the right-edge index of the list `ms`. */
  predicate IsRightEdgeIndex(idx: map<Edge, set<SquareEntry>>, ms: seq<Mosaic>, n: int)
    requires AllShaped(ms, n)
  {
    NoEmptyBuckets(idx) && IndexSound(idx, ms, n) && IndexCovers(idx, ms, n, |ms|)
  }

  /** The view a query hands out for entry `q`: `get(q) + rotation_from_right(side)`. */
  function EntryView(m: Mosaic, q: Rotation, side: Side): Mosaic
  {
    RotatedSquareMosaic(m, Add(q, RotationFromRight(side)))
  }

  /** The grid of member `m` turned by `r`, which is what the source's
      ordered set compares. */
  function ViewCells(m: Mosaic, n: int, r: Rotation): seq<seq<RotatedTile>>
    requires Shape(m, n, n)
  {
    WithSquareRotationIsView(m, n, r);
    Cells(WithSquareRotation(m, r), n, n)
  }

  /** The grids `assert_distinct` collects, in its order: every member
      turned by Identity, then every member turned a quarter left, and so
      on. */
  function AllViewCells(ms: seq<Mosaic>, n: int): (g: seq<seq<seq<RotatedTile>>>)
    requires AllShaped(ms, n)
    ensures |g| == 4 * |ms|
  {
    ViewCellsUpTo(ms, n, 4)
  }

  /** The grids of the first `k` rotations. */
  function ViewCellsUpTo(ms: seq<Mosaic>, n: int, k: int): (g: seq<seq<seq<RotatedTile>>>)
    requires AllShaped(ms, n) && 0 <= k <= 4
    ensures |g| == k * |ms|
  {
    if k == 0 then [] else ViewCellsUpTo(ms, n, k - 1) + RotationViewCells(ms, n, AllRotations[k - 1])
  }

  /** Every member turned by `r`. */
  function RotationViewCells(ms: seq<Mosaic>, n: int, r: Rotation): (g: seq<seq<seq<RotatedTile>>>)
    requires AllShaped(ms, n)
    ensures |g| == |ms|
  {
    seq(|ms|, i requires 0 <= i < |ms| => ViewCells(ms[i], n, r))
  }

  /** The prefix of the grids of one rotation grows by member `i`'s. */
  lemma RotationViewCellsPrefix(ms: seq<Mosaic>, n: int, r: Rotation, i: int)
    requires AllShaped(ms, n) && 0 <= i < |ms|
    ensures RotationViewCells(ms, n, r)[..i + 1] == RotationViewCells(ms, n, r)[..i] + [Cells(WithSquareRotation(ms[i], r), n, n)]
  {
    assert RotationViewCells(ms, n, r)[i] == ViewCells(ms[i], n, r);
  }

  /** No member is a rotation of another member, nor of itself under a
      different rotation. */
  predicate DistinctUpToRotation(ms: seq<Mosaic>, n: int)
    requires AllShaped(ms, n)
  {
    forall i, j, r, q :: 0 <= i < |ms| && 0 <= j < |ms| && (i != j || r != q) ==>
      ViewCells(ms[i], n, r) != ViewCells(ms[j], n, q)
  }

  /** Position `k * L + i` of four blocks of length `L` laid end to end is
      position `i` of block `k`. */
  lemma BlockAt<T>(a: seq<T>, b: seq<T>, c: seq<T>, d: seq<T>, k: int, i: int)
    requires |a| == |b| == |c| == |d| && 0 <= k < 4 && 0 <= i < |a|
    ensures 0 <= k * |a| + i < 4 * |a|
    ensures (a + b + c + d)[k * |a| + i] == [a, b, c, d][k][i]
  {
    var L := |a|;
    if k == 1 {
      assert (a + b + c + d)[L + i] == b[i];
    } else if k == 2 {
      assert (a + b + c + d)[2 * L + i] == c[i];
    } else if k == 3 {
      assert (a + b + c + d)[3 * L + i] == d[i];
    }
  }

  /** Position `k * |ms| + i` of the collected grids is member `i` turned
      by the `k`-th rotation. */
  lemma AllViewCellsAt(ms: seq<Mosaic>, n: int, k: int, i: int)
    requires AllShaped(ms, n) && 0 <= k < 4 && 0 <= i < |ms|
    ensures 0 <= k * |ms| + i < 4 * |ms|
    ensures AllViewCells(ms, n)[k * |ms| + i] == ViewCells(ms[i], n, AllRotations[k])
  {
    var a, b, c, d := RotationViewCells(ms, n, Identity), RotationViewCells(ms, n, QuarterTurnLeft),
      RotationViewCells(ms, n, HalfTurn), RotationViewCells(ms, n, QuarterTurnRight);
    assert ViewCellsUpTo(ms, n, 1) == a;
    assert ViewCellsUpTo(ms, n, 2) == a + b;
    assert ViewCellsUpTo(ms, n, 3) == a + b + c;
    assert AllViewCells(ms, n) == a + b + c + d;
    BlockAt(a, b, c, d, k, i);
    assert [a, b, c, d][k] == RotationViewCells(ms, n, AllRotations[k]);
  }

  /** Every position of the collected grids is some member turned by some
      rotation. */
  lemma Decompose(L: int, p: int) returns (k: int, i: int)
    requires 0 <= p < 4 * L
    ensures 0 <= k < 4 && 0 <= i < L && p == k * L + i
  {
    if p < L {
      k, i := 0, p;
    } else if p < 2 * L {
      k, i := 1, p - L;
    } else if p < 3 * L {
      k, i := 2, p - 2 * L;
    } else {
      k, i := 3, p - 3 * L;
    }
  }

  /** Positions of different (rotation, member) pairs differ. */
  lemma PositionsDiffer(L: int, k: int, i: int, k': int, i': int)
    requires 0 <= k < 4 && 0 <= k' < 4 && 0 <= i < L && 0 <= i' < L && (k != k' || i != i')
    ensures k * L + i != k' * L + i'
  {
    if k < k' {
      assert (k + 1) * L <= k' * L;
    } else if k' < k {
      assert (k' + 1) * L <= k * L;
    }
  }

  /** The collected grids have no duplicates exactly when no member is a
      rotation of another or of itself. */
  lemma AllViewCellsDistinct(ms: seq<Mosaic>, n: int)
    requires AllShaped(ms, n)
    ensures NoDuplicates(AllViewCells(ms, n)) <==> DistinctUpToRotation(ms, n)
  {
    var L := |ms|;
    var g := AllViewCells(ms, n);
    if NoDuplicates(g) {
      forall i, j, r, q | 0 <= i < L && 0 <= j < L && (i != j || r != q)
        ensures ViewCells(ms[i], n, r) != ViewCells(ms[j], n, q)
      {
        var k, k' := RotationToInt(r), RotationToInt(q);
        assert AllRotations[k] == r && AllRotations[k'] == q;
        AllViewCellsAt(ms, n, k, i);
        AllViewCellsAt(ms, n, k', j);
        PositionsDiffer(L, k, i, k', j);
        if k * L + i < k' * L + j {
          assert g[k * L + i] != g[k' * L + j];
        } else {
          assert g[k' * L + j] != g[k * L + i];
        }
      }
    }
    if DistinctUpToRotation(ms, n) {
      forall a, b | 0 <= a < b < |g|
        ensures g[a] != g[b]
      {
        var k, i := Decompose(L, a);
        var k', i' := Decompose(L, b);
        AllViewCellsAt(ms, n, k, i);
        AllViewCellsAt(ms, n, k', i');
        assert AllRotations[k] != AllRotations[k'] || i != i';
      }
    }
  }

  /** The entries of another set, moved `base` positions further. */
  function Shifted(entries: set<SquareEntry>, base: nat): set<SquareEntry>
  {
    set q | q in entries :: SquareEntry(q.slot + base, q.rotation)
  }

  /** The inner loop of `extend`: each entry of `entries`, moved `base`
      positions further, is inserted into the bucket. */
  method InsertShifted(bucket: set<SquareEntry>, entries: set<SquareEntry>, base: nat) returns (result: set<SquareEntry>)
    ensures result == bucket + Shifted(entries, base)
  {
    result := bucket;
    var rest := entries;
    while rest != {}
      invariant rest <= entries
      invariant result == bucket + Shifted(entries - rest, base)
      decreases rest
    {
      var q :| q in rest;
      result := result + {SquareEntry(q.slot + base, q.rotation)};
      rest := rest - {q};
    }
  }

  /** One step of `insert`'s loop: filing the new member under its key for
      rotation `r` keeps the index sound, keeps every member covered and
      lists the new member for `r`, and for every rotation listed before. */
  lemma InsertStep(idx: map<Edge, set<SquareEntry>>, ms: seq<Mosaic>, n: int, slot: nat, r: Rotation)
    requires AllShaped(ms, n) && slot == |ms| - 1
    requires NoEmptyBuckets(idx) && IndexSound(idx, ms, n) && IndexCovers(idx, ms, n, slot)
    ensures var e := RightEdgeOf(ms[slot], n, r);
      var idx' := idx[e := (if e in idx then idx[e] else {}) + {SquareEntry(slot, r)}];
      NoEmptyBuckets(idx') && IndexSound(idx', ms, n) && IndexCovers(idx', ms, n, slot)
      && Listed(idx', ms[slot], n, slot, r)
      && forall q :: Listed(idx, ms[slot], n, slot, q) ==> Listed(idx', ms[slot], n, slot, q)
  {
    var e := RightEdgeOf(ms[slot], n, r);
    var idx' := idx[e := (if e in idx then idx[e] else {}) + {SquareEntry(slot, r)}];
    forall i, q | 0 <= i < slot
      ensures Listed(idx', ms[i], n, i, q)
    {
      assert Listed(idx, ms[i], n, i, q);
    }
  }

  /** Every member from position `base` on, turned by any rotation, whose
      key is one of the keys `done` is filed. */
  predicate MergedKeys(idx: map<Edge, set<SquareEntry>>, ms: seq<Mosaic>, n: int, base: int, done: set<Edge>)
    requires AllShaped(ms, n)
  {
    forall i, r :: 0 <= base <= i < |ms| && RightEdgeOf(ms[i], n, r) in done ==> Listed(idx, ms[i], n, i, r)
  }

  /** An index of a list is still sound for the list with members appended,
      and still covers the old members. */
  lemma IndexAppend(idx: map<Edge, set<SquareEntry>>, ms: seq<Mosaic>, ms': seq<Mosaic>, n: int)
    requires AllShaped(ms, n) && AllShaped(ms', n) && |ms| <= |ms'| && ms'[..|ms|] == ms
    requires IsRightEdgeIndex(idx, ms, n)
    ensures NoEmptyBuckets(idx) && IndexSound(idx, ms', n) && IndexCovers(idx, ms', n, |ms|)
  {
    assert forall i :: 0 <= i < |ms| ==> ms'[i] == ms[i];
    forall i, r | 0 <= i < |ms|
      ensures Listed(idx, ms'[i], n, i, r)
    {
      assert Listed(idx, ms[i], n, i, r);
    }
  }

  /** The index with the shifted entries of `entries` added under `edge`. */
  function MergeBucket(idx: map<Edge, set<SquareEntry>>, edge: Edge, entries: set<SquareEntry>, base: nat): map<Edge, set<SquareEntry>>
  {
    idx[edge := (if edge in idx then idx[edge] else {}) + Shifted(entries, base)]
  }

  /** Merging a non-empty bucket into an index without empty buckets
      leaves none. */
  lemma MergeBucketNonEmpty(idx: map<Edge, set<SquareEntry>>, edge: Edge, entries: set<SquareEntry>, base: nat)
    requires NoEmptyBuckets(idx) && entries != {}
    ensures NoEmptyBuckets(MergeBucket(idx, edge, entries, base))
  {
    var q0 :| q0 in entries;
    assert SquareEntry(q0.slot + base, q0.rotation) in MergeBucket(idx, edge, entries, base)[edge];
  }

  /** One step of `extend`'s outer loop keeps the index sound and free of
      empty buckets: the shifted entries name appended members whose key
      is `edge`. */
  lemma MergeStepSound(idx: map<Edge, set<SquareEntry>>, ms: seq<Mosaic>, n: int, base: nat,
                       oidx: map<Edge, set<SquareEntry>>, oms: seq<Mosaic>, edge: Edge)
    requires AllShaped(ms, n) && AllShaped(oms, n) && base + |oms| == |ms| && ms[base..] == oms
    requires IsRightEdgeIndex(oidx, oms, n) && edge in oidx
    requires NoEmptyBuckets(idx) && IndexSound(idx, ms, n)
    ensures NoEmptyBuckets(MergeBucket(idx, edge, oidx[edge], base))
    ensures IndexSound(MergeBucket(idx, edge, oidx[edge], base), ms, n)
  {
    var idx' := MergeBucket(idx, edge, oidx[edge], base);
    MergeBucketNonEmpty(idx, edge, oidx[edge], base);
    ShiftedSound(ms, n, base, oidx, oms, edge);
    forall e: Edge, q: SquareEntry | e in idx' && q in idx'[e]
      ensures q.slot < |ms| && RightEdgeOf(ms[q.slot], n, q.rotation) == e
    {
      if e == edge && !(edge in idx && q in idx[edge]) {
        assert q in Shifted(oidx[edge], base);
      } else {
        assert e in idx && q in idx[e];
      }
    }
  }

  /** The shifted entries of key `edge` name appended members whose key is
      `edge`. */
  lemma ShiftedSound(ms: seq<Mosaic>, n: int, base: nat, oidx: map<Edge, set<SquareEntry>>, oms: seq<Mosaic>, edge: Edge)
    requires AllShaped(ms, n) && AllShaped(oms, n) && base + |oms| == |ms| && ms[base..] == oms
    requires IndexSound(oidx, oms, n) && edge in oidx
    ensures forall q :: q in Shifted(oidx[edge], base) ==> q.slot < |ms| && RightEdgeOf(ms[q.slot], n, q.rotation) == edge
  {
    forall q | q in Shifted(oidx[edge], base)
      ensures q.slot < |ms| && RightEdgeOf(ms[q.slot], n, q.rotation) == edge
    {
      var p :| p in oidx[edge] && q == SquareEntry(p.slot + base, p.rotation);
      assert ms[q.slot] == oms[p.slot];
    }
  }

  /** One step of `extend`'s outer loop keeps the old members covered and
      covers the appended members whose key is `edge`. */
  lemma MergeStepCovers(idx: map<Edge, set<SquareEntry>>, ms: seq<Mosaic>, n: int, base: nat,
                        oidx: map<Edge, set<SquareEntry>>, oms: seq<Mosaic>, done: set<Edge>, edge: Edge)
    requires AllShaped(ms, n) && AllShaped(oms, n) && base + |oms| == |ms| && ms[base..] == oms
    requires IsRightEdgeIndex(oidx, oms, n) && edge in oidx
    requires IndexCovers(idx, ms, n, base) && MergedKeys(idx, ms, n, base, done)
    ensures IndexCovers(MergeBucket(idx, edge, oidx[edge], base), ms, n, base)
    ensures MergedKeys(MergeBucket(idx, edge, oidx[edge], base), ms, n, base, done + {edge})
  {
    var idx' := MergeBucket(idx, edge, oidx[edge], base);
    forall i, r | 0 <= i < base
      ensures Listed(idx', ms[i], n, i, r)
    {
      assert Listed(idx, ms[i], n, i, r);
    }
    forall i, r | base <= i < |ms| && RightEdgeOf(ms[i], n, r) in done + {edge}
      ensures Listed(idx', ms[i], n, i, r)
    {
      if RightEdgeOf(ms[i], n, r) == edge {
        assert ms[i] == oms[i - base];
        assert Listed(oidx, oms[i - base], n, i - base, r);
        assert SquareEntry(i, r) in Shifted(oidx[edge], base);
      } else {
        assert Listed(idx, ms[i], n, i, r);
      }
    }
  }

  /** Once every key of the other index is merged, the appended members
      are covered too. */
  lemma MergeComplete(idx: map<Edge, set<SquareEntry>>, ms: seq<Mosaic>, n: int, base: nat,
                      oidx: map<Edge, set<SquareEntry>>, oms: seq<Mosaic>)
    requires AllShaped(ms, n) && AllShaped(oms, n) && base + |oms| == |ms| && ms[base..] == oms
    requires IsRightEdgeIndex(oidx, oms, n)
    requires IndexCovers(idx, ms, n, base) && MergedKeys(idx, ms, n, base, oidx.Keys)
    ensures IndexCovers(idx, ms, n, |ms|)
  {
    forall i, r | 0 <= i < |ms|
      ensures Listed(idx, ms[i], n, i, r)
    {
      if base <= i {
        assert ms[i] == oms[i - base];
        assert Listed(oidx, oms[i - base], n, i - base, r);
      }
    }
  }

  /** The view a query hands out for an entry filed under rotation `q`
      shows, on the side asked for, exactly the edge it was filed under. */
  lemma {:induction false} EntryViewEdge(m: Mosaic, n: int, q: Rotation, side: Side)
    requires Shape(m, n, n)
    ensures Shape(EntryView(m, q, side), n, n)
    ensures SideEdge(EntryView(m, q, side), n, n, side) == RightEdgeOf(m, n, q)
  {
    var r := RotationFromRight(side);
    var view := RotatedSquareMosaic(m, q);
    WithSquareRotationIsView(m, n, q);
    SameCellsSameEdges(WithSquareRotation(m, q), view, n, n, Right);
    SquareViewEdge(view, n, r, Right);
    RotationFromRightCarriesRight(side);
    SquareViewCompose(m, n, q, r);
    SameCellsSameEdges(RotatedSquareMosaic(view, r), EntryView(m, q, side), n, n, side);
  }

  /** Two indexes of the same list are the same map: the index is a
      function of the members, so `insert` and `extend` determine the whole
      new state by the members they leave. */
  lemma IndexIsDetermined(a: map<Edge, set<SquareEntry>>, b: map<Edge, set<SquareEntry>>, ms: seq<Mosaic>, n: int)
    requires AllShaped(ms, n) && IsRightEdgeIndex(a, ms, n) && IsRightEdgeIndex(b, ms, n)
    ensures a == b
  {
    forall e, q | e in a && q in a[e]
      ensures e in b && q in b[e]
    {
      assert Listed(b, ms[q.slot], n, q.slot, q.rotation);
    }
    forall e, q | e in b && q in b[e]
      ensures e in a && q in a[e]
    {
      assert Listed(a, ms[q.slot], n, q.slot, q.rotation);
    }
    forall e | e in a
      ensures e in b
    {
      var q :| q in a[e];
    }
    forall e | e in b
      ensures e in a
    {
      var q :| q in b[e];
    }
    assert a.Keys == b.Keys;
    forall e | e in a
      ensures a[e] == b[e]
    {
    }
  }

  /* ----------------------------------------------------------- The class */

  class SquareMosaicSet {
    const n: int
    var mosaics: seq<Mosaic>
    var index: map<Edge, set<SquareEntry>>

    ghost predicate Valid()
      reads this
    {
      1 <= n && AllShaped(mosaics, n) && IsRightEdgeIndex(index, mosaics, n)
    }

    /** `SquareMosaicSet::new`: no members and no keys. */
    constructor (n: int)
      requires 1 <= n
      ensures Valid() && this.n == n && mosaics == [] && index == map[]
    {
      this.n := n;
      mosaics := [];
      index := map[];
    }

    /** `len`. */
    function Len(): nat
      reads this
    {
      |mosaics|
    }

    /** `insert`: file the new member under the right edge of each of its
        four rotations, then append it. */
    method Insert(m: Mosaic)
      requires Valid() && Shape(m, n, n)
      modifies this
      ensures Valid() && mosaics == old(mosaics) + [m]
    {
      var slot := |mosaics|;
      ghost var ms := mosaics + [m];
      IndexAppend(index, mosaics, ms, n);
      for k := 0 to 4
        invariant AllShaped(ms, n) && mosaics == ms[..slot]
        invariant NoEmptyBuckets(index) && IndexSound(index, ms, n) && IndexCovers(index, ms, n, slot)
        invariant forall j :: 0 <= j < k ==> Listed(index, m, n, slot, AllRotations[j])
      {
        var rotation := AllRotations[k];
        WithSquareRotationIsView(m, n, rotation);
        var edge := SquareEdge(WithSquareRotation(m, rotation), n, Right);
        var bucket := if edge in index then index[edge] else {};
        InsertStep(index, ms, n, slot, rotation);
        index := index[edge := bucket + {SquareEntry(slot, rotation)}];
      }
      mosaics := mosaics + [m];
      forall r: Rotation
        ensures Listed(index, m, n, slot, r)
      {
        assert r == AllRotations[RotationToInt(r)];
      }
    }

    /** `extend`: append the other set's members and file each of the
        other set's entries under the same key with its position moved
        past this set's members. */
    method Extend(other: SquareMosaicSet)
      requires Valid() && other.Valid() && other.n == n && other != this
      modifies this
      ensures Valid() && mosaics == old(mosaics) + other.mosaics
    {
      var base := |mosaics|;
      mosaics := mosaics + other.mosaics;
      assert AllShaped(mosaics, n) by {
        assert forall i :: base <= i < |mosaics| ==> mosaics[i] == other.mosaics[i - base];
      }
      IndexAppend(index, old(mosaics), mosaics, n);
      var keys := other.index.Keys;
      ghost var done: set<Edge> := {};
      while keys != {}
        invariant keys !! done && keys + done == other.index.Keys
        invariant mosaics == old(mosaics) + other.mosaics && AllShaped(mosaics, n)
        invariant NoEmptyBuckets(index) && IndexSound(index, mosaics, n) && IndexCovers(index, mosaics, n, base)
        invariant MergedKeys(index, mosaics, n, base, done)
        decreases keys
      {
        var edge :| edge in keys;
        var bucket := if edge in index then index[edge] else {};
        bucket := InsertShifted(bucket, other.index[edge], base);
        MergeStepSound(index, mosaics, n, base, other.index, other.mosaics, edge);
        MergeStepCovers(index, mosaics, n, base, other.index, other.mosaics, done, edge);
        index := index[edge := bucket];
        keys := keys - {edge};
        done := done + {edge};
      }
      MergeComplete(index, mosaics, n, base, other.index, other.mosaics);
    }

    /** `query(side, edge)`: the members filed under `edge`, each turned so
        that its filed right edge comes to lie on `side`. */
    function Query(side: Side, e: Edge): set<SquareMatch>
      requires Valid()
      reads this
    {
      if e in index then
        set q | q in index[e] :: SquareMatch(q.slot, EntryView(mosaics[q.slot], q.rotation, side))
      else {}
    }

    /** `iter_by_edge(side)`: every key with the query for it. */
    function IterByEdge(side: Side): map<Edge, set<SquareMatch>>
      requires Valid()
      reads this
    {
      map e | e in index :: Query(side, e)
    }

    /** What `query(side, e)` yields: each item is a member of the set,
        turned so that its edge on `side` is `e`; and every member, under
        every rotation whose edge on `side` is `e`, is yielded. */
    lemma {:induction false} QueryMatches(side: Side, e: Edge)
      requires Valid()
      ensures forall v :: v in Query(side, e) ==>
        v.slot < |mosaics| && v.view.RotatedSquareMosaic? && v.view.mosaic == mosaics[v.slot]
        && Shape(v.view, n, n) && SideEdge(v.view, n, n, side) == e
      ensures forall i, r :: 0 <= i < |mosaics| && SideEdge(RotatedSquareMosaic(mosaics[i], r), n, n, side) == e ==>
        SquareMatch(i, RotatedSquareMosaic(mosaics[i], r)) in Query(side, e)
    {
      forall v | v in Query(side, e)
        ensures v.slot < |mosaics| && v.view.RotatedSquareMosaic? && v.view.mosaic == mosaics[v.slot]
        ensures Shape(v.view, n, n) && SideEdge(v.view, n, n, side) == e
      {
        var q :| q in index[e] && v == SquareMatch(q.slot, EntryView(mosaics[q.slot], q.rotation, side));
        EntryViewEdge(mosaics[q.slot], n, q.rotation, side);
      }
      forall i, r | 0 <= i < |mosaics| && SideEdge(RotatedSquareMosaic(mosaics[i], r), n, n, side) == e
        ensures SquareMatch(i, RotatedSquareMosaic(mosaics[i], r)) in Query(side, e)
      {
        var f := RotationFromRight(side);
        var q := Add(r, Add(f, Add(f, f)));
        assert Add(q, f) == r;
        EntryViewEdge(mosaics[i], n, q, side);
        assert Listed(index, mosaics[i], n, i, q);
      }
    }

    /** What `iter_by_edge(side)` yields: every key has at least one item,
        each item is a member turned so that its edge on `side` is the key,
        and every member under every rotation is yielded under the key of
        its edge on `side`. */
    lemma {:induction false} IterByEdgeGroups(side: Side)
      requires Valid()
      ensures forall e :: e in IterByEdge(side) ==> IterByEdge(side)[e] != {}
      ensures forall e, v :: e in IterByEdge(side) && v in IterByEdge(side)[e] ==>
        v.slot < |mosaics| && v.view.RotatedSquareMosaic? && v.view.mosaic == mosaics[v.slot]
        && Shape(v.view, n, n) && SideEdge(v.view, n, n, side) == e
      ensures forall i, r :: 0 <= i < |mosaics| ==>
        var v := RotatedSquareMosaic(mosaics[i], r);
        SideEdge(v, n, n, side) in IterByEdge(side) && SquareMatch(i, v) in IterByEdge(side)[SideEdge(v, n, n, side)]
    {
      var groups := IterByEdge(side);
      forall e | e in groups
        ensures groups[e] != {}
        ensures forall v: SquareMatch :: v in groups[e] ==>
          v.slot < |mosaics| && v.view.RotatedSquareMosaic? && v.view.mosaic == mosaics[v.slot]
          && Shape(v.view, n, n) && SideEdge(v.view, n, n, side) == e
      {
        QueryMatches(side, e);
        var q :| q in index[e];
        assert SquareMatch(q.slot, EntryView(mosaics[q.slot], q.rotation, side)) in groups[e];
      }
      forall i, r | 0 <= i < |mosaics|
        ensures var v := RotatedSquareMosaic(mosaics[i], r);
          SideEdge(v, n, n, side) in groups && SquareMatch(i, v) in groups[SideEdge(v, n, n, side)]
      {
        var v := RotatedSquareMosaic(mosaics[i], r);
        var e := SideEdge(v, n, n, side);
        var f := RotationFromRight(side);
        var q := Add(r, Add(f, Add(f, f)));
        assert Add(q, f) == r;
        EntryViewEdge(mosaics[i], n, q, side);
        assert Listed(index, mosaics[i], n, i, q);
        QueryMatches(side, e);
      }
    }

    /** `assert_distinct`: collect every member under every rotation into
        an ordered set, which merges equal grids, and compare its size with
        four times the number of members; `false` is the source's panic. */
    method AssertDistinct() returns (distinct: bool)
      requires Valid()
      ensures distinct <==> DistinctUpToRotation(mosaics, n)
    {
      var all: set<seq<seq<RotatedTile>>> := {};
      ghost var listed: seq<seq<seq<RotatedTile>>> := [];
      for k := 0 to 4
        invariant listed == ViewCellsUpTo(mosaics, n, k) && Collected(all, listed)
      {
        var rotation := AllRotations[k];
        for i := 0 to |mosaics|
          invariant listed == ViewCellsUpTo(mosaics, n, k) + RotationViewCells(mosaics, n, rotation)[..i]
          invariant Collected(all, listed)
        {
          WithSquareRotationIsView(mosaics[i], n, rotation);
          var grid := Cells(WithSquareRotation(mosaics[i], rotation), n, n);
          NoDuplicatesAppend(listed, grid, all);
          RotationViewCellsPrefix(mosaics, n, rotation, i);
          listed := listed + [grid];
          all := all + {grid};
        }
        assert RotationViewCells(mosaics, n, rotation)[..|mosaics|] == RotationViewCells(mosaics, n, rotation);
      }
      distinct := |all| == 4 * |mosaics|;
      AllViewCellsDistinct(mosaics, n);
    }
  }

  /* ------------------------------------------------------------ Example */

  /** The `iter_by_edge` test: a set holding only the 2x2 example mosaic
      answers a query for the right edge "aa" with exactly that mosaic
      turned half and turned a quarter right. */
  lemma QueryExample(s: SquareMosaicSet, e: Edge)
    requires s.Valid() && s.n == 2 && s.mosaics == [SQUARE_EXAMPLE] && Render(e) == "aa"
    ensures forall v :: v in s.Query(Right, e) <==>
      v == SquareMatch(0, RotatedSquareMosaic(SQUARE_EXAMPLE, HalfTurn))
      || v == SquareMatch(0, RotatedSquareMosaic(SQUARE_EXAMPLE, QuarterTurnRight))
  {
    var m := SQUARE_EXAMPLE;
    SquareExampleEdges();
    HalfTurnedSquareExampleEdges();
    QuarterLeftTurnedSquareExampleEdges();
    QuarterRightTurnedSquareExampleEdges();
    SquareViewEdge(m, 2, Identity, Right);
    RenderInjective(SideEdge(RotatedSquareMosaic(m, HalfTurn), 2, 2, Right), e);
    RenderInjective(SideEdge(RotatedSquareMosaic(m, QuarterTurnRight), 2, 2, Right), e);
    s.QueryMatches(Right, e);
    forall v | v in s.Query(Right, e)
      ensures v.view == RotatedSquareMosaic(m, HalfTurn) || v.view == RotatedSquareMosaic(m, QuarterTurnRight)
    {
      var r := v.view.rotation;
      assert v.view == RotatedSquareMosaic(m, r);
      assert Render(SideEdge(v.view, 2, 2, Right)) == "aa";
      assert r != Identity && r != QuarterTurnLeft;
    }
  }
}
