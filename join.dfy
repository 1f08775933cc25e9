/** The doubling joins of src/set/mod.rs: `build_rectangles_memo` pairs every
    view of one square set with every view of another whose left edge
    mates its right edge, and `build_squares_memo` stacks rectangles the
    same way; each accepted pair is spliced and handed to a shard of the
    set builder. The six fixed builds choose the filters that keep each
    result in canonical orientation.

    The parallel `for_each_with` over the groups is modelled as one
    sequential pass: `items` is the stream of mosaics handed to the shards,
    in one order the parallel run may produce, and the ghost `pairs` says
    which views each item came from. */
module Join {
  import opened Sides
  import opened Tiles
  import opened Edges
  import opened Mosaics
  import opened Collections
  import opened Combine
  import R = Rectangular
  import SS = SquareSets
  import RS = RectangleSets

  /* ------------------------------------------------------ Shared helpers */

  /** Appending an element not yet listed keeps a list duplicate-free. */
  lemma {:induction false} AppendFresh<T>(s: seq<T>, x: T)
    requires NoDuplicates(s) && x !in s
    ensures NoDuplicates(s + [x])
  {
    var t := s + [x];
    forall i, j | 0 <= i < j < |t|
      ensures t[i] != t[j]
    {
      if j == |s| {
        assert t[i] == s[i];
      } else {
        assert t[i] == s[i] && t[j] == s[j];
      }
    }
  }

  /** Two duplicate-free lists with no element in common concatenate to a
      duplicate-free list. */
  lemma {:induction false} ConcatDisjoint<T>(s: seq<T>, t: seq<T>)
    requires NoDuplicates(s) && NoDuplicates(t)
    requires forall x :: x in t ==> x !in s
    ensures NoDuplicates(s + t)
  {
    var u := s + t;
    forall i, j | 0 <= i < j < |u|
      ensures u[i] != u[j]
    {
      if j < |s| {
        assert u[i] == s[i] && u[j] == s[j];
      } else if i < |s| {
        assert u[i] == s[i] && u[j] == t[j - |s|];
        assert t[j - |s|] in t;
      } else {
        assert u[i] == t[i - |s|] && u[j] == t[j - |s|];
      }
    }
  }

  /** The memo function and the filter are defined on every mosaic of the
      size the join works on. */
  ghost predicate MemoDefined<M(!new)>(aMemo: Mosaic --> Option<M>, bFilter: (M, Mosaic) --> bool, w: int, h: int)
  {
    (forall m :: Shape(m, w, h) ==> aMemo.requires(m))
    && (forall memo, m :: Shape(m, w, h) ==> bFilter.requires(memo, m))
  }

  /* ------------------------------------------- Squares side by side */

  /** The left view and the right view of one side-by-side join. */
  datatype SquarePair = SquarePair(a: SS.SquareMatch, b: SS.SquareMatch)

  /** `v` is member `v.slot` of `ms` under some rotation. */
  predicate IsSquareView(ms: seq<Mosaic>, v: SS.SquareMatch)
  {
    v.slot < |ms| && v.view.RotatedSquareMosaic? && v.view.mosaic == ms[v.slot]
  }

  /** `items[i]` is the rectangle the join of `pairs[i]` splices. */
  predicate ProducedH(pairs: seq<SquarePair>, items: seq<Mosaic>, s: int)
  {
    |items| == |pairs| && forall i :: 0 <= i < |pairs| ==>
      Shape(pairs[i].a.view, s, s) && Shape(pairs[i].b.view, s, s)
      && CombineHorizontally(pairs[i].a.view, pairs[i].b.view, s) == Some(items[i])
  }

  /** Joining what was produced in two runs. */
  lemma {:induction false} ProducedHConcat(p1: seq<SquarePair>, i1: seq<Mosaic>, p2: seq<SquarePair>, i2: seq<Mosaic>, s: int)
    requires ProducedH(p1, i1, s) && ProducedH(p2, i2, s)
    ensures ProducedH(p1 + p2, i1 + i2, s)
  {
    var p, it := p1 + p2, i1 + i2;
    forall i | 0 <= i < |p|
      ensures Shape(p[i].a.view, s, s) && Shape(p[i].b.view, s, s)
      ensures CombineHorizontally(p[i].a.view, p[i].b.view, s) == Some(it[i])
    {
      if i < |p1| {
        assert p[i] == p1[i] && it[i] == i1[i];
      } else {
        assert p[i] == p2[i - |p1|] && it[i] == i2[i - |p1|];
      }
    }
  }

  /** A pair of views the side-by-side join accepts, whatever its filters:
      both are turned members of their sets, the right view's left edge is
      the reversal of the left view's right edge, and the splice uses no
      catalog tile twice. */
  ghost predicate MatchesH(aMosaics: seq<Mosaic>, bMosaics: seq<Mosaic>, s: int, p: SquarePair)
    requires SS.AllShaped(aMosaics, s) && SS.AllShaped(bMosaics, s)
  {
    IsSquareView(aMosaics, p.a) && IsSquareView(bMosaics, p.b)
    && Shape(p.a.view, s, s) && Shape(p.b.view, s, s)
    && SideEdge(p.b.view, s, s, Left) == Reversal(SideEdge(p.a.view, s, s, Right))
    && CombineHorizontally(p.a.view, p.b.view, s).Some?
  }

  /** A pair `build_rectangles_memo` hands to the builder: it matches, the
      memo of the left view is present, and the filter accepts the right
      view with that memo. */
  ghost predicate JoinsH<M(!new)>(aMosaics: seq<Mosaic>, bMosaics: seq<Mosaic>, s: int,
                           aMemo: Mosaic --> Option<M>, bFilter: (M, Mosaic) --> bool, p: SquarePair)
    requires SS.AllShaped(aMosaics, s) && SS.AllShaped(bMosaics, s) && MemoDefined(aMemo, bFilter, s, s)
  {
    MatchesH(aMosaics, bMosaics, s, p)
    && aMemo(p.a.view).Some? && bFilter(aMemo(p.a.view).value, p.b.view)
  }

  /** The innermost loop: one left view with its memo against every right
      view the query yields. */
  method JoinRightsH<M(!new)>(a: SS.SquareMatch, memo: M, rights: set<SS.SquareMatch>,
                        bFilter: (M, Mosaic) --> bool, s: int)
    returns (items: seq<Mosaic>, ghost pairs: seq<SquarePair>)
    requires Shape(a.view, s, s)
    requires forall b :: b in rights ==> Shape(b.view, s, s) && bFilter.requires(memo, b.view)
    ensures ProducedH(pairs, items, s) && NoDuplicates(pairs)
    ensures forall p :: p in pairs <==>
      p.a == a && p.b in rights && bFilter(memo, p.b.view) && CombineHorizontally(a.view, p.b.view, s).Some?
  {
    items, pairs := [], [];
    var rest := rights;
    while rest != {}
      invariant rest <= rights
      invariant ProducedH(pairs, items, s) && NoDuplicates(pairs)
      invariant forall p :: p in pairs <==>
        p.a == a && p.b in rights - rest && bFilter(memo, p.b.view) && CombineHorizontally(a.view, p.b.view, s).Some?
      decreases |rest|
    {
      var b :| b in rest;
      if bFilter(memo, b.view) {
        var mosaic := CombineSquaresHorizontally(a.view, b.view, s);
        if mosaic.Some? {
          AppendFresh(pairs, SquarePair(a, b));
          items := items + [mosaic.value];
          pairs := pairs + [SquarePair(a, b)];
        }
      }
      rest := rest - {b};
    }
  }

  /** The loop over one group: every left view sharing the key, each with
      its memo, against the right views of the reversed key. */
  method JoinGroupH<M(!new)>(lefts: set<SS.SquareMatch>, aMemo: Mosaic --> Option<M>, rights: set<SS.SquareMatch>,
                       bFilter: (M, Mosaic) --> bool, s: int)
    returns (items: seq<Mosaic>, ghost pairs: seq<SquarePair>)
    requires MemoDefined(aMemo, bFilter, s, s)
    requires forall a :: a in lefts ==> Shape(a.view, s, s)
    requires forall b :: b in rights ==> Shape(b.view, s, s)
    ensures ProducedH(pairs, items, s) && NoDuplicates(pairs)
    ensures forall p :: p in pairs <==>
      p.a in lefts && p.b in rights && aMemo(p.a.view).Some? && bFilter(aMemo(p.a.view).value, p.b.view)
      && CombineHorizontally(p.a.view, p.b.view, s).Some?
  {
    items, pairs := [], [];
    var rest := lefts;
    while rest != {}
      invariant rest <= lefts
      invariant ProducedH(pairs, items, s) && NoDuplicates(pairs)
      invariant forall p :: p in pairs <==>
        p.a in lefts - rest && p.b in rights && aMemo(p.a.view).Some? && bFilter(aMemo(p.a.view).value, p.b.view)
        && CombineHorizontally(p.a.view, p.b.view, s).Some?
      decreases |rest|
    {
      var a :| a in rest;
      var memo := aMemo(a.view);
      if memo.Some? {
        var more, morePairs := JoinRightsH(a, memo.value, rights, bFilter, s);
        ConcatDisjoint(pairs, morePairs);
        ProducedHConcat(pairs, items, morePairs, more, s);
        items := items + more;
        pairs := pairs + morePairs;
      }
      rest := rest - {a};
    }
  }

  /** The pairs one group contributes are the accepted pairs whose left
      view shows the group's key on its right side. */
  lemma {:induction false} GroupPairsH<M(!new)>(aSet: SS.SquareMosaicSet, aMemo: Mosaic --> Option<M>, bSet: SS.SquareMosaicSet,
                       bFilter: (M, Mosaic) --> bool, e: Edge)
    requires aSet.Valid() && bSet.Valid() && aSet.n == bSet.n
    requires MemoDefined(aMemo, bFilter, aSet.n, aSet.n)
    requires e in aSet.IterByEdge(Right)
    ensures forall p: SquarePair ::
      (p.a in aSet.IterByEdge(Right)[e] && p.b in bSet.Query(Left, Reversal(e))
       && aMemo(p.a.view).Some? && bFilter(aMemo(p.a.view).value, p.b.view)
       && CombineHorizontally(p.a.view, p.b.view, aSet.n).Some?)
      <==>
      (JoinsH(aSet.mosaics, bSet.mosaics, aSet.n, aMemo, bFilter, p) && SideEdge(p.a.view, aSet.n, aSet.n, Right) == e)
  {
    var s := aSet.n;
    aSet.IterByEdgeGroups(Right);
    bSet.QueryMatches(Left, Reversal(e));
    forall p: SquarePair | JoinsH(aSet.mosaics, bSet.mosaics, s, aMemo, bFilter, p) && SideEdge(p.a.view, s, s, Right) == e
      ensures p.a in aSet.IterByEdge(Right)[e] && p.b in bSet.Query(Left, Reversal(e))
    {
      assert p.a == SS.SquareMatch(p.a.slot, RotatedSquareMosaic(aSet.mosaics[p.a.slot], p.a.view.rotation));
      assert p.b == SS.SquareMatch(p.b.slot, RotatedSquareMosaic(bSet.mosaics[p.b.slot], p.b.view.rotation));
    }
  }

  /** The work for one key of `iter_by_edge(Right)`: reverse it, query the
      right set, and join the group against what the query yields. */
  method JoinKeyH<M(!new)>(aSet: SS.SquareMosaicSet, aMemo: Mosaic --> Option<M>,
                           bSet: SS.SquareMosaicSet, bFilter: (M, Mosaic) --> bool, aSharedEdge: Edge)
    returns (items: seq<Mosaic>, ghost pairs: seq<SquarePair>)
    requires aSet.Valid() && bSet.Valid() && aSet.n == bSet.n
    requires MemoDefined(aMemo, bFilter, aSet.n, aSet.n)
    requires aSharedEdge in aSet.IterByEdge(Right)
    ensures ProducedH(pairs, items, aSet.n) && NoDuplicates(pairs)
    ensures UnderKeyH(aSet.mosaics, bSet.mosaics, aSet.n, aMemo, bFilter, pairs, aSharedEdge)
  {
    aSet.IterByEdgeGroups(Right);
    var bSharedEdge := Reversed(aSharedEdge);
    bSet.QueryMatches(Left, bSharedEdge);
    items, pairs := JoinGroupH(aSet.IterByEdge(Right)[aSharedEdge], aMemo, bSet.Query(Left, bSharedEdge), bFilter, aSet.n);
    GroupPairsH(aSet, aMemo, bSet, bFilter, aSharedEdge);
  }

  /** `pairs` lists exactly the accepted pairs whose left view shows, on
      its right side, an edge outside `keys`: the account of the outer
      loop once the keys not in `keys` are done. */
  ghost predicate DoneExceptH<M(!new)>(aMosaics: seq<Mosaic>, bMosaics: seq<Mosaic>, s: int,
                                       aMemo: Mosaic --> Option<M>, bFilter: (M, Mosaic) --> bool,
                                       pairs: seq<SquarePair>, keys: set<Edge>)
    requires SS.AllShaped(aMosaics, s) && SS.AllShaped(bMosaics, s) && MemoDefined(aMemo, bFilter, s, s)
  {
    forall p :: p in pairs <==>
      JoinsH(aMosaics, bMosaics, s, aMemo, bFilter, p) && SideEdge(p.a.view, s, s, Right) !in keys
  }

  /** `pairs` lists exactly the accepted pairs whose left view shows `e`
      on its right side. */
  ghost predicate UnderKeyH<M(!new)>(aMosaics: seq<Mosaic>, bMosaics: seq<Mosaic>, s: int,
                                     aMemo: Mosaic --> Option<M>, bFilter: (M, Mosaic) --> bool,
                                     pairs: seq<SquarePair>, e: Edge)
    requires SS.AllShaped(aMosaics, s) && SS.AllShaped(bMosaics, s) && MemoDefined(aMemo, bFilter, s, s)
  {
    forall p :: p in pairs <==>
      JoinsH(aMosaics, bMosaics, s, aMemo, bFilter, p) && SideEdge(p.a.view, s, s, Right) == e
  }

  /** Before any key is done nothing is owed: every left view shows a key
      of `iter_by_edge(Right)` on its right side. */
  lemma {:induction false} NothingDoneH<M(!new)>(aSet: SS.SquareMosaicSet, aMemo: Mosaic --> Option<M>,
                              bSet: SS.SquareMosaicSet, bFilter: (M, Mosaic) --> bool)
    requires aSet.Valid() && bSet.Valid() && aSet.n == bSet.n
    requires MemoDefined(aMemo, bFilter, aSet.n, aSet.n)
    ensures DoneExceptH(aSet.mosaics, bSet.mosaics, aSet.n, aMemo, bFilter, [], aSet.IterByEdge(Right).Keys)
  {
    var s := aSet.n;
    aSet.IterByEdgeGroups(Right);
    forall p | JoinsH(aSet.mosaics, bSet.mosaics, s, aMemo, bFilter, p)
      ensures SideEdge(p.a.view, s, s, Right) in aSet.IterByEdge(Right)
    {
      assert p.a.view == RotatedSquareMosaic(aSet.mosaics[p.a.slot], p.a.view.rotation);
    }
  }

  /** Adding the pairs of one more key keeps the outer loop's account. */
  lemma {:induction false} KeyStepH<M(!new)>(aMosaics: seq<Mosaic>, bMosaics: seq<Mosaic>, s: int,
                          aMemo: Mosaic --> Option<M>, bFilter: (M, Mosaic) --> bool,
                          pairs: seq<SquarePair>, more: seq<SquarePair>, keys: set<Edge>, e: Edge)
    requires SS.AllShaped(aMosaics, s) && SS.AllShaped(bMosaics, s) && MemoDefined(aMemo, bFilter, s, s)
    requires e in keys && NoDuplicates(pairs) && NoDuplicates(more)
    requires DoneExceptH(aMosaics, bMosaics, s, aMemo, bFilter, pairs, keys)
    requires UnderKeyH(aMosaics, bMosaics, s, aMemo, bFilter, more, e)
    ensures NoDuplicates(pairs + more)
    ensures DoneExceptH(aMosaics, bMosaics, s, aMemo, bFilter, pairs + more, keys - {e})
  {
    ConcatDisjoint(pairs, more);
  }

  /** `build_rectangles_memo`: every group of left views sharing a right
      edge, against the right views whose left edge is its reversal. The
      stream holds one rectangle for each accepted pair, and no pair
      twice. */
  method BuildRectanglesMemo<M(!new)>(aSet: SS.SquareMosaicSet, aMemo: Mosaic --> Option<M>,
                                bSet: SS.SquareMosaicSet, bFilter: (M, Mosaic) --> bool)
    returns (items: seq<Mosaic>, ghost pairs: seq<SquarePair>)
    requires aSet.Valid() && bSet.Valid() && aSet.n == bSet.n
    requires MemoDefined(aMemo, bFilter, aSet.n, aSet.n)
    ensures ProducedH(pairs, items, aSet.n) && NoDuplicates(pairs)
    ensures forall p :: p in pairs <==> JoinsH(aSet.mosaics, bSet.mosaics, aSet.n, aMemo, bFilter, p)
  {
    var s := aSet.n;
    var groups := aSet.IterByEdge(Right);
    var keys := groups.Keys;
    NothingDoneH(aSet, aMemo, bSet, bFilter);
    items, pairs := [], [];
    while keys != {}
      invariant keys <= groups.Keys
      invariant ProducedH(pairs, items, s) && NoDuplicates(pairs)
      invariant DoneExceptH(aSet.mosaics, bSet.mosaics, s, aMemo, bFilter, pairs, keys)
      decreases |keys|
    {
      var aSharedEdge :| aSharedEdge in keys;
      var more, morePairs := JoinKeyH(aSet, aMemo, bSet, bFilter, aSharedEdge);
      KeyStepH(aSet.mosaics, bSet.mosaics, s, aMemo, bFilter, pairs, morePairs, keys, aSharedEdge);
      ProducedHConcat(pairs, items, morePairs, more, s);
      items := items + more;
      pairs := pairs + morePairs;
      keys := keys - {aSharedEdge};
    }
  }
  /* ------------------------------------------- Rectangles stacked */

  /** The upper view and the lower view of one stacked join. */
  datatype RectPair = RectPair(a: RS.RectMatch, b: RS.RectMatch)

  /** `v` is member `v.slot` of `ms` under some rotation. */
  predicate IsRectView(ms: seq<Mosaic>, v: RS.RectMatch)
  {
    v.slot < |ms| && v.view.RotatedRectangularMosaic? && v.view.mosaic == ms[v.slot]
  }

  /** `items[i]` is the square the join of `pairs[i]` splices. */
  predicate ProducedV(pairs: seq<RectPair>, items: seq<Mosaic>, s: int)
  {
    |items| == |pairs| && forall i :: 0 <= i < |pairs| ==>
      Shape(pairs[i].a.view, 2 * s, s) && Shape(pairs[i].b.view, 2 * s, s)
      && CombineVertically(pairs[i].a.view, pairs[i].b.view, s) == Some(items[i])
  }

  /** Joining what was produced in two runs. */
  lemma {:induction false} ProducedVConcat(p1: seq<RectPair>, i1: seq<Mosaic>, p2: seq<RectPair>, i2: seq<Mosaic>, s: int)
    requires ProducedV(p1, i1, s) && ProducedV(p2, i2, s)
    ensures ProducedV(p1 + p2, i1 + i2, s)
  {
    var p, it := p1 + p2, i1 + i2;
    forall i | 0 <= i < |p|
      ensures Shape(p[i].a.view, 2 * s, s) && Shape(p[i].b.view, 2 * s, s)
      ensures CombineVertically(p[i].a.view, p[i].b.view, s) == Some(it[i])
    {
      if i < |p1| {
        assert p[i] == p1[i] && it[i] == i1[i];
      } else {
        assert p[i] == p2[i - |p1|] && it[i] == i2[i - |p1|];
      }
    }
  }

  /** A pair of views the stacked join accepts, whatever its filters: both
      are turned members of their sets, the lower view's top edge is the
      reversal of the upper view's bottom edge, and the splice uses no
      catalog tile twice. */
  ghost predicate MatchesV(aMosaics: seq<Mosaic>, bMosaics: seq<Mosaic>, s: int, p: RectPair)
    requires RS.AllShaped(aMosaics, 2 * s, s) && RS.AllShaped(bMosaics, 2 * s, s)
  {
    IsRectView(aMosaics, p.a) && IsRectView(bMosaics, p.b)
    && Shape(p.a.view, 2 * s, s) && Shape(p.b.view, 2 * s, s)
    && SideEdge(p.b.view, 2 * s, s, Top) == Reversal(SideEdge(p.a.view, 2 * s, s, Bottom))
    && CombineVertically(p.a.view, p.b.view, s).Some?
  }

  /** A pair `build_squares_memo` hands to the builder: it matches, the
      memo of the upper view is present, and the filter accepts the lower
      view with that memo. */
  ghost predicate JoinsV<M(!new)>(aMosaics: seq<Mosaic>, bMosaics: seq<Mosaic>, s: int,
                           aMemo: Mosaic --> Option<M>, bFilter: (M, Mosaic) --> bool, p: RectPair)
    requires RS.AllShaped(aMosaics, 2 * s, s) && RS.AllShaped(bMosaics, 2 * s, s) && MemoDefined(aMemo, bFilter, 2 * s, s)
  {
    MatchesV(aMosaics, bMosaics, s, p)
    && aMemo(p.a.view).Some? && bFilter(aMemo(p.a.view).value, p.b.view)
  }

  /** The innermost loop: one upper view with its memo against every lower
      view the query yields. */
  method JoinBelowV<M(!new)>(a: RS.RectMatch, memo: M, belows: set<RS.RectMatch>,
                        bFilter: (M, Mosaic) --> bool, s: int)
    returns (items: seq<Mosaic>, ghost pairs: seq<RectPair>)
    requires Shape(a.view, 2 * s, s)
    requires forall b :: b in belows ==> Shape(b.view, 2 * s, s) && bFilter.requires(memo, b.view)
    ensures ProducedV(pairs, items, s) && NoDuplicates(pairs)
    ensures forall p :: p in pairs <==>
      p.a == a && p.b in belows && bFilter(memo, p.b.view) && CombineVertically(a.view, p.b.view, s).Some?
  {
    items, pairs := [], [];
    var rest := belows;
    while rest != {}
      invariant rest <= belows
      invariant ProducedV(pairs, items, s) && NoDuplicates(pairs)
      invariant forall p :: p in pairs <==>
        p.a == a && p.b in belows - rest && bFilter(memo, p.b.view) && CombineVertically(a.view, p.b.view, s).Some?
      decreases |rest|
    {
      var b :| b in rest;
      if bFilter(memo, b.view) {
        var mosaic := CombineRectanglesVertically(a.view, b.view, s);
        if mosaic.Some? {
          AppendFresh(pairs, RectPair(a, b));
          items := items + [mosaic.value];
          pairs := pairs + [RectPair(a, b)];
        }
      }
      rest := rest - {b};
    }
  }

  /** The loop over one group: every upper view sharing the key, each with
      its memo, against the lower views of the reversed key. */
  method JoinGroupV<M(!new)>(aboves: set<RS.RectMatch>, aMemo: Mosaic --> Option<M>, belows: set<RS.RectMatch>,
                       bFilter: (M, Mosaic) --> bool, s: int)
    returns (items: seq<Mosaic>, ghost pairs: seq<RectPair>)
    requires MemoDefined(aMemo, bFilter, 2 * s, s)
    requires forall a :: a in aboves ==> Shape(a.view, 2 * s, s)
    requires forall b :: b in belows ==> Shape(b.view, 2 * s, s)
    ensures ProducedV(pairs, items, s) && NoDuplicates(pairs)
    ensures forall p :: p in pairs <==>
      p.a in aboves && p.b in belows && aMemo(p.a.view).Some? && bFilter(aMemo(p.a.view).value, p.b.view)
      && CombineVertically(p.a.view, p.b.view, s).Some?
  {
    items, pairs := [], [];
    var rest := aboves;
    while rest != {}
      invariant rest <= aboves
      invariant ProducedV(pairs, items, s) && NoDuplicates(pairs)
      invariant forall p :: p in pairs <==>
        p.a in aboves - rest && p.b in belows && aMemo(p.a.view).Some? && bFilter(aMemo(p.a.view).value, p.b.view)
        && CombineVertically(p.a.view, p.b.view, s).Some?
      decreases |rest|
    {
      var a :| a in rest;
      var memo := aMemo(a.view);
      if memo.Some? {
        var more, morePairs := JoinBelowV(a, memo.value, belows, bFilter, s);
        ConcatDisjoint(pairs, morePairs);
        ProducedVConcat(pairs, items, morePairs, more, s);
        items := items + more;
        pairs := pairs + morePairs;
      }
      rest := rest - {a};
    }
  }

  /** Every view of the group shows the key on its bottom side, and every
      view the query yields shows its reversal on its top side. */
  lemma {:induction false} GroupSoundV(aSet: RS.RectangularMosaicSet, bSet: RS.RectangularMosaicSet, e: Edge)
    requires aSet.Valid() && bSet.Valid() && aSet.w == 2 * aSet.h && bSet.w == aSet.w && bSet.h == aSet.h
    requires e in aSet.IterByHorizontalEdge(R.Bottom)
    ensures forall a :: a in aSet.IterByHorizontalEdge(R.Bottom)[e] ==>
      IsRectView(aSet.mosaics, a) && SideEdge(a.view, 2 * aSet.h, aSet.h, Bottom) == e
    ensures forall b :: b in bSet.QueryHorizontal(R.Top, Reversal(e)) ==>
      IsRectView(bSet.mosaics, b) && SideEdge(b.view, 2 * aSet.h, aSet.h, Top) == Reversal(e)
  {
    assert R.HorizontalToSquare(R.Bottom) == Bottom && R.HorizontalToSquare(R.Top) == Top;
    aSet.IterByHorizontalEdgeGroups(R.Bottom);
    bSet.QueryHorizontalMatches(R.Top, Reversal(e));
  }

  /** Every turned member whose bottom side shows the key is in the group. */
  lemma {:induction false} GroupCompleteV(aSet: RS.RectangularMosaicSet, e: Edge)
    requires aSet.Valid() && aSet.w == 2 * aSet.h
    requires e in aSet.IterByHorizontalEdge(R.Bottom)
    ensures forall a :: IsRectView(aSet.mosaics, a) && SideEdge(a.view, 2 * aSet.h, aSet.h, Bottom) == e ==>
      a in aSet.IterByHorizontalEdge(R.Bottom)[e]
  {
    assert R.HorizontalToSquare(R.Bottom) == Bottom;
    aSet.IterByHorizontalEdgeGroups(R.Bottom);
    forall a | IsRectView(aSet.mosaics, a) && SideEdge(a.view, 2 * aSet.h, aSet.h, Bottom) == e
      ensures a in aSet.IterByHorizontalEdge(R.Bottom)[e]
    {
      var v := RotatedRectangularMosaic(aSet.mosaics[a.slot], a.view.rectangularRotation);
      assert a == RS.RectMatch(a.slot, v);
      assert SideEdge(v, aSet.w, aSet.h, Bottom) == e;
      assert RS.RectMatch(a.slot, v) in aSet.IterByHorizontalEdge(R.Bottom)[SideEdge(v, aSet.w, aSet.h, R.HorizontalToSquare(R.Bottom))];
    }
  }

  /** Every turned member whose top side shows `e` is yielded by the
      query. */
  lemma {:induction false} QueryCompleteV(bSet: RS.RectangularMosaicSet, e: Edge)
    requires bSet.Valid()
    ensures forall b :: IsRectView(bSet.mosaics, b) && SideEdge(b.view, bSet.w, bSet.h, Top) == e ==>
      b in bSet.QueryHorizontal(R.Top, e)
  {
    assert R.HorizontalToSquare(R.Top) == Top;
    bSet.QueryHorizontalMatches(R.Top, e);
    forall b | IsRectView(bSet.mosaics, b) && SideEdge(b.view, bSet.w, bSet.h, Top) == e
      ensures b in bSet.QueryHorizontal(R.Top, e)
    {
      assert b == RS.RectMatch(b.slot, RotatedRectangularMosaic(bSet.mosaics[b.slot], b.view.rectangularRotation));
    }
  }

  /** The pairs one group contributes are the accepted pairs whose upper
      view shows the group's key on its bottom side. */
  lemma {:induction false} GroupPairsV<M(!new)>(aSet: RS.RectangularMosaicSet, aMemo: Mosaic --> Option<M>, bSet: RS.RectangularMosaicSet,
                       bFilter: (M, Mosaic) --> bool, e: Edge)
    requires aSet.Valid() && bSet.Valid() && aSet.w == 2 * aSet.h && bSet.w == aSet.w && bSet.h == aSet.h
    requires MemoDefined(aMemo, bFilter, 2 * aSet.h, aSet.h)
    requires e in aSet.IterByHorizontalEdge(R.Bottom)
    ensures forall p: RectPair ::
      (p.a in aSet.IterByHorizontalEdge(R.Bottom)[e] && p.b in bSet.QueryHorizontal(R.Top, Reversal(e))
       && aMemo(p.a.view).Some? && bFilter(aMemo(p.a.view).value, p.b.view)
       && CombineVertically(p.a.view, p.b.view, aSet.h).Some?)
      <==>
      (JoinsV(aSet.mosaics, bSet.mosaics, aSet.h, aMemo, bFilter, p) && SideEdge(p.a.view, 2 * aSet.h, aSet.h, Bottom) == e)
  {
    GroupSoundV(aSet, bSet, e);
    GroupCompleteV(aSet, e);
    QueryCompleteV(bSet, Reversal(e));
  }

  /** The work for one key of `iter_by_horizontal_edge(Bottom)`: reverse
      it, query the lower set, and join the group against what the query
      yields. */
  method JoinKeyV<M(!new)>(aSet: RS.RectangularMosaicSet, aMemo: Mosaic --> Option<M>,
                           bSet: RS.RectangularMosaicSet, bFilter: (M, Mosaic) --> bool, aSharedEdge: Edge)
    returns (items: seq<Mosaic>, ghost pairs: seq<RectPair>)
    requires aSet.Valid() && bSet.Valid() && aSet.w == 2 * aSet.h && bSet.w == aSet.w && bSet.h == aSet.h
    requires MemoDefined(aMemo, bFilter, 2 * aSet.h, aSet.h)
    requires aSharedEdge in aSet.IterByHorizontalEdge(R.Bottom)
    ensures ProducedV(pairs, items, aSet.h) && NoDuplicates(pairs)
    ensures UnderKeyV(aSet.mosaics, bSet.mosaics, aSet.h, aMemo, bFilter, pairs, aSharedEdge)
  {
    aSet.IterByHorizontalEdgeGroups(R.Bottom);
    var bSharedEdge := Reversed(aSharedEdge);
    bSet.QueryHorizontalMatches(R.Top, bSharedEdge);
    items, pairs := JoinGroupV(aSet.IterByHorizontalEdge(R.Bottom)[aSharedEdge], aMemo, bSet.QueryHorizontal(R.Top, bSharedEdge), bFilter, aSet.h);
    GroupPairsV(aSet, aMemo, bSet, bFilter, aSharedEdge);
  }

  /** `pairs` lists exactly the accepted pairs whose upper view shows, on
      its bottom side, an edge outside `keys`: the account of the outer
      loop once the keys not in `keys` are done. */
  ghost predicate DoneExceptV<M(!new)>(aMosaics: seq<Mosaic>, bMosaics: seq<Mosaic>, s: int,
                                       aMemo: Mosaic --> Option<M>, bFilter: (M, Mosaic) --> bool,
                                       pairs: seq<RectPair>, keys: set<Edge>)
    requires RS.AllShaped(aMosaics, 2 * s, s) && RS.AllShaped(bMosaics, 2 * s, s) && MemoDefined(aMemo, bFilter, 2 * s, s)
  {
    forall p :: p in pairs <==>
      JoinsV(aMosaics, bMosaics, s, aMemo, bFilter, p) && SideEdge(p.a.view, 2 * s, s, Bottom) !in keys
  }

  /** `pairs` lists exactly the accepted pairs whose upper view shows `e`
      on its bottom side. */
  ghost predicate UnderKeyV<M(!new)>(aMosaics: seq<Mosaic>, bMosaics: seq<Mosaic>, s: int,
                                     aMemo: Mosaic --> Option<M>, bFilter: (M, Mosaic) --> bool,
                                     pairs: seq<RectPair>, e: Edge)
    requires RS.AllShaped(aMosaics, 2 * s, s) && RS.AllShaped(bMosaics, 2 * s, s) && MemoDefined(aMemo, bFilter, 2 * s, s)
  {
    forall p :: p in pairs <==>
      JoinsV(aMosaics, bMosaics, s, aMemo, bFilter, p) && SideEdge(p.a.view, 2 * s, s, Bottom) == e
  }

  /** Before any key is done nothing is owed: every upper view shows a key
      of `iter_by_horizontal_edge(Bottom)` on its bottom side. */
  lemma {:induction false} NothingDoneV<M(!new)>(aSet: RS.RectangularMosaicSet, aMemo: Mosaic --> Option<M>,
                              bSet: RS.RectangularMosaicSet, bFilter: (M, Mosaic) --> bool)
    requires aSet.Valid() && bSet.Valid() && aSet.w == 2 * aSet.h && bSet.w == aSet.w && bSet.h == aSet.h
    requires MemoDefined(aMemo, bFilter, 2 * aSet.h, aSet.h)
    ensures DoneExceptV(aSet.mosaics, bSet.mosaics, aSet.h, aMemo, bFilter, [], aSet.IterByHorizontalEdge(R.Bottom).Keys)
  {
    var s := aSet.h;
    aSet.IterByHorizontalEdgeGroups(R.Bottom);
    forall p | JoinsV(aSet.mosaics, bSet.mosaics, s, aMemo, bFilter, p)
      ensures SideEdge(p.a.view, 2 * s, s, Bottom) in aSet.IterByHorizontalEdge(R.Bottom)
    {
      assert p.a.view == RotatedRectangularMosaic(aSet.mosaics[p.a.slot], p.a.view.rectangularRotation);
    }
  }

  /** Adding the pairs of one more key keeps the outer loop's account. */
  lemma {:induction false} KeyStepV<M(!new)>(aMosaics: seq<Mosaic>, bMosaics: seq<Mosaic>, s: int,
                          aMemo: Mosaic --> Option<M>, bFilter: (M, Mosaic) --> bool,
                          pairs: seq<RectPair>, more: seq<RectPair>, keys: set<Edge>, e: Edge)
    requires RS.AllShaped(aMosaics, 2 * s, s) && RS.AllShaped(bMosaics, 2 * s, s) && MemoDefined(aMemo, bFilter, 2 * s, s)
    requires e in keys && NoDuplicates(pairs) && NoDuplicates(more)
    requires DoneExceptV(aMosaics, bMosaics, s, aMemo, bFilter, pairs, keys)
    requires UnderKeyV(aMosaics, bMosaics, s, aMemo, bFilter, more, e)
    ensures NoDuplicates(pairs + more)
    ensures DoneExceptV(aMosaics, bMosaics, s, aMemo, bFilter, pairs + more, keys - {e})
  {
    ConcatDisjoint(pairs, more);
  }

  /** `build_squares_memo`: every group of upper views sharing a bottom
      edge, against the lower views whose top edge is its reversal. The
      stream holds one square for each accepted pair, and no pair twice.
      The rectangles must be twice as wide as they are high. */
  method BuildSquaresMemo<M(!new)>(aSet: RS.RectangularMosaicSet, aMemo: Mosaic --> Option<M>,
                                bSet: RS.RectangularMosaicSet, bFilter: (M, Mosaic) --> bool)
    returns (items: seq<Mosaic>, ghost pairs: seq<RectPair>)
    requires aSet.Valid() && bSet.Valid() && aSet.w == 2 * aSet.h && bSet.w == aSet.w && bSet.h == aSet.h
    requires MemoDefined(aMemo, bFilter, 2 * aSet.h, aSet.h)
    ensures ProducedV(pairs, items, aSet.h) && NoDuplicates(pairs)
    ensures forall p :: p in pairs <==> JoinsV(aSet.mosaics, bSet.mosaics, aSet.h, aMemo, bFilter, p)
  {
    var s := aSet.h;
    var groups := aSet.IterByHorizontalEdge(R.Bottom);
    var keys := groups.Keys;
    NothingDoneV(aSet, aMemo, bSet, bFilter);
    items, pairs := [], [];
    while keys != {}
      invariant keys <= groups.Keys
      invariant ProducedV(pairs, items, s) && NoDuplicates(pairs)
      invariant DoneExceptV(aSet.mosaics, bSet.mosaics, s, aMemo, bFilter, pairs, keys)
      decreases |keys|
    {
      var aSharedEdge :| aSharedEdge in keys;
      var more, morePairs := JoinKeyV(aSet, aMemo, bSet, bFilter, aSharedEdge);
      KeyStepV(aSet.mosaics, bSet.mosaics, s, aMemo, bFilter, pairs, morePairs, keys, aSharedEdge);
      ProducedVConcat(pairs, items, morePairs, more, s);
      items := items + more;
      pairs := pairs + morePairs;
      keys := keys - {aSharedEdge};
    }
  }
}
