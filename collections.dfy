/** Sequences without duplicates, and a set collected from a sequence:
    the two `assert_distinct` checks put every view into an ordered set
    and compare its size with the number of views. */
module Collections {
  /** No two elements of the sequence are equal. */
  predicate NoDuplicates<T(==)>(s: seq<T>)
  {
    forall a, b :: 0 <= a < b < |s| ==> s[a] != s[b]
  }

  /** `all` is the set of the elements listed so far, and it is as large as
      the list exactly when the list has no duplicates. */
  predicate Collected<T(==)>(all: set<T>, listed: seq<T>)
  {
    all == (set y | y in listed) && |all| <= |listed| && (|all| == |listed| <==> NoDuplicates(listed))
  }

  /** Appending an element to the list and adding it to the set keeps
      the set collected from the list. */
  lemma NoDuplicatesAppend<T>(listed: seq<T>, x: T, all: set<T>)
    requires Collected(all, listed)
    ensures Collected(all + {x}, listed + [x])
  {
    var s := listed + [x];
    if x in all {
      var a :| 0 <= a < |listed| && listed[a] == x;
      assert s[a] == s[|listed|];
    } else {
      assert |all + {x}| == |all| + 1;
      if NoDuplicates(s) {
        forall a, b | 0 <= a < b < |listed|
          ensures listed[a] != listed[b]
        {
          assert s[a] == listed[a] && s[b] == listed[b];
        }
      }
      forall a, b | 0 <= a < b < |s| && NoDuplicates(listed)
        ensures s[a] != s[b]
      {
        if b == |listed| {
          assert s[a] in all;
        } else {
          assert s[a] == listed[a] && s[b] == listed[b];
        }
      }
    }
  }

  /** Two equally long blocks with no duplicate inside either block and no
      element shared between them. */
  predicate BlocksDistinct<T(==)>(a: seq<T>, b: seq<T>)
    requires |a| == |b|
  {
    (forall i, j :: 0 <= i < j < |a| ==> a[i] != a[j] && b[i] != b[j])
    && (forall i, j :: 0 <= i < |a| && 0 <= j < |b| ==> a[i] != b[j])
  }

  /** The concatenation of two equally long blocks has no duplicates
      exactly when the blocks are distinct. */
  lemma NoDuplicatesBlocks<T>(a: seq<T>, b: seq<T>)
    requires |a| == |b|
    ensures NoDuplicates(a + b) <==> BlocksDistinct(a, b)
  {
    var g := a + b;
    var L := |a|;
    assert forall i :: 0 <= i < L ==> g[i] == a[i] && g[L + i] == b[i];
    if NoDuplicates(g) {
      forall i, j | 0 <= i < j < L
        ensures a[i] != a[j] && b[i] != b[j]
      {
        assert g[L + i] != g[L + j];
      }
      forall i, j | 0 <= i < L && 0 <= j < L
        ensures a[i] != b[j]
      {
        assert g[i] != g[L + j];
      }
    }
    if BlocksDistinct(a, b) {
      forall x, y | 0 <= x < y < |g|
        ensures g[x] != g[y]
      {
        if y < L {
          assert g[x] == a[x] && g[y] == a[y];
        } else if x < L {
          assert g[x] == a[x] && g[y] == b[y - L];
        } else {
          assert g[x] == b[x - L] && g[y] == b[y - L];
        }
      }
    }
  }
}
