/** Edges (src/edge.rs): the colours along one side of a mosaic, listed
    clockwise around the mosaic, so that two mosaics fit side by
    side exactly when one edge is the reverse of the other. `ArrayEdge<N>`
    is a fixed-length array; here an edge is a sequence and `N` is its
    length. */
module Edges {
  import opened Catalog
  import opened Tiles

  type Edge = seq<Color>

  /** `ArrayEdge::default()`: `n` EXTERIOR colours. */
  function DefaultEdge(n: nat): (e: Edge)
    ensures |e| == n && forall i :: 0 <= i < n ==> e[i] == EXTERIOR
  {
    seq(n, _ => EXTERIOR)
  }

  /** The edge read in the opposite direction. */
  function Reversal(e: Edge): (r: Edge)
    ensures |r| == |e|
  {
    seq(|e|, i requires 0 <= i < |e| => e[|e| - 1 - i])
  }

  /** `ArrayEdge::reversed`: start from the default edge and store the
      colours of `e`, taken from the back, at increasing indices. */
  method Reversed(e: Edge) returns (result: Edge)
    ensures result == Reversal(e)
  {
    result := DefaultEdge(|e|);
    var index := 0;
    while index < |e|
      invariant 0 <= index <= |e| && |result| == |e|
      invariant forall i :: 0 <= i < index ==> result[i] == e[|e| - 1 - i]
    {
      result := result[index := e[|e| - 1 - index]];
      index := index + 1;
    }
  }

  /** `ArrayEdge::flip_eq`: the colours of `a` paired with those of `b`
      read backwards all agree. */
  function FlipEq(a: Edge, b: Edge): (r: bool)
    requires |a| == |b|
  {
    forall i :: 0 <= i < |a| ==> a[i] == b[|b| - 1 - i]
  }

  /** `ArrayEdge::from_byte_string`: each byte decoded as a colour; the
      source panics on the first byte that is not a colour letter, which is
      the `None` outcome here. */
  method FromByteString(colors: seq<Byte>) returns (result: Option<Edge>)
    ensures result.Some? <==> forall i :: 0 <= i < |colors| ==> FromByteChar(colors[i]).Some?
    ensures result.Some? ==> |result.value| == |colors|
    ensures result.Some? ==> forall i :: 0 <= i < |colors| ==> Some(result.value[i]) == FromByteChar(colors[i])
  {
    var edge := DefaultEdge(|colors|);
    var index := 0;
    while index < |colors|
      invariant 0 <= index <= |colors| && |edge| == |colors|
      invariant forall i :: 0 <= i < index ==> Some(edge[i]) == FromByteChar(colors[i])
    {
      match FromByteChar(colors[index]) {
        case None =>
          return None;
        case Some(c) =>
          edge := edge[index := c];
      }
      index := index + 1;
    }
    result := Some(edge);
  }

  /** The bytes of an edge's colour letters. */
  function ToByteString(e: Edge): (r: seq<Byte>)
    ensures |r| == |e|
  {
    seq(|e|, i requires 0 <= i < |e| => ToByteChar(e[i]))
  }

  /** `Display for ArrayEdge`: the colour letters, in order. */
  function Render(e: Edge): (r: string)
    ensures |r| == |e|
  {
    seq(|e|, i requires 0 <= i < |e| => ToChar(e[i]))
  }

  /** An edge of puzzle colours, 0..=22. */
  predicate IsColorEdge(e: Edge)
  {
    forall i :: 0 <= i < |e| ==> e[i] as int <= 22
  }

  /* --------------------------------------------------------------- Lemmas */

  /** Reversing twice gives the edge back. */
  lemma ReversalInvolution(e: Edge)
    ensures Reversal(Reversal(e)) == e
  {
  }

  /** Reversal distributes over concatenation, swapping the parts. */
  lemma ReversalAppend(a: Edge, b: Edge)
    ensures Reversal(a + b) == Reversal(b) + Reversal(a)
  {
  }

  /** `flip_eq(a, b)` holds exactly when `a` is `b` reversed, which is
      symmetric in `a` and `b`. */
  lemma {:induction false} FlipEqIsReversal(a: Edge, b: Edge)
    requires |a| == |b|
    ensures FlipEq(a, b) <==> a == Reversal(b)
    ensures FlipEq(a, b) <==> FlipEq(b, a)
  {
    if FlipEq(a, b) {
      assert forall i :: 0 <= i < |b| ==> b[i] == a[|a| - 1 - i] by {
        forall i | 0 <= i < |b|
          ensures b[i] == a[|a| - 1 - i]
        {
          assert a[|a| - 1 - i] == b[|b| - 1 - (|a| - 1 - i)];
        }
      }
    }
    if FlipEq(b, a) {
      assert forall i :: 0 <= i < |a| ==> a[i] == b[|b| - 1 - i] by {
        forall i | 0 <= i < |a|
          ensures a[i] == b[|b| - 1 - i]
        {
          assert b[|b| - 1 - i] == a[|a| - 1 - (|b| - 1 - i)];
        }
      }
    }
  }

  /** A byte string of colour letters parses back from the bytes of its
      edge, and the bytes of an edge of puzzle colours parse back to it. */
  lemma ByteStringRoundTrip(e: Edge)
    requires IsColorEdge(e)
    ensures forall i :: 0 <= i < |e| ==> FromByteChar(ToByteString(e)[i]) == Some(e[i])
    ensures forall i :: 0 <= i < |e| ==> IsColorLetter(ToByteString(e)[i])
  {
  }

  /** An edge renders as the characters of its bytes. */
  lemma RenderIsByteString(e: Edge)
    ensures forall i :: 0 <= i < |e| ==> Render(e)[i] == ToByteString(e)[i] as int as char
  {
  }

  /** Different edges render differently, so an edge is named by its
      letters. */
  lemma RenderInjective(a: Edge, b: Edge)
    ensures Render(a) == Render(b) ==> a == b
  {
    if Render(a) == Render(b) {
      forall i | 0 <= i < |a|
        ensures a[i] == b[i]
      {
        assert Render(a)[i] == Render(b)[i];
      }
    }
  }
}
