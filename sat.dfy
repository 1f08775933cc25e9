/** The SAT encoding helpers (src/sat.rs): DIMACS literals, the clause
    store, the at-most-one and at-least-one constraints, and the numbering
    of the puzzle's variables.

    A clause is judged against a truth assignment, given as the set of
    variables that are true: a positive literal holds when its variable is
    in the set, a negative one when it is not. */
module Sat {
  import opened Sides
  import opened Catalog
  import opened Tiles

  /* ------------------------------------------------------------ Literals */

  /** A DIMACS literal: a variable index, negated for the negative
      literal. */
  datatype Literal = Literal(value: int)

  /** `Literal::positive`. */
  function Positive(v: nat): Literal
  {
    Literal(v)
  }

  /** `Literal::negative`. */
  function Negative(v: nat): Literal
  {
    Literal(-(v as int))
  }

  /** Whether a literal holds when exactly the variables in `trueVars` are
      true; the index 0 is no variable, and no literal on it holds. */
  predicate LiteralHolds(l: Literal, trueVars: set<nat>)
  {
    if l.value > 0 then l.value as nat in trueVars
    else if l.value < 0 then (-l.value) as nat !in trueVars
    else false
  }

  /** A positive literal says its variable is true, a negative one that it
      is false, and both name the variable they were made from. */
  lemma LiteralMeaning(v: nat, trueVars: set<nat>)
    requires 1 <= v
    ensures Positive(v).value == v && Negative(v).value == -(v as int)
    ensures LiteralHolds(Positive(v), trueVars) <==> v in trueVars
    ensures LiteralHolds(Negative(v), trueVars) <==> v !in trueVars
  {
  }

  /* ------------------------------------------------------------- Clauses */

  /** `BinaryClause`: two literals, of which one must hold. */
  datatype BinaryClause = BinaryClause(a: Literal, b: Literal)

  /** `LongClause`: any number of literals, of which one must hold. */
  datatype LongClause = LongClause(literals: seq<Literal>)

  predicate BinaryHolds(c: BinaryClause, trueVars: set<nat>)
  {
    LiteralHolds(c.a, trueVars) || LiteralHolds(c.b, trueVars)
  }

  predicate LongHolds(c: LongClause, trueVars: set<nat>)
  {
    exists i :: 0 <= i < |c.literals| && LiteralHolds(c.literals[i], trueVars)
  }

  predicate AllBinaryHold(cs: seq<BinaryClause>, trueVars: set<nat>)
  {
    forall i :: 0 <= i < |cs| ==> BinaryHolds(cs[i], trueVars)
  }

  /** At most one of the variables is true. */
  predicate AtMostOne(vs: seq<nat>, trueVars: set<nat>)
  {
    forall j, k :: 0 <= j < k < |vs| ==> !(vs[j] in trueVars && vs[k] in trueVars)
  }

  /** Every variable names a variable: index 0 is the DIMACS terminator. */
  predicate AllVariables(vs: seq<nat>)
  {
    forall i :: 0 <= i < |vs| ==> 1 <= vs[i]
  }

  /** The clauses that keep `vs[k]` from being true together with any of
      `vs[0]`, ..., `vs[m - 1]`, in that order. */
  function Row(vs: seq<nat>, k: int, m: int): (r: seq<BinaryClause>)
    requires 0 <= k < |vs| && 0 <= m <= k
    ensures |r| == m
  {
    seq(m, j requires 0 <= j < m => BinaryClause(Negative(vs[k]), Negative(vs[j])))
  }

  /** What at-most-one must emit: a clause for every pair of positions,
      row after row. */
  function AllPairs(vs: seq<nat>): seq<BinaryClause>
  {
    if vs == [] then [] else AllPairs(vs[..|vs| - 1]) + Row(vs, |vs| - 1, |vs| - 1)
  }

  /** What `emit_at_most_one_of` emits as written: the row of `vs[k]`
      stops short of its left neighbour `vs[k - 1]`. */
  function PairsAsWritten(vs: seq<nat>): seq<BinaryClause>
    requires 1 <= |vs|
  {
    if |vs| == 1 then [] else PairsAsWritten(vs[..|vs| - 1]) + Row(vs, |vs| - 1, |vs| - 2)
  }

  /** A row does not depend on what follows its variable. */
  lemma RowOfPrefix(vs: seq<nat>, k: int, m: int)
    requires 0 <= m <= k < |vs|
    ensures Row(vs[..k + 1], k, m) == Row(vs, k, m)
  {
  }

  lemma AllHoldConcat(a: seq<BinaryClause>, b: seq<BinaryClause>, trueVars: set<nat>)
    ensures AllBinaryHold(a + b, trueVars) <==> AllBinaryHold(a, trueVars) && AllBinaryHold(b, trueVars)
  {
    assert forall i :: 0 <= i < |a| ==> (a + b)[i] == a[i];
    assert forall i :: 0 <= i < |b| ==> (a + b)[|a| + i] == b[i];
  }

  /** A row holds exactly when `vs[k]` is not true together with any of
      the first `m` variables. */
  lemma RowMeaning(vs: seq<nat>, k: int, m: int, trueVars: set<nat>)
    requires 0 <= m <= k < |vs| && AllVariables(vs)
    ensures AllBinaryHold(Row(vs, k, m), trueVars) <==>
      forall j :: 0 <= j < m ==> !(vs[j] in trueVars && vs[k] in trueVars)
  {
    forall j | 0 <= j < m
      ensures BinaryHolds(Row(vs, k, m)[j], trueVars) <==> !(vs[j] in trueVars && vs[k] in trueVars)
    {
      LiteralMeaning(vs[k], trueVars);
      LiteralMeaning(vs[j], trueVars);
    }
  }

  /** The clauses of every pair hold exactly when at most one of the
      variables is true: the promise of `emit_at_most_one_of`. */
  lemma {:induction false} AllPairsMeaning(vs: seq<nat>, trueVars: set<nat>)
    requires AllVariables(vs)
    ensures AllBinaryHold(AllPairs(vs), trueVars) <==> AtMostOne(vs, trueVars)
  {
    if vs != [] {
      var n := |vs|;
      var init := vs[..n - 1];
      AllPairsMeaning(init, trueVars);
      AllHoldConcat(AllPairs(init), Row(vs, n - 1, n - 1), trueVars);
      RowMeaning(vs, n - 1, n - 1, trueVars);
      if AtMostOne(init, trueVars) && forall j :: 0 <= j < n - 1 ==> !(vs[j] in trueVars && vs[n - 1] in trueVars) {
        forall j, k | 0 <= j < k < n
          ensures !(vs[j] in trueVars && vs[k] in trueVars)
        {
          if k < n - 1 {
            assert init[j] == vs[j] && init[k] == vs[k];
          }
        }
      }
      if AtMostOne(vs, trueVars) {
        forall j, k | 0 <= j < k < n - 1
          ensures !(init[j] in trueVars && init[k] in trueVars)
        {
          assert init[j] == vs[j] && init[k] == vs[k];
        }
      }
    }
  }

  /** Every clause emitted as written is one of the pairs, so the
      constraint emitted as written never excludes an assignment that
      at-most-one allows. */
  lemma {:induction false} AsWrittenIsImplied(vs: seq<nat>, trueVars: set<nat>)
    requires 1 <= |vs| && AllVariables(vs) && AtMostOne(vs, trueVars)
    ensures AllBinaryHold(PairsAsWritten(vs), trueVars)
  {
    if |vs| > 1 {
      var n := |vs|;
      var init := vs[..n - 1];
      assert AtMostOne(init, trueVars) by {
        forall j, k | 0 <= j < k < n - 1
          ensures !(init[j] in trueVars && init[k] in trueVars)
        {
          assert init[j] == vs[j] && init[k] == vs[k];
        }
      }
      AsWrittenIsImplied(init, trueVars);
      RowMeaning(vs, n - 1, n - 2, trueVars);
      AllHoldConcat(PairsAsWritten(init), Row(vs, n - 1, n - 2), trueVars);
    }
  }

  /** Two variables, both true: as written, nothing is emitted, so the
      assignment passes although at-most-one forbids it. */
  lemma AsWrittenAllowsTwo()
    ensures PairsAsWritten([1, 2]) == []
    ensures AllBinaryHold(PairsAsWritten([1, 2]), {1, 2}) && !AtMostOne([1, 2], {1, 2})
  {
    var vs: seq<nat> := [1, 2];
    assert vs[..1] == [1];
    assert !(vs[0] in {1, 2} && vs[1] in {1, 2}) == false;
  }

  /** As written, `n` variables get (n-1)(n-2)/2 clauses. */
  lemma {:induction false} PairsAsWrittenCount(vs: seq<nat>)
    requires 1 <= |vs|
    ensures 2 * |PairsAsWritten(vs)| == (|vs| - 1) * (|vs| - 2)
  {
    if |vs| > 1 {
      var n := |vs|;
      PairsAsWrittenCount(vs[..n - 1]);
      assert (n - 1) * (n - 2) == (n - 2) * (n - 3) + 2 * (n - 2);
    }
  }

  /** Every pair: `n` variables get n(n-1)/2 clauses. */
  lemma {:induction false} AllPairsCount(vs: seq<nat>)
    ensures 2 * |AllPairs(vs)| == |vs| * (|vs| - 1)
  {
    if vs != [] {
      var n := |vs|;
      AllPairsCount(vs[..n - 1]);
      assert n * (n - 1) == (n - 1) * (n - 2) + 2 * (n - 1);
    }
  }

  /** The positive literals of the variables, in order. */
  function PositiveLiterals(vs: seq<nat>): (r: seq<Literal>)
    ensures |r| == |vs|
  {
    seq(|vs|, i requires 0 <= i < |vs| => Positive(vs[i]))
  }

  /** The clause `emit_at_least_one_of` emits holds exactly when one of
      the variables is true. */
  lemma AtLeastOneMeaning(vs: seq<nat>, trueVars: set<nat>)
    requires AllVariables(vs)
    ensures LongHolds(LongClause(PositiveLiterals(vs)), trueVars) <==> exists i :: 0 <= i < |vs| && vs[i] in trueVars
  {
    forall i | 0 <= i < |vs|
      ensures LiteralHolds(PositiveLiterals(vs)[i], trueVars) <==> vs[i] in trueVars
    {
      LiteralMeaning(vs[i], trueVars);
    }
  }

  /** `Clauses`: the binary and the long clauses, each in the order they
      were pushed. */
  class Clauses {
    var binary: seq<BinaryClause>
    var long: seq<LongClause>

    /** `Clauses::default()`. */
    constructor ()
      ensures binary == [] && long == []
    {
      binary := [];
      long := [];
    }

    /** `len`: the number of clauses of both kinds. */
    function Len(): nat
      reads this
    {
      |binary| + |long|
    }

    /** `push_binary`: one more binary clause, and nothing else. */
    method PushBinary(a: Literal, b: Literal)
      modifies this
      ensures binary == old(binary) + [BinaryClause(a, b)] && long == old(long)
      ensures Len() == old(Len()) + 1
    {
      binary := binary + [BinaryClause(a, b)];
    }

    /** `push_long`: one more long clause, and nothing else. */
    method PushLong(literals: seq<Literal>)
      modifies this
      ensures long == old(long) + [LongClause(literals)] && binary == old(binary)
      ensures Len() == old(Len()) + 1
    {
      long := long + [LongClause(literals)];
    }

    /** `push_unit`: a long clause of the one literal. */
    method PushUnit(literal: Literal)
      modifies this
      ensures long == old(long) + [LongClause([literal])] && binary == old(binary)
      ensures Len() == old(Len()) + 1
    {
      PushLong([literal]);
    }

    /** The inner loop: the clauses of one row. */
    method EmitRow(vs: seq<nat>, k: int, m: int)
      requires 0 <= m <= k < |vs|
      modifies this
      ensures binary == old(binary) + Row(vs, k, m) && long == old(long)
    {
      for j := 0 to m
        invariant binary == old(binary) + Row(vs, k, j) && long == old(long)
      {
        assert Row(vs, k, j + 1) == Row(vs, k, j) + [BinaryClause(Negative(vs[k]), Negative(vs[j]))];
        PushBinary(Negative(vs[k]), Negative(vs[j]));
      }
    }

    /** `emit_at_most_one_of` as written: the slice from position 1 on is
        walked with a counter `i` that starts at 0, and `variables[i + 1]`
        is paired with `variables[..i]`, one short of every earlier
        variable. The slice panics on an empty input. */
    method EmitAtMostOneOfAsWritten(vs: seq<nat>)
      requires 1 <= |vs|
      modifies this
      ensures binary == old(binary) + PairsAsWritten(vs) && long == old(long)
    {
      var rest := vs[1..];
      for i := 0 to |rest|
        invariant binary == old(binary) + PairsAsWritten(vs[..i + 1]) && long == old(long)
      {
        assert vs[..i + 2][..i + 1] == vs[..i + 1];
        RowOfPrefix(vs, i + 1, i);
        EmitRow(vs, i + 1, i);
      }
      assert vs[..|rest| + 1] == vs;
    }

    /** `emit_at_most_one_of` as intended: every variable is paired with
        every earlier one, and an empty input emits nothing. */
    method EmitAtMostOneOf(vs: seq<nat>)
      modifies this
      ensures binary == old(binary) + AllPairs(vs) && long == old(long)
    {
      for k := 0 to |vs|
        invariant binary == old(binary) + AllPairs(vs[..k]) && long == old(long)
      {
        assert vs[..k + 1][..k] == vs[..k];
        RowOfPrefix(vs, k, k);
        EmitRow(vs, k, k);
      }
      assert vs[..|vs|] == vs;
    }

    /** `emit_at_least_one_of`: one long clause of the positive literals,
        in input order. */
    method EmitAtLeastOneOf(vs: seq<nat>)
      modifies this
      ensures long == old(long) + [LongClause(PositiveLiterals(vs))] && binary == old(binary)
    {
      PushLong(PositiveLiterals(vs));
    }
  }

  /* ----------------------------------------------------------- Variables */

  /** A 4-bit coordinate, 0..16 from the left or from the top. */
  newtype U4 = x: int | 0 <= x < 16

  /** `Variable`: a 1-based DIMACS variable index. */
  datatype Variable = Variable(index: nat)

  const TILE_PLACEMENT_BASE: int := 1
  const TILE_PLACEMENT_COUNT: int := 16 * 16 * 1024
  const RIGHT_EDGE_COLOR_BASE: int := TILE_PLACEMENT_BASE + TILE_PLACEMENT_COUNT
  const RIGHT_EDGE_COLOR_COUNT: int := 15 * 16 * 22
  const BOTTOM_EDGE_COLOR_BASE: int := RIGHT_EDGE_COLOR_BASE + RIGHT_EDGE_COLOR_COUNT
  const BOTTOM_EDGE_COLOR_COUNT: int := 16 * 15 * 22
  /** The last variable index: the counts are sizes, the indices start
      at 1. */
  const COUNT: int := BOTTOM_EDGE_COLOR_BASE + BOTTOM_EDGE_COLOR_COUNT - 1

  /** `VariableKind`: what a variable says. */
  datatype VariableKind =
    | TilePlacement(x: U4, y: U4, rotatedTile: RotatedTile)
    | RightEdgeColor(x: U4, y: U4, color: Color)
    | BottomEdgeColor(x: U4, y: U4, color: Color)

  /** `for_tile_placement`: the rotated tile `rotatedTile` sits at column
      `x`, row `y`. */
  function ForTilePlacement(x: U4, y: U4, rotatedTile: RotatedTile): (v: Variable)
    ensures TILE_PLACEMENT_BASE <= v.index < RIGHT_EDGE_COLOR_BASE
  {
    Variable(16384 * y as int + 1024 * x as int + 4 * rotatedTile.tile as int
             + RotationToInt(rotatedTile.rotation) + TILE_PLACEMENT_BASE)
  }

  /** `for_right_edge_color`: the edge between column `x` and column
      `x + 1` of row `y` has colour `color`; the source asserts that a
      right neighbour exists and that the colour is a puzzle colour. */
  function ForRightEdgeColor(x: U4, y: U4, color: Color): (v: Variable)
    requires x < 15 && IsValidNonBorderColor(color)
    ensures RIGHT_EDGE_COLOR_BASE <= v.index < BOTTOM_EDGE_COLOR_BASE
  {
    Variable(330 * y as int + 22 * x as int + (color as int - 1) + RIGHT_EDGE_COLOR_BASE)
  }

  /** `for_bottom_edge_color`: the edge between row `y` and row `y + 1` of
      column `x` has colour `color`. */
  function ForBottomEdgeColor(x: U4, y: U4, color: Color): (v: Variable)
    requires y < 15 && IsValidNonBorderColor(color)
    ensures BOTTOM_EDGE_COLOR_BASE <= v.index <= COUNT
  {
    Variable(352 * y as int + 22 * x as int + (color as int - 1) + BOTTOM_EDGE_COLOR_BASE)
  }

  /** `U4::new_masked(k as u8)`: truncated to a byte, then to 4 bits. */
  function Mask4(k: nat): U4
  {
    ((k % 256) % 16) as U4
  }

  /** `Color::new_masked(k as u8)`: truncated to a byte, then to 5 bits. */
  function MaskColor(k: nat): Color
  {
    ((k % 256) % 32) as Color
  }

  /** `Rotation::new_masked(k as u8)`: truncated to a byte, then to 2 bits. */
  function MaskRotation(k: nat): Rotation
  {
    RotationFromInt((k % 256) % 4)
  }

  /** `Tile::from_primitive(k as u8)`. */
  function ByteTile(k: nat): Tile
  {
    (k % 256) as Tile
  }

  /** `kind`: the range an index falls in picks the kind, and the offset
      in that range is split back into coordinates. Index 0 is below the
      first range, where the unsigned subtraction fails. */
  function Kind(v: Variable): VariableKind
    requires 1 <= v.index
  {
    if v.index < RIGHT_EDGE_COLOR_BASE then
      var i := v.index - TILE_PLACEMENT_BASE;
      TilePlacement(Mask4(i / 1024), Mask4(i / 16384), RotatedTile(ByteTile(i / 4), MaskRotation(i)))
    else if v.index < BOTTOM_EDGE_COLOR_BASE then
      var i := v.index - RIGHT_EDGE_COLOR_BASE;
      RightEdgeColor(Mask4(i / 22 % 15), Mask4(i / 330), MaskColor(i % 22 + 1))
    else
      var i := v.index - BOTTOM_EDGE_COLOR_BASE;
      BottomEdgeColor(Mask4(i / 22), Mask4(i / 352), MaskColor(i % 22 + 1))
  }

  /** The kinds an encoder accepts. */
  predicate ValidKind(k: VariableKind)
  {
    match k
    case TilePlacement(_, _, _) => true
    case RightEdgeColor(x, _, c) => x < 15 && IsValidNonBorderColor(c)
    case BottomEdgeColor(_, y, c) => y < 15 && IsValidNonBorderColor(c)
  }

  /** The encoder for each kind. */
  function Encode(k: VariableKind): Variable
    requires ValidKind(k)
  {
    match k
    case TilePlacement(x, y, rt) => ForTilePlacement(x, y, rt)
    case RightEdgeColor(x, y, c) => ForRightEdgeColor(x, y, c)
    case BottomEdgeColor(x, y, c) => ForBottomEdgeColor(x, y, c)
  }

  /** Quotient and remainder are the only ones: `i = q * d + r` with
      `0 <= r < d` fixes both. */
  lemma DivMod(i: int, d: int, q: int, r: int)
    requires 0 < d && 0 <= r < d && i == q * d + r
    ensures i / d == q && i % d == r
  {
    var q', r' := i / d, i % d;
    assert i == q' * d + r';
    if q' > q {
      ProductNonNegative(q' - q - 1, d);
    } else if q' < q {
      ProductNonNegative(q - q' - 1, d);
    }
  }

  lemma ProductNonNegative(a: int, b: int)
    requires 0 <= a && 0 <= b
    ensures 0 <= a * b
  {
  }

  /** Masking to 4 bits keeps the low hex digit. */
  lemma Mask4Digit(k: nat, hi: nat, lo: nat)
    requires k == 16 * hi + lo && lo < 16 && hi < 16
    ensures Mask4(k) as int == lo
  {
    DivMod(k, 256, 0, k);
    DivMod(k, 16, hi, lo);
  }

  /** `kind` undoes `for_tile_placement`. */
  lemma DecodeTilePlacement(x: U4, y: U4, rt: RotatedTile)
    ensures Kind(ForTilePlacement(x, y, rt)) == TilePlacement(x, y, rt)
  {
    var t, r := rt.tile as int, RotationToInt(rt.rotation);
    var v := ForTilePlacement(x, y, rt);
    var i := v.index - TILE_PLACEMENT_BASE;
    DivMod(i, 1024, 16 * y as int + x as int, 4 * t + r);
    Mask4Digit(i / 1024, y as nat, x as nat);
    DivMod(i, 16384, y as int, 1024 * x as int + 4 * t + r);
    Mask4Digit(i / 16384, 0, y as nat);
    DivMod(i, 4, 4096 * y as int + 256 * x as int + t, r);
    DivMod(i / 4, 256, 16 * y as int + x as int, t);
    assert ByteTile(i / 4) == rt.tile;
    DivMod(i, 256, 64 * y as int + 4 * x as int + t / 64, 4 * (t % 64) + r);
    DivMod(i % 256, 4, t % 64, r);
    assert MaskRotation(i) == rt.rotation;
    assert Kind(v) == TilePlacement(Mask4(i / 1024), Mask4(i / 16384), RotatedTile(ByteTile(i / 4), MaskRotation(i)));
  }

  /** `kind` undoes `for_right_edge_color`. */
  lemma DecodeRightEdgeColor(x: U4, y: U4, c: Color)
    requires x < 15 && IsValidNonBorderColor(c)
    ensures Kind(ForRightEdgeColor(x, y, c)) == RightEdgeColor(x, y, c)
  {
    var v := ForRightEdgeColor(x, y, c);
    var i := v.index - RIGHT_EDGE_COLOR_BASE;
    DivMod(i, 22, 15 * y as int + x as int, c as int - 1);
    DivMod(15 * y as int + x as int, 15, y as int, x as int);
    Mask4Digit(i / 22 % 15, 0, x as nat);
    DivMod(i, 330, y as int, 22 * x as int + c as int - 1);
    Mask4Digit(i / 330, 0, y as nat);
    assert MaskColor(i % 22 + 1) == c;
    assert Kind(v) == RightEdgeColor(Mask4(i / 22 % 15), Mask4(i / 330), MaskColor(i % 22 + 1));
  }

  /** `kind` undoes `for_bottom_edge_color`. */
  lemma DecodeBottomEdgeColor(x: U4, y: U4, c: Color)
    requires y < 15 && IsValidNonBorderColor(c)
    ensures Kind(ForBottomEdgeColor(x, y, c)) == BottomEdgeColor(x, y, c)
  {
    var v := ForBottomEdgeColor(x, y, c);
    var i := v.index - BOTTOM_EDGE_COLOR_BASE;
    DivMod(i, 22, 16 * y as int + x as int, c as int - 1);
    Mask4Digit(i / 22, y as nat, x as nat);
    DivMod(i, 352, y as int, 22 * x as int + c as int - 1);
    Mask4Digit(i / 352, 0, y as nat);
    assert MaskColor(i % 22 + 1) == c;
    assert Kind(v) == BottomEdgeColor(Mask4(i / 22), Mask4(i / 352), MaskColor(i % 22 + 1));
  }

  /** Decoding an encoded variable gives back what was encoded. */
  lemma DecodeEncode(k: VariableKind)
    requires ValidKind(k)
    ensures 1 <= Encode(k).index <= COUNT && Kind(Encode(k)) == k
  {
    match k
    case TilePlacement(x, y, rt) => DecodeTilePlacement(x, y, rt);
    case RightEdgeColor(x, y, c) => DecodeRightEdgeColor(x, y, c);
    case BottomEdgeColor(x, y, c) => DecodeBottomEdgeColor(x, y, c);
  }

  /** Every index of the tile-placement range encodes its own kind. */
  lemma EncodeDecodeTile(v: Variable)
    requires TILE_PLACEMENT_BASE <= v.index < RIGHT_EDGE_COLOR_BASE
    ensures ValidKind(Kind(v)) && Encode(Kind(v)) == v
  {
    var i := v.index - TILE_PLACEMENT_BASE;
    var q4, r4 := i / 4, i % 4;
    var t, q1024 := q4 % 256, q4 / 256;
    var x, y := q1024 % 16, q1024 / 16;
    DivMod(i, 1024, q1024, 4 * t + r4);
    Mask4Digit(i / 1024, y, x);
    DivMod(i, 16384, y, 1024 * x + 4 * t + r4);
    Mask4Digit(i / 16384, 0, y);
    DivMod(i, 256, q4 / 64, 4 * (q4 % 64) + r4);
    DivMod(i % 256, 4, q4 % 64, r4);
    assert Kind(v) == TilePlacement(x as U4, y as U4, RotatedTile(t as Tile, RotationFromInt(r4)));
  }

  /** Every index of the right-edge range encodes its own kind. */
  lemma EncodeDecodeRight(v: Variable)
    requires RIGHT_EDGE_COLOR_BASE <= v.index < BOTTOM_EDGE_COLOR_BASE
    ensures ValidKind(Kind(v)) && Encode(Kind(v)) == v
  {
    var i := v.index - RIGHT_EDGE_COLOR_BASE;
    var q22, r22 := i / 22, i % 22;
    var x, y := q22 % 15, q22 / 15;
    Mask4Digit(x, 0, x);
    DivMod(i, 330, y, 22 * x + r22);
    Mask4Digit(i / 330, 0, y);
    assert MaskColor(r22 + 1) as int == r22 + 1;
    assert Kind(v) == RightEdgeColor(x as U4, y as U4, (r22 + 1) as Color);
  }

  /** Every index of the bottom-edge range, up to `COUNT`, encodes its own
      kind. */
  lemma EncodeDecodeBottom(v: Variable)
    requires BOTTOM_EDGE_COLOR_BASE <= v.index <= COUNT
    ensures ValidKind(Kind(v)) && Encode(Kind(v)) == v
  {
    var i := v.index - BOTTOM_EDGE_COLOR_BASE;
    var q22, r22 := i / 22, i % 22;
    var x, y := q22 % 16, q22 / 16;
    Mask4Digit(i / 22, y, x);
    DivMod(i, 352, y, 22 * x + r22);
    Mask4Digit(i / 352, 0, y);
    assert MaskColor(r22 + 1) as int == r22 + 1;
    assert Kind(v) == BottomEdgeColor(x as U4, y as U4, (r22 + 1) as Color);
  }

  /** Every index from 1 to `COUNT` is the encoding of its own kind. */
  lemma EncodeDecode(v: Variable)
    requires 1 <= v.index <= COUNT
    ensures ValidKind(Kind(v)) && Encode(Kind(v)) == v
  {
    if v.index < RIGHT_EDGE_COLOR_BASE {
      EncodeDecodeTile(v);
    } else if v.index < BOTTOM_EDGE_COLOR_BASE {
      EncodeDecodeRight(v);
    } else {
      EncodeDecodeBottom(v);
    }
  }

  /** The encodings are pairwise distinct, and they are exactly the
      indices 1 to `COUNT`, so `COUNT`, 272704, is the number of distinct
      variables. */
  lemma CountIsNumberOfVariables()
    ensures COUNT == 272704
    ensures forall k1, k2 :: ValidKind(k1) && ValidKind(k2) && Encode(k1) == Encode(k2) ==> k1 == k2
    ensures forall v: Variable :: 1 <= v.index <= COUNT <==> exists k :: ValidKind(k) && Encode(k) == v
  {
    forall k1, k2 | ValidKind(k1) && ValidKind(k2) && Encode(k1) == Encode(k2)
      ensures k1 == k2
    {
      DecodeEncode(k1);
      DecodeEncode(k2);
    }
    forall v: Variable
      ensures 1 <= v.index <= COUNT <==> exists k :: ValidKind(k) && Encode(k) == v
    {
      if 1 <= v.index <= COUNT {
        EncodeDecode(v);
      }
      if exists k :: ValidKind(k) && Encode(k) == v {
        var k :| ValidKind(k) && Encode(k) == v;
        DecodeEncode(k);
      }
    }
  }
}
