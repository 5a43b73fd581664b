/**
 * The constraint model the optimizer builds, as a function of its inputs, and
 * what it means: an assignment satisfies the model exactly when the positions
 * it gives form a feasible layout whose distances fit the declared domains,
 * and the `total_distance` variable then holds that layout's total distance.
 */
module Formulation {
  import opened Geometry
  import opened CpSat
  import Layout

  /** The model's variables: `x_i`, `y_i`, `left_i_j`, `right_i_j`, `above_i_j`, `below_i_j`, `dx`, `dy` per connection, `total_distance`. */
  datatype Var =
    | X(i: int)
    | Y(i: int)
    | Left(i: int, j: int)
    | Right(i: int, j: int)
    | Above(i: int, j: int)
    | Below(i: int, j: int)
    | Dx(k: int)
    | Dy(k: int)
    | Total

  // The linear expressions the builder posts.

  /** `x_i + w_i`, the right edge of block i. */
  function XEnd(blocks: seq<Block>, i: nat): Expr<Var>
    requires i < |blocks|
  {
    Plus(Ref(X(i)), Const(blocks[i].width))
  }

  /** `y_i + h_i`, the bottom edge of block i. */
  function YEnd(blocks: seq<Block>, i: nat): Expr<Var>
    requires i < |blocks|
  {
    Plus(Ref(Y(i)), Const(blocks[i].height))
  }

  /** `x_i + w_i // 2`. */
  function XCentre(blocks: seq<Block>, i: nat): Expr<Var>
    requires i < |blocks|
  {
    Plus(Ref(X(i)), Const(blocks[i].width / 2))
  }

  /** `y_i + h_i // 2`. */
  function YCentre(blocks: seq<Block>, i: nat): Expr<Var>
    requires i < |blocks|
  {
    Plus(Ref(Y(i)), Const(blocks[i].height / 2))
  }

  /** `dx + dy` of connection k, the entry appended to `distances`. */
  function ConnDistance(k: int): Expr<Var>
  {
    Plus(Ref(Dx(k)), Ref(Dy(k)))
  }

  /** The `distances` list after k connections. */
  function Distances(k: nat): seq<Expr<Var>>
  {
    seq(k, m => ConnDistance(m))
  }

  /** `sum(es)`: a left fold of `+` starting from 0. */
  function Sum(es: seq<Expr<Var>>): Expr<Var>
  {
    if es == [] then Const(0) else Plus(Sum(es[..|es| - 1]), es[|es| - 1])
  }

  function Objective(): Expr<Var>
  {
    Ref(Total)
  }

  // The constraints, in the order the builder posts them.

  function BlockDomains(blocks: seq<Block>, grid: Grid, i: nat): seq<Constraint<Var>>
    requires i < |blocks|
  {
    [Domain(X(i), 0, grid.width - blocks[i].width), Domain(Y(i), 0, grid.height - blocks[i].height)]
  }

  /** The position variables of the first n blocks. */
  function PositionDomains(blocks: seq<Block>, grid: Grid, n: nat): seq<Constraint<Var>>
    requires n <= |blocks|
  {
    if n == 0 then [] else PositionDomains(blocks, grid, n - 1) + BlockDomains(blocks, grid, n - 1)
  }

  /** The four reified separations of the pair (i, j) and their disjunction. */
  function PairConstraints(blocks: seq<Block>, i: nat, j: nat): seq<Constraint<Var>>
    requires i < |blocks| && j < |blocks|
  {
    [ Domain(Left(i, j), 0, 1), Linear(XEnd(blocks, i), Le, Ref(X(j)), [Left(i, j)]),
      Domain(Right(i, j), 0, 1), Linear(XEnd(blocks, j), Le, Ref(X(i)), [Right(i, j)]),
      Domain(Above(i, j), 0, 1), Linear(YEnd(blocks, i), Le, Ref(Y(j)), [Above(i, j)]),
      Domain(Below(i, j), 0, 1), Linear(YEnd(blocks, j), Le, Ref(Y(i)), [Below(i, j)]),
      BoolOr([Left(i, j), Right(i, j), Above(i, j), Below(i, j)]) ]
  }

  /** The pairs (i, j) for i < j < m: the inner loop's constraints after it reaches m. */
  function RowConstraints(blocks: seq<Block>, i: nat, m: nat): seq<Constraint<Var>>
    requires i < |blocks| && m <= |blocks|
  {
    if m <= i + 1 then [] else RowConstraints(blocks, i, m - 1) + PairConstraints(blocks, i, m - 1)
  }

  /** The pairs whose first block is among the first n. */
  function OverlapConstraints(blocks: seq<Block>, n: nat): seq<Constraint<Var>>
    requires n <= |blocks|
  {
    if n == 0 then [] else OverlapConstraints(blocks, n - 1) + RowConstraints(blocks, n - 1, |blocks|)
  }

  /** The `dx`, `dy` variables of connection number k and their absolute-value equalities. */
  function ConnConstraints(blocks: seq<Block>, grid: Grid, c: Layout.Connection, k: nat): seq<Constraint<Var>>
    requires Layout.ValidConnection(|blocks|, c)
  {
    [ Domain(Dx(k), 0, grid.width), Domain(Dy(k), 0, grid.height),
      AbsEquality(Dx(k), Minus(XCentre(blocks, c.src), XCentre(blocks, c.dst))),
      AbsEquality(Dy(k), Minus(YCentre(blocks, c.src), YCentre(blocks, c.dst))) ]
  }

  function DistanceConstraints(blocks: seq<Block>, grid: Grid, conns: seq<Layout.Connection>): seq<Constraint<Var>>
    requires Layout.ValidConnections(|blocks|, conns)
  {
    if conns == [] then []
    else DistanceConstraints(blocks, grid, conns[..|conns| - 1]) +
         ConnConstraints(blocks, grid, conns[|conns| - 1], |conns| - 1)
  }

  /** The domain of `total_distance`. */
  function TotalDomain(grid: Grid, conns: seq<Layout.Connection>): Constraint<Var>
  {
    Domain(Total, 0, Layout.TotalBound(grid, conns))
  }

  /** `total_distance == sum(distances)`. */
  function TotalSum(conns: seq<Layout.Connection>): Constraint<Var>
  {
    Linear(Ref(Total), Eq, Sum(Distances(|conns|)), [])
  }

  /** Every constraint of the finished model. */
  function ModelConstraints(blocks: seq<Block>, grid: Grid, conns: seq<Layout.Connection>): seq<Constraint<Var>>
    requires Layout.ValidConnections(|blocks|, conns)
  {
    PositionDomains(blocks, grid, |blocks|) + OverlapConstraints(blocks, |blocks|) +
    [TotalDomain(grid, conns)] + DistanceConstraints(blocks, grid, conns) + [TotalSum(conns)]
  }

  // From assignments to layouts and back.

  function PlacedAt(values: Var -> int, i: int): Pos
  {
    Pos(values(X(i)), values(Y(i)))
  }

  /** The positions an assignment gives the first n blocks. */
  function LayoutOf(values: Var -> int, n: nat): seq<Pos>
  {
    seq(n, i => PlacedAt(values, i))
  }

  predicate PairInRange(blocks: seq<Block>, pos: seq<Pos>, i: int, j: int)
  {
    |pos| == |blocks| && 0 <= i < |blocks| && 0 <= j < |blocks|
  }

  predicate ConnInRange(blocks: seq<Block>, conns: seq<Layout.Connection>, pos: seq<Pos>, k: int)
  {
    |pos| == |blocks| && 0 <= k < |conns| && Layout.ValidConnection(|blocks|, conns[k])
  }

  /** The value each variable takes in the assignment built from a layout. */
  function WitnessValue(blocks: seq<Block>, conns: seq<Layout.Connection>, pos: seq<Pos>, v: Var): int
  {
    match v
    case X(i) => if 0 <= i < |pos| then pos[i].x else 0
    case Y(i) => if 0 <= i < |pos| then pos[i].y else 0
    case Left(i, j) =>
      if PairInRange(blocks, pos, i, j) && IsLeftOf(blocks[i], pos[i], blocks[j], pos[j]) then 1 else 0
    case Right(i, j) =>
      if PairInRange(blocks, pos, i, j) && IsRightOf(blocks[i], pos[i], blocks[j], pos[j]) then 1 else 0
    case Above(i, j) =>
      if PairInRange(blocks, pos, i, j) && IsAbove(blocks[i], pos[i], blocks[j], pos[j]) then 1 else 0
    case Below(i, j) =>
      if PairInRange(blocks, pos, i, j) && IsBelow(blocks[i], pos[i], blocks[j], pos[j]) then 1 else 0
    case Dx(k) => if ConnInRange(blocks, conns, pos, k) then Layout.ConnDx(blocks, pos, conns[k]) else 0
    case Dy(k) => if ConnInRange(blocks, conns, pos, k) then Layout.ConnDy(blocks, pos, conns[k]) else 0
    case Total =>
      if |pos| == |blocks| && Layout.ValidConnections(|blocks|, conns)
      then Layout.TotalDistance(blocks, pos, conns) else 0
  }

  function Witness(blocks: seq<Block>, conns: seq<Layout.Connection>, pos: seq<Pos>): Var -> int
  {
    v => WitnessValue(blocks, conns, pos, v)
  }

  /** The four separation literals of the pair (i, j) are 0/1 and true exactly when that separation holds. */
  predicate LiteralsAgree(blocks: seq<Block>, pos: seq<Pos>, i: int, j: int, values: Var -> int)
    requires PairInRange(blocks, pos, i, j)
  {
    0 <= values(Left(i, j)) <= 1 && 0 <= values(Right(i, j)) <= 1 &&
    0 <= values(Above(i, j)) <= 1 && 0 <= values(Below(i, j)) <= 1 &&
    (IsTrue(values, Left(i, j)) <==> IsLeftOf(blocks[i], pos[i], blocks[j], pos[j])) &&
    (IsTrue(values, Right(i, j)) <==> IsRightOf(blocks[i], pos[i], blocks[j], pos[j])) &&
    (IsTrue(values, Above(i, j)) <==> IsAbove(blocks[i], pos[i], blocks[j], pos[j])) &&
    (IsTrue(values, Below(i, j)) <==> IsBelow(blocks[i], pos[i], blocks[j], pos[j]))
  }

  /** `values` agrees with the layout `pos`: positions, separation literals, distances and the total. */
  ghost predicate Witnesses(blocks: seq<Block>, conns: seq<Layout.Connection>, pos: seq<Pos>, values: Var -> int)
  {
    |pos| == |blocks| && Layout.ValidConnections(|blocks|, conns) &&
    (forall i :: 0 <= i < |pos| ==> PlacedAt(values, i) == pos[i]) &&
    (forall i, j :: PairInRange(blocks, pos, i, j) ==> LiteralsAgree(blocks, pos, i, j, values)) &&
    (forall k :: ConnInRange(blocks, conns, pos, k) ==>
       values(Dx(k)) == Layout.ConnDx(blocks, pos, conns[k]) && values(Dy(k)) == Layout.ConnDy(blocks, pos, conns[k])) &&
    values(Total) == Layout.TotalDistance(blocks, pos, conns)
  }

  lemma WitnessAgrees(blocks: seq<Block>, conns: seq<Layout.Connection>, pos: seq<Pos>)
    requires |pos| == |blocks| && Layout.ValidConnections(|blocks|, conns)
    ensures Witnesses(blocks, conns, pos, Witness(blocks, conns, pos))
  {
    var w := Witness(blocks, conns, pos);
    WitnessPlaces(blocks, conns, pos);
    forall i, j | PairInRange(blocks, pos, i, j) ensures LiteralsAgree(blocks, pos, i, j, w) {
      WitnessLiterals(blocks, conns, pos, i, j);
    }
    WitnessDistances(blocks, conns, pos);
    assert w(Total) == WitnessValue(blocks, conns, pos, Total);
  }

  lemma WitnessPlaces(blocks: seq<Block>, conns: seq<Layout.Connection>, pos: seq<Pos>)
    ensures forall i :: 0 <= i < |pos| ==> PlacedAt(Witness(blocks, conns, pos), i) == pos[i]
  {
    var w := Witness(blocks, conns, pos);
    forall i | 0 <= i < |pos| ensures PlacedAt(w, i) == pos[i] {
      assert w(X(i)) == pos[i].x && w(Y(i)) == pos[i].y;
    }
  }

  lemma WitnessDistances(blocks: seq<Block>, conns: seq<Layout.Connection>, pos: seq<Pos>)
    ensures forall k :: ConnInRange(blocks, conns, pos, k) ==>
              Witness(blocks, conns, pos)(Dx(k)) == Layout.ConnDx(blocks, pos, conns[k]) &&
              Witness(blocks, conns, pos)(Dy(k)) == Layout.ConnDy(blocks, pos, conns[k])
  {
    var w := Witness(blocks, conns, pos);
    forall k | ConnInRange(blocks, conns, pos, k)
      ensures w(Dx(k)) == Layout.ConnDx(blocks, pos, conns[k]) && w(Dy(k)) == Layout.ConnDy(blocks, pos, conns[k])
    {
      assert w(Dx(k)) == WitnessValue(blocks, conns, pos, Dx(k));
      assert w(Dy(k)) == WitnessValue(blocks, conns, pos, Dy(k));
    }
  }

  lemma WitnessLiterals(blocks: seq<Block>, conns: seq<Layout.Connection>, pos: seq<Pos>, i: int, j: int)
    requires PairInRange(blocks, pos, i, j)
    ensures LiteralsAgree(blocks, pos, i, j, Witness(blocks, conns, pos))
  {
    var w := Witness(blocks, conns, pos);
    assert w(Left(i, j)) == WitnessValue(blocks, conns, pos, Left(i, j));
    assert w(Right(i, j)) == WitnessValue(blocks, conns, pos, Right(i, j));
    assert w(Above(i, j)) == WitnessValue(blocks, conns, pos, Above(i, j));
    assert w(Below(i, j)) == WitnessValue(blocks, conns, pos, Below(i, j));
  }

  // Values of the posted expressions.

  lemma EvalEdges(blocks: seq<Block>, i: nat, values: Var -> int)
    requires i < |blocks|
    ensures Eval(XEnd(blocks, i), values) == values(X(i)) + blocks[i].width
    ensures Eval(YEnd(blocks, i), values) == values(Y(i)) + blocks[i].height
    ensures Eval(XCentre(blocks, i), values) == CentreX(blocks[i], PlacedAt(values, i))
    ensures Eval(YCentre(blocks, i), values) == CentreY(blocks[i], PlacedAt(values, i))
  {
  }

  /** The argument of connection c's `dx` (`dy`) equality is the difference of the centres' x (y). */
  lemma EvalCentreDifferences(blocks: seq<Block>, c: Layout.Connection, values: Var -> int)
    requires Layout.ValidConnection(|blocks|, c)
    ensures Eval(Minus(XCentre(blocks, c.src), XCentre(blocks, c.dst)), values) ==
              CentreX(blocks[c.src], PlacedAt(values, c.src)) - CentreX(blocks[c.dst], PlacedAt(values, c.dst))
    ensures Eval(Minus(YCentre(blocks, c.src), YCentre(blocks, c.dst)), values) ==
              CentreY(blocks[c.src], PlacedAt(values, c.src)) - CentreY(blocks[c.dst], PlacedAt(values, c.dst))
  {
    EvalEdges(blocks, c.src, values);
    EvalEdges(blocks, c.dst, values);
  }

  // Position domains.

  /** The position domains of the first n blocks hold exactly when those blocks lie inside the grid. */
  lemma {:induction false} PositionDomainsSat(blocks: seq<Block>, grid: Grid, n: nat, values: Var -> int)
    requires n <= |blocks|
    ensures Sat(PositionDomains(blocks, grid, n), values) <==>
              forall i :: 0 <= i < n ==> FitsIn(blocks[i], PlacedAt(values, i), grid)
  {
    if n > 0 {
      PositionDomainsSat(blocks, grid, n - 1, values);
      SatAppend(PositionDomains(blocks, grid, n - 1), BlockDomains(blocks, grid, n - 1), values);
      var bd := BlockDomains(blocks, grid, n - 1);
      assert Sat(bd, values) <==> Holds(bd[0], values) && Holds(bd[1], values);
    }
  }

  // Non-overlap.

  /** The pair's constraints force one of the four separations on the positions. */
  lemma PairSound(blocks: seq<Block>, i: nat, j: nat, values: Var -> int)
    requires i < |blocks| && j < |blocks|
    requires Sat(PairConstraints(blocks, i, j), values)
    ensures Separated(blocks[i], PlacedAt(values, i), blocks[j], PlacedAt(values, j))
  {
    var cs := PairConstraints(blocks, i, j);
    var lits := [Left(i, j), Right(i, j), Above(i, j), Below(i, j)];
    assert Holds(cs[8], values);
    assert IsTrue(values, lits[0]) || IsTrue(values, lits[1]) || IsTrue(values, lits[2]) || IsTrue(values, lits[3]) by {
      var k :| 0 <= k < 4 && IsTrue(values, lits[k]);
    }
    EvalEdges(blocks, i, values);
    EvalEdges(blocks, j, values);
    if IsTrue(values, lits[0]) {
      assert Holds(cs[1], values);
    } else if IsTrue(values, lits[1]) {
      assert Holds(cs[3], values);
    } else if IsTrue(values, lits[2]) {
      assert Holds(cs[5], values);
    } else {
      assert Holds(cs[7], values);
    }
  }

  /** A separated pair satisfies its constraints under an assignment that agrees with the layout. */
  lemma PairComplete(blocks: seq<Block>, conns: seq<Layout.Connection>, pos: seq<Pos>, i: nat, j: nat, values: Var -> int)
    requires Witnesses(blocks, conns, pos, values) && i < |blocks| && j < |blocks|
    requires Separated(blocks[i], pos[i], blocks[j], pos[j])
    ensures Sat(PairConstraints(blocks, i, j), values)
  {
    var cs := PairConstraints(blocks, i, j);
    assert PairInRange(blocks, pos, i, j);
    assert LiteralsAgree(blocks, pos, i, j, values);
    EvalEdges(blocks, i, values);
    EvalEdges(blocks, j, values);
    assert PlacedAt(values, i) == pos[i] && PlacedAt(values, j) == pos[j];
    HoldsEnforced(XEnd(blocks, i), Ref(X(j)), Left(i, j), values);
    HoldsEnforced(XEnd(blocks, j), Ref(X(i)), Right(i, j), values);
    HoldsEnforced(YEnd(blocks, i), Ref(Y(j)), Above(i, j), values);
    HoldsEnforced(YEnd(blocks, j), Ref(Y(i)), Below(i, j), values);
    assert Holds(cs[1], values) && Holds(cs[3], values) && Holds(cs[5], values) && Holds(cs[7], values);
    assert Holds(cs[0], values) && Holds(cs[2], values) && Holds(cs[4], values) && Holds(cs[6], values);
    assert Holds(cs[8], values) by {
      if IsLeftOf(blocks[i], pos[i], blocks[j], pos[j]) {
        assert IsTrue(values, cs[8].lits[0]);
      } else if IsRightOf(blocks[i], pos[i], blocks[j], pos[j]) {
        assert IsTrue(values, cs[8].lits[1]);
      } else if IsAbove(blocks[i], pos[i], blocks[j], pos[j]) {
        assert IsTrue(values, cs[8].lits[2]);
      } else {
        assert IsTrue(values, cs[8].lits[3]);
      }
    }
  }

  /** The row i < j < m forces every pair in it apart. */
  lemma {:induction false} RowSound(blocks: seq<Block>, i: nat, m: nat, values: Var -> int)
    requires i < |blocks| && m <= |blocks|
    requires Sat(RowConstraints(blocks, i, m), values)
    ensures forall j :: i < j < m ==> Separated(blocks[i], PlacedAt(values, i), blocks[j], PlacedAt(values, j))
  {
    if m > i + 1 {
      SatAppend(RowConstraints(blocks, i, m - 1), PairConstraints(blocks, i, m - 1), values);
      RowSound(blocks, i, m - 1, values);
      PairSound(blocks, i, m - 1, values);
    }
  }

  lemma {:induction false} RowComplete(blocks: seq<Block>, conns: seq<Layout.Connection>, pos: seq<Pos>, i: nat, m: nat, values: Var -> int)
    requires Witnesses(blocks, conns, pos, values) && i < |blocks| && m <= |blocks|
    requires forall j :: i < j < m ==> Separated(blocks[i], pos[i], blocks[j], pos[j])
    ensures Sat(RowConstraints(blocks, i, m), values)
  {
    if m > i + 1 {
      RowComplete(blocks, conns, pos, i, m - 1, values);
      PairComplete(blocks, conns, pos, i, m - 1, values);
      SatAppend(RowConstraints(blocks, i, m - 1), PairConstraints(blocks, i, m - 1), values);
    }
  }

  /** The pair constraints of the first n rows force every pair i < j with i < n apart. */
  lemma {:induction false} OverlapSound(blocks: seq<Block>, n: nat, values: Var -> int)
    requires n <= |blocks|
    requires Sat(OverlapConstraints(blocks, n), values)
    ensures forall i, j :: 0 <= i < n && i < j < |blocks| ==>
              Separated(blocks[i], PlacedAt(values, i), blocks[j], PlacedAt(values, j))
  {
    if n > 0 {
      SatAppend(OverlapConstraints(blocks, n - 1), RowConstraints(blocks, n - 1, |blocks|), values);
      OverlapSound(blocks, n - 1, values);
      RowSound(blocks, n - 1, |blocks|, values);
    }
  }

  lemma {:induction false} OverlapComplete(blocks: seq<Block>, conns: seq<Layout.Connection>, pos: seq<Pos>, n: nat, values: Var -> int)
    requires Witnesses(blocks, conns, pos, values) && n <= |blocks| && Layout.NoOverlap(blocks, pos)
    ensures Sat(OverlapConstraints(blocks, n), values)
  {
    if n > 0 {
      OverlapComplete(blocks, conns, pos, n - 1, values);
      RowComplete(blocks, conns, pos, n - 1, |blocks|, values);
      SatAppend(OverlapConstraints(blocks, n - 1), RowConstraints(blocks, n - 1, |blocks|), values);
    }
  }

  // Distances.

  /** Connection k's constraints pin `dx`, `dy` to the centre distances and bound them by the grid. */
  lemma ConnSound(blocks: seq<Block>, grid: Grid, c: Layout.Connection, k: nat, values: Var -> int)
    requires Layout.ValidConnection(|blocks|, c)
    requires Sat(ConnConstraints(blocks, grid, c, k), values)
    ensures var pos := LayoutOf(values, |blocks|);
            values(Dx(k)) == Layout.ConnDx(blocks, pos, c) <= grid.width &&
            values(Dy(k)) == Layout.ConnDy(blocks, pos, c) <= grid.height
  {
    var cs := ConnConstraints(blocks, grid, c, k);
    var pos := LayoutOf(values, |blocks|);
    assert pos[c.src] == PlacedAt(values, c.src) && pos[c.dst] == PlacedAt(values, c.dst);
    EvalCentreDifferences(blocks, c, values);
    assert Holds(cs[0], values) && Holds(cs[1], values) && Holds(cs[2], values) && Holds(cs[3], values);
  }

  lemma {:induction false} DistanceSound(blocks: seq<Block>, grid: Grid, conns: seq<Layout.Connection>, values: Var -> int)
    requires Layout.ValidConnections(|blocks|, conns)
    requires Sat(DistanceConstraints(blocks, grid, conns), values)
    ensures var pos := LayoutOf(values, |blocks|);
            forall k :: 0 <= k < |conns| ==>
              values(Dx(k)) == Layout.ConnDx(blocks, pos, conns[k]) <= grid.width &&
              values(Dy(k)) == Layout.ConnDy(blocks, pos, conns[k]) <= grid.height
  {
    if conns != [] {
      var init := conns[..|conns| - 1];
      SatAppend(DistanceConstraints(blocks, grid, init), ConnConstraints(blocks, grid, conns[|conns| - 1], |conns| - 1), values);
      DistanceSound(blocks, grid, init, values);
      ConnSound(blocks, grid, conns[|conns| - 1], |conns| - 1, values);
      assert forall k :: 0 <= k < |init| ==> init[k] == conns[k];
    }
  }

  lemma {:induction false} DistanceComplete(blocks: seq<Block>, grid: Grid, conns: seq<Layout.Connection>, pos: seq<Pos>, values: Var -> int)
    requires Witnesses(blocks, conns, pos, values)
    requires forall k :: 0 <= k < |conns| ==>
               Layout.ConnDx(blocks, pos, conns[k]) <= grid.width && Layout.ConnDy(blocks, pos, conns[k]) <= grid.height
    ensures Sat(DistanceConstraints(blocks, grid, conns), values)
  {
    DistancePrefixComplete(blocks, grid, conns, pos, |conns|, values);
    assert conns[..|conns|] == conns;
  }

  /** The distance constraints of the first n connections hold under an assignment that agrees with the layout. */
  lemma {:induction false} DistancePrefixComplete(blocks: seq<Block>, grid: Grid, conns: seq<Layout.Connection>, pos: seq<Pos>, n: nat, values: Var -> int)
    requires Witnesses(blocks, conns, pos, values) && n <= |conns|
    requires forall k :: 0 <= k < |conns| ==>
               Layout.ConnDx(blocks, pos, conns[k]) <= grid.width && Layout.ConnDy(blocks, pos, conns[k]) <= grid.height
    ensures Sat(DistanceConstraints(blocks, grid, conns[..n]), values)
  {
    if n > 0 {
      var c := conns[n - 1];
      assert conns[..n][..n - 1] == conns[..n - 1];
      DistancePrefixComplete(blocks, grid, conns, pos, n - 1, values);
      assert ConnInRange(blocks, conns, pos, n - 1);
      var cs := ConnConstraints(blocks, grid, c, n - 1);
      assert PlacedAt(values, c.src) == pos[c.src] && PlacedAt(values, c.dst) == pos[c.dst];
      EvalCentreDifferences(blocks, c, values);
      assert Holds(cs[0], values) && Holds(cs[1], values) && Holds(cs[2], values) && Holds(cs[3], values);
      SatAppend(DistanceConstraints(blocks, grid, conns[..n - 1]), cs, values);
    }
  }

  /** With `dx`, `dy` pinned to the centre distances, `sum(distances)` is the layout's total distance. */
  lemma {:induction false} SumOfDistances(blocks: seq<Block>, conns: seq<Layout.Connection>, pos: seq<Pos>, values: Var -> int)
    requires |pos| == |blocks| && Layout.ValidConnections(|blocks|, conns)
    requires forall k :: 0 <= k < |conns| ==>
               values(Dx(k)) == Layout.ConnDx(blocks, pos, conns[k]) && values(Dy(k)) == Layout.ConnDy(blocks, pos, conns[k])
    ensures Eval(Sum(Distances(|conns|)), values) == Layout.TotalDistance(blocks, pos, conns)
  {
    if conns != [] {
      var init := conns[..|conns| - 1];
      assert forall k :: 0 <= k < |init| ==> init[k] == conns[k];
      var ds := Distances(|conns|);
      assert ds[..|conns| - 1] == Distances(|init|);
      SumOfDistances(blocks, init, pos, values);
      assert Eval(ds[|conns| - 1], values) == Layout.ConnDist(blocks, pos, conns[|conns| - 1]);
      assert Eval(Sum(ds), values) == Eval(Sum(Distances(|init|)), values) + Eval(ds[|conns| - 1], values);
    }
  }

  // The whole model.

  /** The model is satisfied exactly when each of its five parts is. */
  lemma ModelSatParts(blocks: seq<Block>, grid: Grid, conns: seq<Layout.Connection>, values: Var -> int)
    requires Layout.ValidConnections(|blocks|, conns)
    ensures Sat(ModelConstraints(blocks, grid, conns), values) <==>
              Sat(PositionDomains(blocks, grid, |blocks|), values) &&
              Sat(OverlapConstraints(blocks, |blocks|), values) &&
              Holds(TotalDomain(grid, conns), values) &&
              Sat(DistanceConstraints(blocks, grid, conns), values) &&
              Holds(TotalSum(conns), values)
  {
    var a := PositionDomains(blocks, grid, |blocks|);
    var b := OverlapConstraints(blocks, |blocks|);
    var t := [TotalDomain(grid, conns)];
    var d := DistanceConstraints(blocks, grid, conns);
    var e := [TotalSum(conns)];
    SatAppend(a + b + t + d, e, values);
    SatAppend(a + b + t, d, values);
    SatAppend(a + b, t, values);
    SatAppend(a, b, values);
    assert Sat(t, values) <==> Holds(t[0], values);
    assert Sat(e, values) <==> Holds(e[0], values);
  }

  /** Every assignment satisfying the model is a feasible layout within the declared domains, with `total_distance` its total. */
  lemma ModelSound(blocks: seq<Block>, grid: Grid, conns: seq<Layout.Connection>, values: Var -> int)
    requires Layout.ValidConnections(|blocks|, conns)
    requires Sat(ModelConstraints(blocks, grid, conns), values)
    ensures var pos := LayoutOf(values, |blocks|);
            Layout.Feasible(blocks, grid, pos) &&
            Layout.WithinDeclaredDomains(blocks, grid, conns, pos) &&
            values(Total) == Layout.TotalDistance(blocks, pos, conns)
  {
    var n := |blocks|;
    var pos := LayoutOf(values, n);
    ModelSatParts(blocks, grid, conns, values);
    PositionDomainsSat(blocks, grid, n, values);
    OverlapSound(blocks, n, values);
    DistanceSound(blocks, grid, conns, values);
    SumOfDistances(blocks, conns, pos, values);
    assert Layout.InBounds(blocks, grid, pos) by {
      forall i | 0 <= i < n ensures FitsIn(blocks[i], pos[i], grid) {
        assert pos[i] == PlacedAt(values, i);
      }
    }
  }

  /** An assignment that agrees with a layout gives back that layout. */
  lemma AgreeingLayout(blocks: seq<Block>, conns: seq<Layout.Connection>, pos: seq<Pos>, values: Var -> int)
    requires Witnesses(blocks, conns, pos, values)
    ensures LayoutOf(values, |blocks|) == pos
  {
    forall i | 0 <= i < |blocks| ensures LayoutOf(values, |blocks|)[i] == pos[i] {
      assert PlacedAt(values, i) == pos[i];
    }
  }

  /** Under an agreeing assignment, the total's domain and `total_distance == sum(distances)` hold. */
  lemma AgreeingTotal(blocks: seq<Block>, grid: Grid, conns: seq<Layout.Connection>, pos: seq<Pos>, values: Var -> int)
    requires Witnesses(blocks, conns, pos, values)
    requires Layout.WithinDeclaredDomains(blocks, grid, conns, pos)
    ensures Holds(TotalDomain(grid, conns), values) && Holds(TotalSum(conns), values)
  {
    forall k | 0 <= k < |conns|
      ensures values(Dx(k)) == Layout.ConnDx(blocks, pos, conns[k]) && values(Dy(k)) == Layout.ConnDy(blocks, pos, conns[k])
    {
      assert ConnInRange(blocks, conns, pos, k);
    }
    SumOfDistances(blocks, conns, pos, values);
  }

  /** An assignment that agrees with a feasible layout within the declared domains satisfies the whole model. */
  lemma AgreeingSat(blocks: seq<Block>, grid: Grid, conns: seq<Layout.Connection>, pos: seq<Pos>, values: Var -> int)
    requires Witnesses(blocks, conns, pos, values)
    requires Layout.Feasible(blocks, grid, pos) && Layout.WithinDeclaredDomains(blocks, grid, conns, pos)
    ensures Sat(ModelConstraints(blocks, grid, conns), values)
    ensures LayoutOf(values, |blocks|) == pos && Eval(Objective(), values) == Layout.TotalDistance(blocks, pos, conns)
  {
    var n := |blocks|;
    AgreeingLayout(blocks, conns, pos, values);
    PositionDomainsSat(blocks, grid, n, values);
    OverlapComplete(blocks, conns, pos, n, values);
    DistanceComplete(blocks, grid, conns, pos, values);
    AgreeingTotal(blocks, grid, conns, pos, values);
    ModelSatParts(blocks, grid, conns, values);
  }

  /**
   * Every feasible layout within the declared domains is the layout of some
   * assignment that satisfies the model, with the objective equal to its total distance.
   */
  lemma ModelComplete(blocks: seq<Block>, grid: Grid, conns: seq<Layout.Connection>, pos: seq<Pos>)
    requires Layout.ValidConnections(|blocks|, conns)
    requires Layout.Feasible(blocks, grid, pos) && Layout.WithinDeclaredDomains(blocks, grid, conns, pos)
    ensures exists values: Var -> int ::
              Sat(ModelConstraints(blocks, grid, conns), values) &&
              LayoutOf(values, |blocks|) == pos &&
              Eval(Objective(), values) == Layout.TotalDistance(blocks, pos, conns)
  {
    WitnessAgrees(blocks, conns, pos);
    AgreeingSat(blocks, grid, conns, pos, Witness(blocks, conns, pos));
  }

  /** An assignment the solver proves optimal gives a layout optimal among the feasible layouts within the declared domains. */
  lemma OptimumWithinDomains(blocks: seq<Block>, grid: Grid, conns: seq<Layout.Connection>, values: Var -> int)
    requires Layout.ValidConnections(|blocks|, conns)
    requires SolverContract(ModelConstraints(blocks, grid, conns), Objective(), Optimal, values)
    ensures Layout.IsOptimalWithinDomains(blocks, grid, conns, LayoutOf(values, |blocks|))
  {
    var pos := LayoutOf(values, |blocks|);
    ModelSound(blocks, grid, conns, values);
    forall q | Layout.Feasible(blocks, grid, q) && Layout.WithinDeclaredDomains(blocks, grid, conns, q)
      ensures Layout.TotalDistance(blocks, pos, conns) <= Layout.TotalDistance(blocks, q, conns)
    {
      ModelComplete(blocks, grid, conns, q);
      var w: Var -> int :| Sat(ModelConstraints(blocks, grid, conns), w) &&
                           LayoutOf(w, |blocks|) == q &&
                           Eval(Objective(), w) == Layout.TotalDistance(blocks, q, conns);
      assert Eval(Objective(), values) <= Eval(Objective(), w);
    }
  }

  /** An assignment the solver proves optimal gives a layout optimal among all feasible layouts. */
  lemma OptimumCorrespondence(blocks: seq<Block>, grid: Grid, conns: seq<Layout.Connection>, values: Var -> int)
    requires Layout.ValidConnections(|blocks|, conns)
    requires SolverContract(ModelConstraints(blocks, grid, conns), Objective(), Optimal, values)
    ensures Layout.IsOptimal(blocks, grid, conns, LayoutOf(values, |blocks|))
  {
    OptimumWithinDomains(blocks, grid, conns, values);
    Layout.OptimalBeyondDomains(blocks, grid, conns, LayoutOf(values, |blocks|));
  }
}
