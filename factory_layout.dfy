/**
 * `optimize_factory_layout`: builds the CP-SAT model step by step on a
 * `CpModel` object, hands it to the solver and reads the block positions back.
 * The solver is foreign; its answer (`status` and the value of every variable)
 * enters as parameters, constrained by the promise `SolverContract` states
 * about the model the method built. A connection naming a block that does not
 * exist raises `KeyError` from the `positions` dictionary; that is the error
 * path of the result.
 */
module FactoryLayout {
  import opened Wrappers
  import opened Geometry
  import opened Layout
  import CpSat
  import opened Formulation

  /** The exception the optimizer can raise. */
  datatype Raised = KeyError(key: int)

  /**
   * The key the connection loop fails on: the first connection, in order, with
   * an endpoint outside [0, n), and of that connection its first endpoint if
   * that one is bad, else its second.
   */
  function MissingKey(n: int, conns: seq<Connection>): (r: Option<int>)
    ensures r.Some? ==> !(0 <= r.value < n) &&
                        exists k :: 0 <= k < |conns| && (r.value == conns[k].src || r.value == conns[k].dst)
  {
    if conns == [] then None
    else if !(0 <= conns[0].src < n) then Some(conns[0].src)
    else if !(0 <= conns[0].dst < n) then Some(conns[0].dst)
    else
      var r := MissingKey(n, conns[1..]);
      if r.Some? then
        var k :| 0 <= k < |conns[1..]| && (r.value == conns[1..][k].src || r.value == conns[1..][k].dst);
        assert conns[1..][k] == conns[k + 1];
        r
      else r
  }

  /** No key is missing exactly when every connection names two existing blocks. */
  lemma {:induction false} MissingKeyNone(n: int, conns: seq<Connection>)
    ensures MissingKey(n, conns) == None <==> ValidConnections(n, conns)
  {
    if conns != [] {
      MissingKeyNone(n, conns[1..]);
      if ValidConnections(n, conns) {
        assert forall k :: 0 <= k < |conns[1..]| ==> conns[1..][k] == conns[k + 1];
      }
      if ValidConnections(n, conns[1..]) && ValidConnection(n, conns[0]) {
        forall k | 0 <= k < |conns| ensures ValidConnection(n, conns[k]) {
          if k > 0 {
            assert conns[k] == conns[1..][k - 1];
          }
        }
      }
    }
  }

  /** Past a prefix of valid connections, the missing key is decided by the rest. */
  lemma {:induction false} MissingKeyAfter(n: int, conns: seq<Connection>, k: nat)
    requires k <= |conns| && ValidConnections(n, conns[..k])
    ensures MissingKey(n, conns) == MissingKey(n, conns[k..])
  {
    if k > 0 {
      assert conns[1..][..k - 1] == conns[..k][1..];
      assert ValidConnection(n, conns[..k][0]);
      var rest := conns[1..][..k - 1];
      assert ValidConnections(n, rest) by {
        forall m | 0 <= m < |rest| ensures ValidConnection(n, rest[m]) {
          assert rest[m] == conns[..k][m + 1];
        }
      }
      MissingKeyAfter(n, conns[1..], k - 1);
      assert conns[1..][k - 1..] == conns[k..];
    }
  }

  /**
   * The reported key is the first failing lookup in loop order: every earlier
   * connection names two existing blocks, and of the failing connection it is
   * `src` when `src` is missing, else `dst`.
   */
  lemma {:induction false} MissingKeyFirst(n: int, conns: seq<Connection>)
    requires MissingKey(n, conns).Some?
    ensures exists k :: 0 <= k < |conns| && ValidConnections(n, conns[..k]) && !ValidConnection(n, conns[k]) &&
                        MissingKey(n, conns).value == (if !(0 <= conns[k].src < n) then conns[k].src else conns[k].dst)
  {
    if ValidConnection(n, conns[0]) {
      var rest := conns[1..];
      MissingKeyFirst(n, rest);
      var k :| 0 <= k < |rest| && ValidConnections(n, rest[..k]) && !ValidConnection(n, rest[k]) &&
               MissingKey(n, rest).value == (if !(0 <= rest[k].src < n) then rest[k].src else rest[k].dst);
      assert rest[k] == conns[k + 1];
      var prefix := conns[..k + 1];
      assert ValidConnections(n, prefix) by {
        forall m | 0 <= m < |prefix| ensures ValidConnection(n, prefix[m]) {
          if m > 0 {
            assert prefix[m] == rest[..k][m - 1];
          }
        }
      }
    } else {
      assert conns[..0] == [];
    }
  }

  /** The dictionary the optimizer returns, read as one position per block. */
  function AsLayout(m: map<int, Pos>, n: nat): seq<Pos>
    requires forall i :: 0 <= i < n ==> i in m
  {
    seq(n, i requires 0 <= i < n => m[i])
  }

  /** `lit = NewBoolVar(...)` and `Add(lhs <= rhs).OnlyEnforceIf(lit)`: one reified separation. */
  method PostReified(model: CpSat.CpModel<Var>, lit: Var, lhs: CpSat.Expr<Var>, rhs: CpSat.Expr<Var>)
    modifies model
    ensures model.constraints == old(model.constraints) + [CpSat.Domain(lit, 0, 1), CpSat.Linear(lhs, CpSat.Le, rhs, [lit])]
    ensures model.objective == old(model.objective)
  {
    model.NewBoolVar(lit);
    var ct := model.Add(lhs, CpSat.Le, rhs);
    model.OnlyEnforceIf(ct, lit);
    assert [] + [lit] == [lit];
  }

  /** Posts, for the pair (i, j), the four reified separations and their disjunction. */
  method SeparatePair(model: CpSat.CpModel<Var>, blocks: seq<Block>, positions: map<int, (Var, Var)>, i: nat, j: nat)
    requires i < |blocks| && j < |blocks| && i in positions && j in positions
    requires positions[i] == (X(i), Y(i)) && positions[j] == (X(j), Y(j))
    modifies model
    ensures model.constraints == old(model.constraints) + PairConstraints(blocks, i, j)
    ensures model.objective == old(model.objective)
  {
    var left, right, above, below := Left(i, j), Right(i, j), Above(i, j), Below(i, j);
    PostReified(model, left, XEnd(blocks, i), CpSat.Ref(positions[j].0));
    PostReified(model, right, XEnd(blocks, j), CpSat.Ref(positions[i].0));
    PostReified(model, above, YEnd(blocks, i), CpSat.Ref(positions[j].1));
    PostReified(model, below, YEnd(blocks, j), CpSat.Ref(positions[i].1));
    model.AddBoolOr([left, right, above, below]);
  }

  /**
   * What the solver's answer on the finished model means for the layout it
   * encodes: a FEASIBLE or OPTIMAL answer is a feasible layout within the
   * declared domains whose `total_distance` is its total distance, an OPTIMAL one
   * is optimal among all feasible layouts, and INFEASIBLE means no such layout exists (and no feasible
   * layout at all when the domains are loose).
   */
  lemma SolverAnswer(blocks: seq<Block>, grid: Grid, conns: seq<Connection>, status: CpSat.Status, values: Var -> int)
    requires ValidConnections(|blocks|, conns)
    requires CpSat.SolverContract(ModelConstraints(blocks, grid, conns), Objective(), status, values)
    ensures status == CpSat.Optimal || status == CpSat.Feasible ==>
              var pos := LayoutOf(values, |blocks|);
              Feasible(blocks, grid, pos) && WithinDeclaredDomains(blocks, grid, conns, pos) &&
              values(Total) == TotalDistance(blocks, pos, conns)
    ensures status == CpSat.Optimal ==>
              IsOptimalWithinDomains(blocks, grid, conns, LayoutOf(values, |blocks|)) &&
              IsOptimal(blocks, grid, conns, LayoutOf(values, |blocks|))
    ensures status == CpSat.Infeasible ==>
              (forall q :: Feasible(blocks, grid, q) ==> !WithinDeclaredDomains(blocks, grid, conns, q)) &&
              (DomainsLoose(blocks, grid) ==> forall q :: !Feasible(blocks, grid, q))
  {
    if status == CpSat.Optimal || status == CpSat.Feasible {
      ModelSound(blocks, grid, conns, values);
    }
    if status == CpSat.Optimal {
      OptimumWithinDomains(blocks, grid, conns, values);
      OptimumCorrespondence(blocks, grid, conns, values);
    }
    if status == CpSat.Infeasible {
      forall q | Feasible(blocks, grid, q)
        ensures !WithinDeclaredDomains(blocks, grid, conns, q)
      {
        if WithinDeclaredDomains(blocks, grid, conns, q) {
          ModelComplete(blocks, grid, conns, q);
        }
      }
      if DomainsLoose(blocks, grid) {
        forall q | Feasible(blocks, grid, q) ensures false {
          DomainsCutNothing(blocks, grid, conns, q);
        }
      }
    }
  }

  /** The loop over `enumerate(blocks)`: declares `x_i` and `y_i` and records them in `positions`. */
  method DeclarePositions(model: CpSat.CpModel<Var>, blocks: seq<Block>, gridSize: Grid)
    returns (positions: map<int, (Var, Var)>)
    modifies model
    ensures model.constraints == old(model.constraints) + PositionDomains(blocks, gridSize, |blocks|)
    ensures model.objective == old(model.objective)
    ensures positions == map k | 0 <= k < |blocks| :: (X(k), Y(k))
  {
    positions := map[];
    for i := 0 to |blocks|
      invariant model.constraints == old(model.constraints) + PositionDomains(blocks, gridSize, i)
      invariant model.objective == old(model.objective)
      invariant positions == map k | 0 <= k < i :: (X(k), Y(k))
    {
      model.NewIntVar(0, gridSize.width - blocks[i].width, X(i));
      model.NewIntVar(0, gridSize.height - blocks[i].height, Y(i));
      positions := positions[i := (X(i), Y(i))];
    }
  }

  /** The inner loop: the pairs (i, j) for i < j < |blocks|. */
  method SeparateRow(model: CpSat.CpModel<Var>, blocks: seq<Block>, positions: map<int, (Var, Var)>, i: nat)
    requires i < |blocks| && positions == map k | 0 <= k < |blocks| :: (X(k), Y(k))
    modifies model
    ensures model.constraints == old(model.constraints) + RowConstraints(blocks, i, |blocks|)
    ensures model.objective == old(model.objective)
  {
    for j := i + 1 to |blocks|
      invariant model.constraints == old(model.constraints) + RowConstraints(blocks, i, j)
      invariant model.objective == old(model.objective)
    {
      SeparatePair(model, blocks, positions, i, j);
      CpSat.AppendAssociative(old(model.constraints), RowConstraints(blocks, i, j), PairConstraints(blocks, i, j));
      assert RowConstraints(blocks, i, j + 1) == RowConstraints(blocks, i, j) + PairConstraints(blocks, i, j);
    }
  }

  /** The outer loop over the pairs i < j. */
  method SeparateAll(model: CpSat.CpModel<Var>, blocks: seq<Block>, positions: map<int, (Var, Var)>)
    requires positions == map k | 0 <= k < |blocks| :: (X(k), Y(k))
    modifies model
    ensures model.constraints == old(model.constraints) + OverlapConstraints(blocks, |blocks|)
    ensures model.objective == old(model.objective)
  {
    for i := 0 to |blocks|
      invariant model.constraints == old(model.constraints) + OverlapConstraints(blocks, i)
      invariant model.objective == old(model.objective)
    {
      SeparateRow(model, blocks, positions, i);
      CpSat.AppendAssociative(old(model.constraints), OverlapConstraints(blocks, i), RowConstraints(blocks, i, |blocks|));
      assert OverlapConstraints(blocks, i + 1) == OverlapConstraints(blocks, i) + RowConstraints(blocks, i, |blocks|);
    }
  }

  /**
   * The loop over the connections: declares `dx`, `dy`, posts their absolute-value
   * equalities and collects `dx + dy` in `distances`. Looking up a block that does
   * not exist stops the loop with that key, as the dictionary lookup raises.
   */
  method PostDistances(model: CpSat.CpModel<Var>, blocks: seq<Block>, gridSize: Grid,
                       connections: seq<Connection>, positions: map<int, (Var, Var)>)
    returns (distances: seq<CpSat.Expr<Var>>, missing: Option<int>)
    requires positions == map k | 0 <= k < |blocks| :: (X(k), Y(k))
    modifies model
    ensures missing == MissingKey(|blocks|, connections)
    ensures missing == None ==>
              ValidConnections(|blocks|, connections) &&
              model.constraints == old(model.constraints) + DistanceConstraints(blocks, gridSize, connections) &&
              distances == Distances(|connections|)
    ensures model.objective == old(model.objective)
  {
    var n := |blocks|;
    distances := [];
    for k := 0 to |connections|
      invariant ValidConnections(n, connections[..k])
      invariant model.constraints == old(model.constraints) + DistanceConstraints(blocks, gridSize, connections[..k])
      invariant model.objective == old(model.objective)
      invariant distances == Distances(k)
    {
      var c := connections[k];
      ghost var before := model.constraints;
      model.NewIntVar(0, gridSize.width, Dx(k));
      model.NewIntVar(0, gridSize.height, Dy(k));
      if c.src !in positions || c.dst !in positions {
        MissingKeyAfter(n, connections, k);
        assert connections[k..][0] == c;
        return distances, Some(if c.src !in positions then c.src else c.dst);
      }
      model.AddAbsEquality(Dx(k), CpSat.Minus(CpSat.Plus(CpSat.Ref(positions[c.src].0), CpSat.Const(blocks[c.src].width / 2)),
                                              CpSat.Plus(CpSat.Ref(positions[c.dst].0), CpSat.Const(blocks[c.dst].width / 2))));
      model.AddAbsEquality(Dy(k), CpSat.Minus(CpSat.Plus(CpSat.Ref(positions[c.src].1), CpSat.Const(blocks[c.src].height / 2)),
                                              CpSat.Plus(CpSat.Ref(positions[c.dst].1), CpSat.Const(blocks[c.dst].height / 2))));
      distances := distances + [CpSat.Plus(CpSat.Ref(Dx(k)), CpSat.Ref(Dy(k)))];
      assert model.constraints == before + ConnConstraints(blocks, gridSize, c, k);
      assert connections[..k + 1][..k] == connections[..k];
      assert ValidConnections(n, connections[..k + 1]);
      assert DistanceConstraints(blocks, gridSize, connections[..k + 1]) ==
             DistanceConstraints(blocks, gridSize, connections[..k]) + ConnConstraints(blocks, gridSize, c, k);
      CpSat.AppendAssociative(old(model.constraints), DistanceConstraints(blocks, gridSize, connections[..k]),
                              ConnConstraints(blocks, gridSize, c, k));
    }
    assert connections[..|connections|] == connections;
    MissingKeyNone(n, connections);
    missing := None;
  }

  /** The returned dictionary holds exactly the blocks' indices, with the positions the assignment gives them. */
  lemma ReadBack(positions: map<int, (Var, Var)>, values: Var -> int, n: nat)
    requires positions == map k | 0 <= k < n :: (X(k), Y(k))
    ensures var m := map i | i in positions :: Pos(values(positions[i].0), values(positions[i].1));
            (forall i :: i in m <==> 0 <= i < n) && AsLayout(m, n) == LayoutOf(values, n)
  {
  }

  method OptimizeFactoryLayout(blocks: seq<Block>, connections: seq<Connection>, gridSize: Grid,
                               status: CpSat.Status, values: Var -> int)
    returns (r: Result<Option<map<int, Pos>>, Raised>)
    requires ValidConnections(|blocks|, connections) ==>
               CpSat.SolverContract(ModelConstraints(blocks, gridSize, connections), Objective(), status, values)
    ensures r.Err? <==> !ValidConnections(|blocks|, connections)
    ensures r.Err? ==> MissingKey(|blocks|, connections) == Some(r.error.key)
    ensures r.Ok? ==> (r.value.Some? <==> status == CpSat.Optimal || status == CpSat.Feasible)
    ensures r.Ok? && r.value.Some? ==>
              var m := r.value.value;
              (forall i :: i in m <==> 0 <= i < |blocks|) &&
              Feasible(blocks, gridSize, AsLayout(m, |blocks|)) &&
              WithinDeclaredDomains(blocks, gridSize, connections, AsLayout(m, |blocks|)) &&
              values(Total) == TotalDistance(blocks, AsLayout(m, |blocks|), connections)
    ensures r.Ok? && r.value.Some? ==> AsLayout(r.value.value, |blocks|) == LayoutOf(values, |blocks|)
    ensures r.Ok? && status == CpSat.Optimal ==>
              IsOptimalWithinDomains(blocks, gridSize, connections, AsLayout(r.value.value, |blocks|)) &&
              IsOptimal(blocks, gridSize, connections, AsLayout(r.value.value, |blocks|))
    ensures r.Ok? && status == CpSat.Infeasible ==>
              (forall q :: Feasible(blocks, gridSize, q) ==> !WithinDeclaredDomains(blocks, gridSize, connections, q)) &&
              (DomainsLoose(blocks, gridSize) ==> forall q :: !Feasible(blocks, gridSize, q))
  {
    var model := new CpSat.CpModel<Var>();
    assert model.constraints + PositionDomains(blocks, gridSize, |blocks|) == PositionDomains(blocks, gridSize, |blocks|);
    var positions := DeclarePositions(model, blocks, gridSize);
    SeparateAll(model, blocks, positions);
    model.NewIntVar(0, gridSize.width * gridSize.height * |connections|, Total);
    var distances, missing := PostDistances(model, blocks, gridSize, connections, positions);
    if missing.Some? {
      MissingKeyNone(|blocks|, connections);
      return Err(KeyError(missing.value));
    }
    ghost var posted := model.constraints;
    var ct := model.Add(CpSat.Ref(Total), CpSat.Eq, Sum(distances));
    model.Minimize(CpSat.Ref(Total));
    assert model.constraints == posted + [TotalSum(connections)];
    assert model.constraints == ModelConstraints(blocks, gridSize, connections);
    assert model.objective == Some(Objective());

    // The solver runs on this model; `status` and `values` are its answer.
    SolverAnswer(blocks, gridSize, connections, status, values);
    if status == CpSat.Optimal || status == CpSat.Feasible {
      var m := map i | i in positions :: Pos(values(positions[i].0), values(positions[i].1));
      ReadBack(positions, values, |blocks|);
      return Ok(Some(m));
    } else {
      return Ok(None);
    }
  }
}
