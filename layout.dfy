/**
 * What a layout is and what it costs, independent of any solver: every block
 * inside the grid, no two blocks overlapping, and the summed centre-to-centre
 * Manhattan distance of the connections, which the optimizer minimises.
 */
module Layout {
  import opened Geometry

  /** A connection `(i, j)` between the blocks with those indices. */
  datatype Connection = Connection(src: int, dst: int)

  predicate ValidConnection(n: int, c: Connection)
  {
    0 <= c.src < n && 0 <= c.dst < n
  }

  /** Every connection names two blocks among the first `n`. */
  predicate ValidConnections(n: int, conns: seq<Connection>)
  {
    forall k :: 0 <= k < |conns| ==> ValidConnection(n, conns[k])
  }

  /** One position per block, each inside the grid. */
  predicate InBounds(blocks: seq<Block>, grid: Grid, pos: seq<Pos>)
  {
    |pos| == |blocks| &&
    forall i :: 0 <= i < |blocks| ==> FitsIn(blocks[i], pos[i], grid)
  }

  /** Every unordered pair i < j satisfies the four-way disjunction. */
  predicate NoOverlap(blocks: seq<Block>, pos: seq<Pos>)
  {
    |pos| == |blocks| &&
    forall i, j :: 0 <= i < j < |blocks| ==> Separated(blocks[i], pos[i], blocks[j], pos[j])
  }

  predicate Feasible(blocks: seq<Block>, grid: Grid, pos: seq<Pos>)
  {
    InBounds(blocks, grid, pos) && NoOverlap(blocks, pos)
  }

  /** Horizontal distance between the floored centres of a connection's two blocks. */
  function ConnDx(blocks: seq<Block>, pos: seq<Pos>, c: Connection): nat
    requires |pos| == |blocks| && ValidConnection(|blocks|, c)
  {
    Abs(CentreX(blocks[c.src], pos[c.src]) - CentreX(blocks[c.dst], pos[c.dst]))
  }

  function ConnDy(blocks: seq<Block>, pos: seq<Pos>, c: Connection): nat
    requires |pos| == |blocks| && ValidConnection(|blocks|, c)
  {
    Abs(CentreY(blocks[c.src], pos[c.src]) - CentreY(blocks[c.dst], pos[c.dst]))
  }

  /** The Manhattan distance `dx + dy` of one connection. */
  function ConnDist(blocks: seq<Block>, pos: seq<Pos>, c: Connection): nat
    requires |pos| == |blocks| && ValidConnection(|blocks|, c)
  {
    ConnDx(blocks, pos, c) + ConnDy(blocks, pos, c)
  }

  /** The sum of the per-connection distances, accumulated left to right. */
  function TotalDistance(blocks: seq<Block>, pos: seq<Pos>, conns: seq<Connection>): nat
    requires |pos| == |blocks| && ValidConnections(|blocks|, conns)
  {
    if conns == [] then 0
    else TotalDistance(blocks, pos, conns[..|conns| - 1]) + ConnDist(blocks, pos, conns[|conns| - 1])
  }

  /** A feasible layout that no feasible layout beats. */
  ghost predicate IsOptimal(blocks: seq<Block>, grid: Grid, conns: seq<Connection>, pos: seq<Pos>)
    requires ValidConnections(|blocks|, conns)
  {
    Feasible(blocks, grid, pos) &&
    forall q :: Feasible(blocks, grid, q) ==>
      TotalDistance(blocks, pos, conns) <= TotalDistance(blocks, q, conns)
  }

  /** The declared upper bound of the `total_distance` variable. */
  function TotalBound(grid: Grid, conns: seq<Connection>): int
  {
    grid.width * grid.height * |conns|
  }

  /** The layout's distances fit the declared domains `dx <= W`, `dy <= H`, `total <= W * H * |conns|`. */
  predicate WithinDeclaredDomains(blocks: seq<Block>, grid: Grid, conns: seq<Connection>, pos: seq<Pos>)
    requires |pos| == |blocks| && ValidConnections(|blocks|, conns)
  {
    (forall k :: 0 <= k < |conns| ==>
       ConnDx(blocks, pos, conns[k]) <= grid.width && ConnDy(blocks, pos, conns[k]) <= grid.height) &&
    TotalDistance(blocks, pos, conns) <= TotalBound(grid, conns)
  }

  /** Optimal among the feasible layouts that also fit the declared domains: what the solver minimises over. */
  ghost predicate IsOptimalWithinDomains(blocks: seq<Block>, grid: Grid, conns: seq<Connection>, pos: seq<Pos>)
    requires ValidConnections(|blocks|, conns)
  {
    Feasible(blocks, grid, pos) && WithinDeclaredDomains(blocks, grid, conns, pos) &&
    forall q :: Feasible(blocks, grid, q) && WithinDeclaredDomains(blocks, grid, conns, q) ==>
      TotalDistance(blocks, pos, conns) <= TotalDistance(blocks, q, conns)
  }

  /** Sizes under which the declared domains are loose: all positive, or all non-negative on a grid at least 2 x 2. */
  predicate DomainsLoose(blocks: seq<Block>, grid: Grid)
  {
    (forall i :: 0 <= i < |blocks| ==> HasPositiveSize(blocks[i])) ||
    ((forall i :: 0 <= i < |blocks| ==> HasNonNegativeSize(blocks[i])) && grid.width >= 2 && grid.height >= 2)
  }

  /** Checking only i < j suffices: the pair relation is symmetric, so every ordered pair of distinct blocks is separated. */
  lemma NoOverlapEveryOrderedPair(blocks: seq<Block>, pos: seq<Pos>)
    requires |pos| == |blocks|
    ensures NoOverlap(blocks, pos) <==>
              forall i, j :: 0 <= i < |blocks| && 0 <= j < |blocks| && i != j ==>
                Separated(blocks[i], pos[i], blocks[j], pos[j])
  {
    if NoOverlap(blocks, pos) {
      forall i, j | 0 <= i < |blocks| && 0 <= j < |blocks| && i != j
        ensures Separated(blocks[i], pos[i], blocks[j], pos[j])
      {
        if j < i {
          SeparationsSwap(blocks[j], pos[j], blocks[i], pos[i]);
        }
      }
    }
  }

  /** A connection's distance does not depend on its direction, and a block is at distance 0 from itself. */
  lemma ConnDistSymmetric(blocks: seq<Block>, pos: seq<Pos>, c: Connection)
    requires |pos| == |blocks| && ValidConnection(|blocks|, c)
    ensures ConnDist(blocks, pos, c) == ConnDist(blocks, pos, Connection(c.dst, c.src))
    ensures c.src == c.dst ==> ConnDist(blocks, pos, c) == 0
  {
  }

  /**
   * Inside the grid, `dx <= W` and `dy <= H` for blocks of non-negative size, and
   * `dx <= W - 1`, `dy <= H - 1` for blocks of positive size.
   */
  lemma ConnDistWithinGrid(blocks: seq<Block>, grid: Grid, pos: seq<Pos>, c: Connection)
    requires InBounds(blocks, grid, pos) && ValidConnection(|blocks|, c)
    requires HasNonNegativeSize(blocks[c.src]) && HasNonNegativeSize(blocks[c.dst])
    ensures ConnDx(blocks, pos, c) <= grid.width && ConnDy(blocks, pos, c) <= grid.height
    ensures HasPositiveSize(blocks[c.src]) && HasPositiveSize(blocks[c.dst]) ==>
              ConnDx(blocks, pos, c) <= grid.width - 1 && ConnDy(blocks, pos, c) <= grid.height - 1
  {
    assert FitsIn(blocks[c.src], pos[c.src], grid) && FitsIn(blocks[c.dst], pos[c.dst], grid);
    CentreWithinGrid(blocks[c.src], pos[c.src], grid);
    CentreWithinGrid(blocks[c.dst], pos[c.dst], grid);
    if HasPositiveSize(blocks[c.src]) && HasPositiveSize(blocks[c.dst]) {
      CentreCovered(blocks[c.src], pos[c.src], grid);
      CentreCovered(blocks[c.dst], pos[c.dst], grid);
    }
  }

  /** A per-connection bound `d` gives the total bound `|conns| * d`. */
  lemma {:induction false} TotalDistanceAtMost(blocks: seq<Block>, pos: seq<Pos>, conns: seq<Connection>, d: int)
    requires |pos| == |blocks| && ValidConnections(|blocks|, conns)
    requires forall k :: 0 <= k < |conns| ==> ConnDist(blocks, pos, conns[k]) <= d
    ensures TotalDistance(blocks, pos, conns) <= |conns| * d
  {
    if conns != [] {
      var init := conns[..|conns| - 1];
      assert forall k :: 0 <= k < |init| ==> init[k] == conns[k];
      TotalDistanceAtMost(blocks, pos, init, d);
      assert |conns| * d == |init| * d + d;
    }
  }

  /** Under `DomainsLoose`, every connection of an in-bounds layout fits `dx <= W`, `dy <= H` and `dx + dy <= d`. */
  lemma ConnDistsWithinGrid(blocks: seq<Block>, grid: Grid, conns: seq<Connection>, pos: seq<Pos>, d: int)
    requires ValidConnections(|blocks|, conns) && InBounds(blocks, grid, pos)
    requires DomainsLoose(blocks, grid)
    requires d == if forall i :: 0 <= i < |blocks| ==> HasPositiveSize(blocks[i])
                  then grid.width + grid.height - 2 else grid.width + grid.height
    ensures forall k :: 0 <= k < |conns| ==>
              ConnDx(blocks, pos, conns[k]) <= grid.width && ConnDy(blocks, pos, conns[k]) <= grid.height &&
              ConnDist(blocks, pos, conns[k]) <= d
  {
    forall k | 0 <= k < |conns|
      ensures ConnDx(blocks, pos, conns[k]) <= grid.width && ConnDy(blocks, pos, conns[k]) <= grid.height
      ensures ConnDist(blocks, pos, conns[k]) <= d
    {
      var c := conns[k];
      assert ValidConnection(|blocks|, c);
      assert HasNonNegativeSize(blocks[c.src]) && HasNonNegativeSize(blocks[c.dst]);
      ConnDistWithinGrid(blocks, grid, pos, c);
    }
  }

  /** Under `DomainsLoose`, the declared `dx`, `dy` and `total_distance` domains cut off no in-bounds layout. */
  lemma DomainsCutNothing(blocks: seq<Block>, grid: Grid, conns: seq<Connection>, pos: seq<Pos>)
    requires ValidConnections(|blocks|, conns) && InBounds(blocks, grid, pos)
    requires DomainsLoose(blocks, grid)
    ensures WithinDeclaredDomains(blocks, grid, conns, pos)
  {
    var positive := forall i :: 0 <= i < |blocks| ==> HasPositiveSize(blocks[i]);
    var d := if positive then grid.width + grid.height - 2 else grid.width + grid.height;
    ConnDistsWithinGrid(blocks, grid, conns, pos, d);
    TotalDistanceAtMost(blocks, pos, conns, d);
    if conns != [] {
      var c := conns[0];
      assert ValidConnection(|blocks|, c);
      assert FitsIn(blocks[c.src], pos[c.src], grid);
      GridAreaCoversPerimeter(grid.width, grid.height, positive);
      MonotoneProduct(|conns|, d, grid.width * grid.height);
    }
  }

  /** Every block of a layout pulled so that its centre lies in [0, W] x [0, H]. */
  function Pulled(blocks: seq<Block>, grid: Grid, q: seq<Pos>): (r: seq<Pos>)
    requires |q| == |blocks|
    ensures |r| == |blocks|
  {
    seq(|blocks|, i requires 0 <= i < |blocks| => Pull(blocks[i], q[i], grid))
  }

  /** Pulling a feasible layout keeps it feasible. */
  lemma PulledFeasible(blocks: seq<Block>, grid: Grid, q: seq<Pos>)
    requires Feasible(blocks, grid, q) && grid.width >= 0 && grid.height >= 0
    ensures Feasible(blocks, grid, Pulled(blocks, grid, q))
  {
    var r := Pulled(blocks, grid, q);
    forall i | 0 <= i < |blocks| ensures FitsIn(blocks[i], r[i], grid) {
      PullFits(blocks[i], q[i], grid);
    }
    forall i, j | 0 <= i < j < |blocks| ensures Separated(blocks[i], r[i], blocks[j], r[j]) {
      PullSeparated(blocks[i], q[i], blocks[j], q[j], grid);
    }
  }

  /** In the pulled layout a connection fits `dx <= W` and `dy <= H`, and is no longer than before. */
  lemma PulledDistances(blocks: seq<Block>, grid: Grid, q: seq<Pos>, c: Connection)
    requires InBounds(blocks, grid, q) && ValidConnection(|blocks|, c) && grid.width >= 0 && grid.height >= 0
    ensures ConnDx(blocks, Pulled(blocks, grid, q), c) <= grid.width
    ensures ConnDy(blocks, Pulled(blocks, grid, q), c) <= grid.height
    ensures ConnDist(blocks, Pulled(blocks, grid, q), c) <= ConnDist(blocks, q, c)
  {
    var s, d := blocks[c.src], blocks[c.dst];
    assert FitsIn(s, q[c.src], grid) && FitsIn(d, q[c.dst], grid);
    PullFits(s, q[c.src], grid);
    PullFits(d, q[c.dst], grid);
    ClampContracts(CentreX(s, q[c.src]), CentreX(d, q[c.dst]), grid.width);
    ClampContracts(CentreY(s, q[c.src]), CentreY(d, q[c.dst]), grid.height);
  }

  /** A layout whose every connection is no longer than in another has no larger total. */
  lemma {:induction false} TotalMonotone(blocks: seq<Block>, p: seq<Pos>, q: seq<Pos>, conns: seq<Connection>)
    requires |p| == |blocks| && |q| == |blocks| && ValidConnections(|blocks|, conns)
    requires forall k :: 0 <= k < |conns| ==> ConnDist(blocks, p, conns[k]) <= ConnDist(blocks, q, conns[k])
    ensures TotalDistance(blocks, p, conns) <= TotalDistance(blocks, q, conns)
  {
    if conns != [] {
      var init := conns[..|conns| - 1];
      assert forall k :: 0 <= k < |init| ==> init[k] == conns[k];
      TotalMonotone(blocks, p, q, init);
    }
  }

  /**
   * A layout optimal among those within the declared domains is optimal outright,
   * whatever the signs of the sizes. Pulling any feasible layout gives a feasible
   * layout, no longer on any connection, that fits the `dx` and `dy` domains. So
   * either the pulled layout is within the domains and no better than the optimum,
   * or it breaks the total's bound and its total, and the original's, exceed it.
   */
  lemma OptimalBeyondDomains(blocks: seq<Block>, grid: Grid, conns: seq<Connection>, pos: seq<Pos>)
    requires ValidConnections(|blocks|, conns)
    requires IsOptimalWithinDomains(blocks, grid, conns, pos)
    ensures IsOptimal(blocks, grid, conns, pos)
  {
    forall q | Feasible(blocks, grid, q)
      ensures TotalDistance(blocks, pos, conns) <= TotalDistance(blocks, q, conns)
    {
      if conns != [] {
        // The optimum's first connection fits its domains, so W >= 0 and H >= 0.
        assert ConnDx(blocks, pos, conns[0]) <= grid.width && ConnDy(blocks, pos, conns[0]) <= grid.height;
        var r := Pulled(blocks, grid, q);
        PulledFeasible(blocks, grid, q);
        forall k | 0 <= k < |conns|
          ensures ConnDx(blocks, r, conns[k]) <= grid.width && ConnDy(blocks, r, conns[k]) <= grid.height
          ensures ConnDist(blocks, r, conns[k]) <= ConnDist(blocks, q, conns[k])
        {
          PulledDistances(blocks, grid, q, conns[k]);
        }
        TotalMonotone(blocks, r, q, conns);
        if TotalDistance(blocks, r, conns) <= TotalBound(grid, conns) {
          assert WithinDeclaredDomains(blocks, grid, conns, r);
        }
      }
    }
  }

  /** W + H - 2 <= W * H when both sides are at least 1, and W + H <= W * H when both are at least 2. */
  lemma GridAreaCoversPerimeter(w: int, h: int, positive: bool)
    requires if positive then w >= 1 && h >= 1 else w >= 2 && h >= 2
    ensures (if positive then w + h - 2 else w + h) <= w * h
  {
    if positive {
      NonNegativeProduct(w - 1, h - 1);
      assert (w - 1) * (h - 1) == w * h - w - h + 1;
    } else {
      NonNegativeProduct(w - 2, h - 2);
      assert (w - 2) * (h - 2) == w * h - 2 * w - 2 * h + 4;
    }
  }

  lemma NonNegativeProduct(m: int, n: int)
    requires m >= 0 && n >= 0
    ensures m * n >= 0
  {
  }

  lemma MonotoneProduct(k: nat, a: int, b: int)
    requires a <= b
    ensures k * a <= k * b
  {
    assert k * b - k * a == k * (b - a);
  }

  /** Two 2 x 2 blocks joined by one connection on a 4 x 4 grid: side by side is optimal, at distance 2. */
  lemma TwoSquaresOptimum()
    ensures var blocks := [Block(2, 2), Block(2, 2)];
            var conns := [Connection(0, 1)];
            ValidConnections(|blocks|, conns) &&
            IsOptimal(blocks, Grid(4, 4), conns, [Pos(0, 0), Pos(2, 0)]) &&
            TotalDistance(blocks, [Pos(0, 0), Pos(2, 0)], conns) == 2
  {
    var blocks := [Block(2, 2), Block(2, 2)];
    var conns := [Connection(0, 1)];
    var best := [Pos(0, 0), Pos(2, 0)];
    assert conns[..0] == [];
    assert Separated(blocks[0], best[0], blocks[1], best[1]);
    assert TotalDistance(blocks, best, conns) == 2;
    forall q | Feasible(blocks, Grid(4, 4), q)
      ensures TotalDistance(blocks, q, conns) >= 2
    {
      assert Separated(blocks[0], q[0], blocks[1], q[1]);
    }
  }

  /** Two 3 x 3 blocks cannot share a 4 x 4 grid: no layout is feasible. */
  lemma TwoLargeSquaresInfeasible(q: seq<Pos>)
    ensures !Feasible([Block(3, 3), Block(3, 3)], Grid(4, 4), q)
  {
    var blocks := [Block(3, 3), Block(3, 3)];
    if InBounds(blocks, Grid(4, 4), q) {
      assert FitsIn(blocks[0], q[0], Grid(4, 4)) && FitsIn(blocks[1], q[1], Grid(4, 4));
      assert !Separated(blocks[0], q[0], blocks[1], q[1]);
    }
  }

  /** Without `DomainsLoose` the total's domain can cut: two zero-size blocks on a 1 x 1 grid at distance 2 > 1. */
  lemma ZeroSizeBlocksExceedTotalDomain()
    ensures var blocks := [Block(0, 0), Block(0, 0)];
            var conns := [Connection(0, 1)];
            var pos := [Pos(0, 0), Pos(1, 1)];
            ValidConnections(|blocks|, conns) && Feasible(blocks, Grid(1, 1), pos) &&
            !WithinDeclaredDomains(blocks, Grid(1, 1), conns, pos)
  {
    var blocks := [Block(0, 0), Block(0, 0)];
    var conns := [Connection(0, 1)];
    var pos := [Pos(0, 0), Pos(1, 1)];
    assert conns[..0] == [];
    assert ConnDist(blocks, pos, conns[0]) == 2;
    assert TotalDistance(blocks, pos, conns) == 2;
    assert TotalBound(Grid(1, 1), conns) == 1;
    assert InBounds(blocks, Grid(1, 1), pos);
    assert NoOverlap(blocks, pos) by {
      assert Separated(blocks[0], pos[0], blocks[1], pos[1]);
    }
  }
}
