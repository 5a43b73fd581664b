# Factory layout optimizer, modelled in Dafny

`optimize_factory_layout(blocks, connections, grid_size)` places rectangular
factory blocks on an integer grid. Every block must lie inside the grid and no
two blocks may overlap. Among such layouts it looks for one that minimises the
summed Manhattan distance between the floored centres of connected blocks. It
does this by building a CP-SAT model and handing it to the OR-Tools solver. It
returns the positions as a dictionary `{i: (x, y)}` when the solver reports
OPTIMAL or FEASIBLE, and `None` otherwise.

The project has six modules:

- `Geometry` (geometry.dfy) defines blocks, positions and the grid, and the
  four separations the optimizer reifies (left, right, above, below). It proves
  that for blocks of positive size the four-way disjunction holds exactly when
  the rectangles share no cell and intersect in zero area. It also proves where
  the floored centres `x + w // 2` lie.
- `Layout` (layout.dfy) is the solver-independent meaning of a layout.
  `InBounds`, `NoOverlap`, `Feasible`, the per-connection distance `ConnDist`,
  the summed `TotalDistance`, and `IsOptimal`, which means feasible with no
  feasible layout doing better. It also states the declared variable domains
  (`dx <= W`, `dy <= H`, `total <= W * H * len(connections)`) and proves when
  they cut off no feasible layout. Small concrete scenarios are proved as well.
- `CpSat` (cpsat.dfy) covers the part of the OR-Tools interface the optimizer
  uses. `CpModel` is a class whose `constraints` and `objective` fields the
  builder methods update in place. `Sat` gives the meaning of the constraints.
  `SolverContract` states what the solver promises about its answer; the
  solver itself is not modelled.
- `Formulation` (formulation.dfy) is the constraint list the optimizer builds,
  as functions of its inputs. It names every variable the source creates
  (`x_i`, `y_i`, `left_i_j`, …, `dx`, `dy`, `total_distance`). It proves both
  directions of the correspondence:
  - every satisfying assignment is a feasible layout within the declared
    domains whose `total_distance` is its total distance;
  - every such layout is the layout of a satisfying assignment.

  Together these make a solver-optimal assignment optimal among the layouts
  within the declared domains. `Layout` then lifts that to all feasible
  layouts, for blocks of any size. The lift pulls each block so that its
  centre lies in `[0, W] x [0, H]`; pulling keeps the layout feasible and
  makes no connection longer.
- `FactoryLayout` (factory_layout.dfy) is the optimizer itself. It is a method
  that allocates a `CpModel` and fills it by the source's loops: over blocks,
  over pairs `i < j`, and over connections. It fails with `KeyError` when a
  connection names a block that does not exist. It then reads the solver's
  answer and returns the positions only for OPTIMAL or FEASIBLE. The loop
  invariants tie the model's constraint list to the `Formulation` functions.
- `Wrappers` (wrappers.dfy) holds `Option` and `Result`.

The solver's answer enters `OptimizeFactoryLayout` as two parameters: the
status, and the value of every variable. The precondition only says that this
answer obeys `SolverContract` on the constraints and objective of the
finished model; the method proves that the model it built has exactly those
constraints and that objective. Python's `//` on block sizes is written as
Dafny's `/` by 2, which also rounds down for either sign. Integers are
unbounded `int`s; the 64-bit limit of the solver's variables is listed under
"Left out".

## Model

| member | source | states |
|---|---|---|
| `FactoryLayout.OptimizeFactoryLayout` | main.py:3-64 | Fails with `KeyError` exactly when some connection names a missing block, and the key is the first one the loop looks up. Otherwise it returns a dictionary exactly when the status is OPTIMAL or FEASIBLE. That dictionary has one entry per block index, holding the solver's values of `x_i` and `y_i`. Its layout is feasible, fits the declared domains, and has `total_distance` as its total distance. On OPTIMAL the layout is optimal among those fitting the domains, and optimal among all feasible layouts. On INFEASIBLE no feasible layout fits the domains, and when the domains are loose no feasible layout exists at all. |
| `FactoryLayout.DeclarePositions` | main.py:7-10 | Appends the `x_i`, `y_i` domains `[0, W - w_i]`, `[0, H - h_i]` of every block, and `positions` maps each index i to `(x_i, y_i)`. |
| `FactoryLayout.SeparateAll` | main.py:13-32 | The outer pair loop appends the constraints of every pair i < j, in loop order. |
| `FactoryLayout.SeparateRow` | main.py:14-32 | The inner loop appends the constraints of the pairs (i, j), i < j < n, in order. |
| `FactoryLayout.SeparatePair` | main.py:16-32 | One pair gets its four reified separations and their Boolean OR. |
| `FactoryLayout.PostReified` | main.py:16-17 | A new 0/1 literal, plus a linear `<=` that holds only when that literal is true. |
| `FactoryLayout.PostDistances` | main.py:36-47 | Stops on the missing key `MissingKey` reports. Otherwise every connection has appended its `dx`, `dy` domains and absolute-value equalities, and `distances` holds `dx + dy` for each connection in order. |
| `FactoryLayout.MissingKey` | main.py:37-42 | The key a failed lookup reports lies outside `[0, n)` and is an endpoint of some connection. |
| `FactoryLayout.MissingKeyFirst` | main.py:37-42 | The reported key comes from the first invalid connection in loop order: `src` when `src` is missing, else `dst`. |
| `FactoryLayout.MissingKeyNone` | main.py:37-42 | No key is missing exactly when every connection names two existing blocks. |
| `FactoryLayout.ReadBack` | main.py:62 | The returned dictionary's keys are exactly `0 .. n-1`, and its entries are the positions the solver assigned. |
| `FactoryLayout.SolverAnswer` | main.py:49-64 | Reads the answer on the finished model. OPTIMAL or FEASIBLE gives a feasible layout within the declared domains whose total is `total_distance`. OPTIMAL gives optimality among those layouts and among all feasible layouts. INFEASIBLE means no feasible layout fits the domains, and none exists at all when the domains are loose. |
| `Formulation.PositionDomainsSat` | main.py:8-10 | The position domains hold exactly when every block lies inside the grid. |
| `Formulation.PairSound` | main.py:14-32 | A pair's constraints force one of the four separations. |
| `Formulation.PairComplete` | main.py:14-32 | A separated pair satisfies its constraints under an assignment that agrees with the layout. |
| `Formulation.RowSound` | main.py:14-32 | The constraints of row i force i apart from every later block. |
| `Formulation.RowComplete` | main.py:14-32 | A row whose pairs are separated satisfies its constraints. |
| `Formulation.OverlapSound` | main.py:13-32 | The pair constraints force every pair i < j apart. |
| `Formulation.OverlapComplete` | main.py:13-32 | A non-overlapping layout satisfies every pair constraint. |
| `Formulation.ConnSound` | main.py:38-45 | Under a connection's constraints, `dx` and `dy` equal the centre distances and fit `[0, W]` and `[0, H]`. |
| `Formulation.DistanceSound` | main.py:37-47 | The same holds for every connection of the list. |
| `Formulation.DistanceComplete` | main.py:37-47 | A layout whose distances fit the domains satisfies every connection's constraints. |
| `Formulation.DistancePrefixComplete` | main.py:37-47 | The same for the constraints posted for the first n connections. |
| `Formulation.SumOfDistances` | main.py:47-49 | `sum(distances)` evaluates to the layout's total distance. |
| `Formulation.ModelSound` | main.py:8-49 | Every assignment satisfying the model is a feasible layout within the declared domains, with `total_distance` equal to its total distance. |
| `Formulation.AgreeingSat` | main.py:8-49 | An assignment that agrees with a feasible layout within the domains satisfies the model, gives back that layout, and has the layout's total as objective. |
| `Formulation.ModelComplete` | main.py:8-52 | Every feasible layout within the domains is the layout of a satisfying assignment whose objective is its total distance. |
| `Formulation.OptimumWithinDomains` | main.py:52-62 | An OPTIMAL answer's layout is optimal among the feasible layouts within the declared domains. |
| `Formulation.OptimumCorrespondence` | main.py:52-62 | An OPTIMAL answer's layout is optimal among all feasible layouts, whatever the signs of the sizes. |
| `Geometry.SeparationsSwap` | main.py:14-29 | `left(i, j)` is `right(j, i)` and `above(i, j)` is `below(j, i)`, so the disjunction is symmetric. |
| `Geometry.SeparatedIffZeroArea` | main.py:13-32 | For positive sizes, the disjunction holds exactly when the rectangles intersect in zero area. |
| `Geometry.SeparatedIffNoSharedCell` | main.py:13-32 | For positive sizes, the disjunction holds exactly when no grid cell is covered by both blocks. |
| `Geometry.CentreWithinGrid` | main.py:8-10 | A block of non-negative size inside the grid has its floored centre in `[0, W] x [0, H]`. |
| `Geometry.CentreCovered` | main.py:42-45 | A block of positive size covers its floored centre, so inside the grid that centre is in `[0, W-1] x [0, H-1]`. |
| `Layout.NoOverlapEveryOrderedPair` | main.py:13-14 | Checking pairs i < j is equivalent to checking every ordered pair of distinct blocks. |
| `Layout.ConnDistSymmetric` | main.py:42-47 | A connection's distance does not depend on its direction, and is 0 from a block to itself. |
| `Layout.ConnDistWithinGrid` | main.py:38-45 | For an in-bounds layout, `dx <= W` and `dy <= H`, and `dx <= W - 1` and `dy <= H - 1` for positive sizes. |
| `Layout.TotalDistanceAtMost` | main.py:35 | A per-connection bound d gives the total bound `len(connections) * d`. |
| `Layout.ConnDistsWithinGrid` | main.py:38-39 | With loose domains, every connection of an in-bounds layout fits the `dx` and `dy` domains. |
| `Layout.DomainsCutNothing` | main.py:35-39 | When every size is positive, or every size is non-negative and the grid is at least 2 x 2, the declared `dx`, `dy` and `total_distance` domains exclude no in-bounds layout. |
| `Layout.OptimalBeyondDomains` | main.py:35-52 | For blocks of any size, a layout optimal among those within the declared domains is optimal among all feasible layouts. |
| `Layout.TwoSquaresOptimum` | main.py:3-52 | Two 2 x 2 blocks with one connection on a 4 x 4 grid: placing them side by side is optimal, with total 2. |
| `Layout.TwoLargeSquaresInfeasible` | main.py:8-32 | Two 3 x 3 blocks have no feasible layout on a 4 x 4 grid. |
| `Layout.ZeroSizeBlocksExceedTotalDomain` | main.py:35 | Two zero-size blocks on a 1 x 1 grid have a feasible layout with total 2, which exceeds the declared bound of 1. |

## Left out

- The solver run itself (main.py:55-57) is a foreign call. Its 60-second time limit and its search are not modelled. Its answer is a pair of parameters, constrained only by `SolverContract`: OPTIMAL means it satisfies the model and minimises the objective, FEASIBLE means it satisfies the model, INFEASIBLE means nothing satisfies it. UNKNOWN and MODEL_INVALID carry no promise.
- `FactoryLayout.OptimizeFactoryLayout`: on INFEASIBLE it states that no feasible layout exists only under `Layout.DomainsLoose`. Otherwise it states only that no feasible layout fits the declared domains. With zero-size blocks on a grid narrower than 2, those domains can exclude a feasible layout; `Layout.ZeroSizeBlocksExceedTotalDomain` shows one.
- The solver's variables are 64-bit. A `NewIntVar` bound outside the signed 64-bit range raises in Python before solving, for example `W * H * len(connections) >= 2^63` at main.py:35. Bounds beyond the range the solver validates make it report MODEL_INVALID. The model has unbounded integers. It returns `Ok(...)` or `Err(KeyError)` where the source would raise the overflow error. A MODEL_INVALID answer is already covered, because it returns `None` and `SolverContract` promises nothing for that status.
- The printing of the status and the total distance (main.py:59, 61) is console output. The printed total is stated as `values(Total)` in the method's contract.
- The example script and its call (main.py:66-86, 114-115) are demo data.
- `visualize_layout` (main.py:88-112) is matplotlib drawing with floating-point centres.
- main_test.py is a fragment that calls a function defined nowhere, and factorio.py is a static data table; neither is part of this model.
- Variables are identified by a `Var` datatype indexed by block, pair or connection position, not by their string names. OR-Tools treats same-named variables as distinct, and so does the model.
- Python values of the wrong shape (a block that is not a pair, a non-integer index) are not modelled. The inputs are typed sequences of integer pairs.
- The map `positions` is modelled as a Dafny `map`, and the returned dictionary as a `map<int, Pos>`. Iteration order of the dictionary is not modelled; Python inserts keys in index order.
