/**
 * The part of the CP-SAT modelling interface that the optimizer uses: integer
 * and Boolean variables with interval domains, linear constraints that may be
 * enforced by Boolean literals, a Boolean OR, an absolute-value equality and a
 * linear objective to minimise. The model object is a store of constraints that
 * the builder appends to; what an assignment must satisfy is given by `Sat`.
 * The solver itself is foreign: only the promise it makes about its answer is
 * stated, by `SolverContract`.
 */
module CpSat {
  import opened Wrappers

  /** A linear expression over variables of type `V`. */
  datatype Expr<V> =
    | Const(c: int)
    | Ref(v: V)
    | Plus(a: Expr<V>, b: Expr<V>)
    | Minus(a: Expr<V>, b: Expr<V>)

  function Eval<V>(e: Expr<V>, values: V -> int): int
  {
    match e
    case Const(c) => c
    case Ref(v) => values(v)
    case Plus(a, b) => Eval(a, values) + Eval(b, values)
    case Minus(a, b) => Eval(a, values) - Eval(b, values)
  }

  datatype Rel = Le | Eq

  datatype Constraint<V> =
    | Domain(v: V, lo: int, hi: int)                                     // NewIntVar(lo, hi) / NewBoolVar
    | Linear(lhs: Expr<V>, rel: Rel, rhs: Expr<V>, enforce: seq<V>)      // Add(lhs <= rhs).OnlyEnforceIf(...)
    | BoolOr(lits: seq<V>)                                               // AddBoolOr
    | AbsEquality(target: V, arg: Expr<V>)                               // AddAbsEquality

  /** A Boolean variable is true when its value is 1. */
  predicate IsTrue<V>(values: V -> int, v: V)
  {
    values(v) == 1
  }

  predicate Holds<V>(c: Constraint<V>, values: V -> int)
  {
    match c
    case Domain(v, lo, hi) => lo <= values(v) <= hi
    case Linear(lhs, rel, rhs, enforce) =>
      (forall k :: 0 <= k < |enforce| ==> IsTrue(values, enforce[k])) ==>
        (match rel
         case Le => Eval(lhs, values) <= Eval(rhs, values)
         case Eq => Eval(lhs, values) == Eval(rhs, values))
    case BoolOr(lits) => exists k :: 0 <= k < |lits| && IsTrue(values, lits[k])
    case AbsEquality(target, arg) =>
      values(target) == if Eval(arg, values) < 0 then -Eval(arg, values) else Eval(arg, values)
  }

  /** The assignment satisfies every constraint of the model. */
  predicate Sat<V>(cs: seq<Constraint<V>>, values: V -> int)
  {
    forall k :: 0 <= k < |cs| ==> Holds(cs[k], values)
  }

  /** A constraint enforced by the single literal `lit` holds exactly when `lit` being true implies it. */
  lemma HoldsEnforced<V>(lhs: Expr<V>, rhs: Expr<V>, lit: V, values: V -> int)
    ensures Holds(Linear(lhs, Le, rhs, [lit]), values) <==> (IsTrue(values, lit) ==> Eval(lhs, values) <= Eval(rhs, values))
  {
    assert [lit][0] == lit;
  }

  lemma AppendAssociative<T>(a: seq<T>, b: seq<T>, c: seq<T>)
    ensures (a + b) + c == a + (b + c)
  {
  }

  lemma SatAppend<V>(xs: seq<Constraint<V>>, ys: seq<Constraint<V>>, values: V -> int)
    ensures Sat(xs + ys, values) <==> Sat(xs, values) && Sat(ys, values)
  {
    if Sat(xs, values) && Sat(ys, values) {
      forall k | 0 <= k < |xs + ys| ensures Holds((xs + ys)[k], values) {
        if k >= |xs| {
          assert (xs + ys)[k] == ys[k - |xs|];
        }
      }
    }
    if Sat(xs + ys, values) {
      forall k | 0 <= k < |xs| ensures Holds(xs[k], values) {
        assert (xs + ys)[k] == xs[k];
      }
      forall k | 0 <= k < |ys| ensures Holds(ys[k], values) {
        assert (xs + ys)[|xs| + k] == ys[k];
      }
    }
  }

  /** The statuses `CpSolver.Solve` can report. */
  datatype Status = Optimal | Feasible | Infeasible | Unknown | ModelInvalid

  /**
   * What the solver promises: an OPTIMAL answer satisfies the model and minimises
   * the objective over all satisfying assignments, a FEASIBLE one satisfies it,
   * and INFEASIBLE means that nothing satisfies it.
   */
  ghost predicate SolverContract<V(!new)>(cs: seq<Constraint<V>>, objective: Expr<V>, status: Status, values: V -> int)
  {
    (status == Optimal ==>
       Sat(cs, values) &&
       forall other: V -> int :: Sat(cs, other) ==> Eval(objective, values) <= Eval(objective, other)) &&
    (status == Feasible ==> Sat(cs, values)) &&
    (status == Infeasible ==> forall other: V -> int :: !Sat(cs, other))
  }

  /** The `CpModel` object: the constraints posted so far and the objective. */
  class CpModel<V> {
    var constraints: seq<Constraint<V>>
    var objective: Option<Expr<V>>

    constructor ()
      ensures constraints == [] && objective == None
    {
      constraints := [];
      objective := None;
    }

    /** Declares `v` with domain [lo, hi]; an empty domain makes the model unsatisfiable. */
    method NewIntVar(lo: int, hi: int, v: V)
      modifies this
      ensures constraints == old(constraints) + [Domain(v, lo, hi)] && objective == old(objective)
    {
      constraints := constraints + [Domain(v, lo, hi)];
    }

    method NewBoolVar(v: V)
      modifies this
      ensures constraints == old(constraints) + [Domain(v, 0, 1)] && objective == old(objective)
    {
      constraints := constraints + [Domain(v, 0, 1)];
    }

    /** Posts `lhs rel rhs`, unconditionally until `OnlyEnforceIf` is applied to the returned index. */
    method Add(lhs: Expr<V>, rel: Rel, rhs: Expr<V>) returns (ct: nat)
      modifies this
      ensures constraints == old(constraints) + [Linear(lhs, rel, rhs, [])] && objective == old(objective)
      ensures ct == |old(constraints)|
    {
      ct := |constraints|;
      constraints := constraints + [Linear(lhs, rel, rhs, [])];
    }

    /** Makes the linear constraint at `ct` hold only when `lit` is true. */
    method OnlyEnforceIf(ct: nat, lit: V)
      requires ct < |constraints| && constraints[ct].Linear?
      modifies this
      ensures constraints ==
                old(constraints)[ct := old(constraints)[ct].(enforce := old(constraints)[ct].enforce + [lit])]
      ensures objective == old(objective)
    {
      constraints := constraints[ct := constraints[ct].(enforce := constraints[ct].enforce + [lit])];
    }

    method AddBoolOr(lits: seq<V>)
      modifies this
      ensures constraints == old(constraints) + [BoolOr(lits)] && objective == old(objective)
    {
      constraints := constraints + [BoolOr(lits)];
    }

    /** Posts `target == |arg|`. */
    method AddAbsEquality(target: V, arg: Expr<V>)
      modifies this
      ensures constraints == old(constraints) + [AbsEquality(target, arg)] && objective == old(objective)
    {
      constraints := constraints + [AbsEquality(target, arg)];
    }

    method Minimize(e: Expr<V>)
      modifies this
      ensures constraints == old(constraints) && objective == Some(e)
    {
      objective := Some(e);
    }
  }
}
