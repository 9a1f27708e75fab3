/** The part of OR-Tools' CP-SAT model builder (`cp_model.CpModel`) the schedulers use, as plain
    records: every `NewIntVar`/`NewBoolVar`/`NewIntervalVar`/`NewConstant` call becomes a `Decl`
    and every `Add…` call a `Constraint` appended to a sequence.  `Holds` gives the records their
    meaning over an assignment of integers to variables, so that what the schedulers emit can be
    read as statements about every solution. */
module CpModel {
  import opened Wrappers

  /** Variables are named by the role they play: slot `slot` of client `client`, option `k` of a
      slot, the transfer between two slots, and so on.  `One` is `NewConstant(1)`: the identity of
      the separate constant objects the source creates is not significant. */
  datatype Var =
    | Start(client: int, slot: int)
    | End(client: int, slot: int)
    | Duration(client: int, slot: int)
    | Floor(client: int, slot: int)
    | Interval(client: int, slot: int)
    | Order(client: int, slot: int)
    | OptStart(client: int, slot: int, k: int)
    | OptEnd(client: int, slot: int, k: int)
    | OptLit(client: int, slot: int, k: int)
    | OptFloor(client: int, slot: int, k: int)
    | OptInterval(client: int, slot: int, k: int)
    | TrStart(client: int, slot: int, other: int)
    | TrEnd(client: int, slot: int, other: int)
    | TrLit(client: int, slot: int, other: int)
    | TrPrec(client: int, slot: int, other: int)
    | TrInterval(client: int, slot: int, other: int)
    | Makespan
    | One

  /** `coef * v` */
  datatype Term = Term(coef: int, v: Var)

  /** A linear expression `Σ coef·v + offset`. */
  datatype LinExpr = Lin(terms: seq<Term>, offset: int)

  datatype Rel = EQ | NE | LE | LT | GE | GT

  /** A literal in an `OnlyEnforceIf` list: the variable or its `.Not()`. */
  datatype Lit = Pos(v: Var) | Neg(v: Var)

  datatype Arc = Arc(tail: int, head: int, lit: Var)

  datatype Constraint =
    | Linear(lhs: LinExpr, rel: Rel, rhs: LinExpr, enforce: seq<Lit>)
    | ExactlyOne(lits: seq<Var>)
    | AtMostOne(lits: seq<Var>)
    | NoOverlap(intervals: seq<Var>)
    | ModuloEquality(target: int, v: Var, modulus: int)
    | MaxEquality(maxVar: Var, vars: seq<Var>)
    | Circuit(arcs: seq<Arc>)
    | Minimize(objective: LinExpr)

  datatype Decl =
    | IntVar(v: Var, lo: int, hi: int)
    | BoolVar(v: Var)
    | Constant(v: Var, value: int)
    | IntervalVar(v: Var, start: Var, size: LinExpr, end: Var, presence: Option<Var>)

  // Builders mirroring the operator overloads of the Python API.

  function V(v: Var): LinExpr { Lin([Term(1, v)], 0) }
  function K(n: int): LinExpr { Lin([], n) }
  /** `a - b` */
  function Diff(a: Var, b: Var): LinExpr { Lin([Term(1, a), Term(-1, b)], 0) }
  /** `a + n` */
  function Plus(a: Var, n: int): LinExpr { Lin([Term(1, a)], n) }
  /** `sum(vs)` */
  function SumOf(vs: seq<Var>): (e: LinExpr)
    ensures |e.terms| == |vs| && e.offset == 0
    ensures forall j :: 0 <= j < |vs| ==> e.terms[j] == Term(1, vs[j])
  {
    if vs == [] then K(0) else Lin([Term(1, vs[0])] + SumOf(vs[1..]).terms, 0)
  }

  /** `Add(x rel y)` */
  function Rule(x: LinExpr, rel: Rel, y: LinExpr): Constraint { Linear(x, rel, y, []) }
  /** `Add(x rel y).OnlyEnforceIf(l)` */
  function RuleIf(x: LinExpr, rel: Rel, y: LinExpr, l: Lit): Constraint { Linear(x, rel, y, [l]) }

  /** The literals of a slot's options, in order. */
  function Lits(c: int, i: int, n: nat): (r: seq<Var>)
    ensures |r| == n && forall k :: 0 <= k < n ==> r[k] == OptLit(c, i, k)
  {
    seq(n, k => OptLit(c, i, k))
  }

  lemma LitsStep(c: int, i: int, k: nat)
    ensures Lits(c, i, k) + [OptLit(c, i, k)] == Lits(c, i, k + 1)
  {
    assert forall j :: 0 <= j < k + 1 ==> (Lits(c, i, k) + [OptLit(c, i, k)])[j] == OptLit(c, i, j);
  }

  // Semantics.

  type Assignment = Var -> int

  /** `CpSolver.Solve`'s status. */
  datatype Status = Optimal | Feasible | Infeasible | ModelInvalid | Unknown

  function Eval(e: LinExpr, a: Assignment): int {
    EvalTerms(e.terms, a) + e.offset
  }

  function EvalTerms(ts: seq<Term>, a: Assignment): int {
    if ts == [] then 0 else ts[0].coef * a(ts[0].v) + EvalTerms(ts[1..], a)
  }

  predicate Compare(x: int, rel: Rel, y: int) {
    match rel
    case EQ => x == y
    case NE => x != y
    case LE => x <= y
    case LT => x < y
    case GE => x >= y
    case GT => x > y
  }

  predicate LitHolds(l: Lit, a: Assignment) {
    match l
    case Pos(v) => a(v) != 0
    case Neg(v) => a(v) == 0
  }

  /** How many of `vs` are true. */
  function CountTrue(vs: seq<Var>, a: Assignment): nat {
    if vs == [] then 0 else (if a(vs[0]) != 0 then 1 else 0) + CountTrue(vs[1..], a)
  }

  function MaxOf(vs: seq<Var>, a: Assignment): int
    requires vs != []
  {
    if |vs| == 1 then a(vs[0])
    else var m := MaxOf(vs[1..], a); if a(vs[0]) >= m then a(vs[0]) else m
  }

  /** C++ `%`, which CP-SAT uses: the remainder takes the sign of the dividend. */
  function TruncMod(x: int, m: int): int
    requires m > 0
  {
    if x >= 0 then x % m else -((-x) % m)
  }

  /** What a constraint says about an assignment.  NoOverlap, Circuit and the objective are not
      interpreted: no property below depends on them. */
  predicate Holds(c: Constraint, a: Assignment) {
    match c
    case Linear(x, rel, y, enforce) =>
      (forall l :: l in enforce ==> LitHolds(l, a)) ==> Compare(Eval(x, a), rel, Eval(y, a))
    case ExactlyOne(lits) => CountTrue(lits, a) == 1
    case AtMostOne(lits) => CountTrue(lits, a) <= 1
    case NoOverlap(_) => true
    case ModuloEquality(t, v, m) => m > 0 && TruncMod(a(v), m) == t
    case MaxEquality(t, vs) => vs != [] && a(t) == MaxOf(vs, a)
    case Circuit(_) => true
    case Minimize(_) => true
  }

  predicate DeclHolds(d: Decl, a: Assignment) {
    match d
    case IntVar(v, lo, hi) => lo <= a(v) <= hi
    case BoolVar(v) => 0 <= a(v) <= 1
    case Constant(v, k) => a(v) == k
    case IntervalVar(_, s, size, e, p) =>
      (p.None? || a(p.value) != 0) ==> a(s) + Eval(size, a) == a(e)
  }

  /** `a` is a solution of the model built so far. */
  predicate Solution(decls: seq<Decl>, cons: seq<Constraint>, a: Assignment) {
    && (forall d :: d in decls ==> DeclHolds(d, a))
    && (forall c :: c in cons ==> Holds(c, a))
  }

  lemma EvalVar(v: Var, a: Assignment)
    ensures Eval(V(v), a) == a(v)
  {
    assert EvalTerms([Term(1, v)][1..], a) == 0;
  }

  lemma EvalDiff(x: Var, y: Var, a: Assignment)
    ensures Eval(Diff(x, y), a) == a(x) - a(y)
  {
    var ts := [Term(1, x), Term(-1, y)];
    assert ts[1..][1..] == [];
    assert EvalTerms(ts[1..], a) == -a(y);
  }

  lemma {:induction false} CountTrueOne(vs: seq<Var>, a: Assignment, j: int)
    requires 0 <= j < |vs| && a(vs[j]) != 0 && CountTrue(vs, a) <= 1
    ensures forall i :: 0 <= i < |vs| && i != j ==> a(vs[i]) == 0
  {
    if j > 0 {
      assert vs[1..][j - 1] == vs[j];
      CountTrueOne(vs[1..], a, j - 1);
      CountTruePos(vs[1..], a, j - 1);
      forall i | 0 <= i < |vs| && i != j ensures a(vs[i]) == 0 {
        if i > 0 { assert vs[1..][i - 1] == vs[i]; }
      }
    } else {
      forall i | 0 < i < |vs| ensures a(vs[i]) == 0 {
        CountTrueZero(vs[1..], a, i - 1);
      }
    }
  }

  lemma {:induction false} CountTruePos(vs: seq<Var>, a: Assignment, j: int)
    requires 0 <= j < |vs| && a(vs[j]) != 0
    ensures CountTrue(vs, a) >= 1
  {
    if j > 0 { CountTruePos(vs[1..], a, j - 1); }
  }

  lemma {:induction false} CountTrueZero(vs: seq<Var>, a: Assignment, j: int)
    requires 0 <= j < |vs| && CountTrue(vs, a) == 0
    ensures a(vs[j]) == 0
  {
    if j > 0 { CountTrueZero(vs[1..], a, j - 1); }
  }

  /** If exactly one of `vs` is true, some position holds it and every other is false. */
  lemma {:induction false} ExactlyOneWitness(vs: seq<Var>, a: Assignment) returns (j: int)
    requires CountTrue(vs, a) == 1
    ensures 0 <= j < |vs| && a(vs[j]) != 0
    ensures forall i :: 0 <= i < |vs| && i != j ==> a(vs[i]) == 0
  {
    if a(vs[0]) != 0 {
      j := 0;
    } else {
      var j' := ExactlyOneWitness(vs[1..], a);
      j := j' + 1;
    }
    CountTrueOne(vs, a, j);
  }
}
