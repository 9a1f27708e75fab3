/** The constraints the earlier scheduler (the top-level `solver.py`) adds after defining its
    variables: the transfer and gap rule between consecutive slots, the general constraints and
    the makespan; the run of `generate` up to the solver call; and the two helpers
    `generate` does not call, `__find_last_activity_condition` and `__validate_assessment`. */
module LegacyRules {
  import opened Wrappers
  import opened PyDict
  import opened PyList
  import opened Kwargs
  import opened CpModel
  import opened Models
  import opened LegacyVariables
  import LS = LegacySchedule
  import GS = GeneralSpec
  import VS = VariableSpec

  // `__apply_gap_constraints`.

  /** The rule between slots `i` and `i + 1`: the current scheduler's transfer rule, and without a
      transfer the later slot starts no earlier than and at most `maxGap` after the earlier one ends. */
  function GapCons(c: int, i: int, p: GS.Params): seq<Constraint> {
    GS.TransferCons(c, i, p) + [RuleIf(V(Start(c, i + 1)), GE, V(End(c, i)), Neg(TrLit(c, i, i + 1)))] + GS.MaxGapCons(c, i, p)
  }

  /** The pair `(i, i + 1)` of client `c`: the transfer's variables and rule, the transfer
      interval among the client's intervals and in `__transfer_time_interval_vars`. */
  function Gap(b: Build, c: int, i: int, p: GS.Params): Build {
    b.(decls := b.decls + GS.TransferDecls(c, i, p), cons := b.cons + GapCons(c, i, p),
       maps := b.maps.(perClient := Append(b.maps.perClient, c, TrInterval(c, i, i + 1)),
                       transfers := Put(b.maps.transfers, (c, i, i + 1), TrInterval(c, i, i + 1))))
  }

  /** The first `k` pairs of client `c`. */
  function ClientGaps(b: Build, c: int, k: nat, p: GS.Params): Build {
    if k == 0 then b else Gap(ClientGaps(b, c, k - 1, p), c, k - 1, p)
  }

  /** Clients `0 .. n - 1`, each with one pair per consecutive slots. */
  function Gaps(b: Build, scheds: seq<seq<seq<Task>>>, p: GS.Params, n: nat): Build
    requires n <= |scheds|
  {
    if n == 0 then b else ClientGaps(Gaps(b, scheds, p, n - 1), n - 1, GS.PairCount(|scheds[n - 1]|), p)
  }

  /** In a solution of a pair's declarations and constraints the transfer literal is 1 exactly
      when the floors differ; with a transfer, the transfer fills the time from the earlier end to
      the later start; without one, the later slot starts between 0 and `maxGap` after the
      earlier one ends. */
  lemma GapMeaning(c: int, i: int, p: GS.Params, a: Assignment)
    requires forall d :: d in GS.TransferDecls(c, i, p) ==> DeclHolds(d, a)
    requires forall x :: x in GapCons(c, i, p) ==> Holds(x, a)
    ensures a(TrLit(c, i, i + 1)) == 1 <==> a(Floor(c, i)) != a(Floor(c, i + 1))
    ensures a(TrLit(c, i, i + 1)) == 1 ==>
      a(TrStart(c, i, i + 1)) == a(End(c, i)) && a(Start(c, i + 1)) == a(TrEnd(c, i, i + 1)) &&
      a(TrEnd(c, i, i + 1)) == a(TrStart(c, i, i + 1)) + p.transfer
    ensures a(TrLit(c, i, i + 1)) == 0 ==> 0 <= a(Start(c, i + 1)) - a(End(c, i)) <= p.maxGap
  {
    var lit := TrLit(c, i, i + 1);
    var cs := GapCons(c, i, p);
    assert forall x :: x in GS.TransferCons(c, i, p) + GS.MaxGapCons(c, i, p) ==> x in cs;
    GS.TransferMeaning(c, i, p, a);
    var ge := RuleIf(V(Start(c, i + 1)), GE, V(End(c, i)), Neg(lit));
    assert Holds(cs[6], a) && cs[6] == ge;
    EvalVar(Start(c, i + 1), a); EvalVar(End(c, i), a);
    var iv := GS.TransferDecls(c, i, p)[3];
    assert DeclHolds(iv, a);
    assert Eval(K(p.transfer), a) == p.transfer;
    if a(lit) == 0 {
      assert forall l :: l in [Neg(lit)] ==> LitHolds(l, a);
    }
  }

  // `__apply_general_constraints`.

  /** Without simultaneous transfers, a no-overlap over `__transfer_time_interval_vars`. */
  function Head(b: Build, p: GS.Params): Build {
    if p.simultaneous then b else b.(cons := b.cons + [NoOverlap(Values(b.maps.transfers))])
  }

  /** `AddExactlyOne(__activity_bool_vars[(client_id, activity.id)])` for each activity. */
  function ExactlyOnes(boolVars: Dict<(int, int), seq<Var>>, c: int, acts: seq<Activity>): (r: seq<Constraint>)
    ensures |r| == |acts| && forall j :: 0 <= j < |acts| ==> r[j] == ExactlyOne(GetList(boolVars, (c, acts[j].id)))
  {
    seq(|acts|, j requires 0 <= j < |acts| => ExactlyOne(GetList(boolVars, (c, acts[j].id))))
  }

  /** Client `c` with `n` slots, whose assessment is `owner` (an AttributeError without one):
      each activity chosen once, no overlap among its intervals, and starts and ends on the grid. */
  function ClientGeneral(b: Build, c: int, n: nat, owner: Option<Assessment>, p: GS.Params): Result<Build> {
    if owner.None? then Err(AttributeError)
    else Ok(b.(cons := b.cons + ExactlyOnes(b.maps.boolVars, c, owner.value.activities) +
                        [NoOverlap(GetList(b.maps.perClient, c))] + GS.GridCons(c, n, p)))
  }

  /** The head, then clients `0 .. k - 1`; `owners[c]` is client `c`'s assessment. */
  function GeneralUpTo(b: Build, scheds: seq<seq<seq<Task>>>, owners: seq<Option<Assessment>>, p: GS.Params, k: nat): Result<Build>
    requires k <= |scheds| == |owners|
  {
    if k == 0 then Ok(Head(b, p))
    else
      var prev :- GeneralUpTo(b, scheds, owners, p, k - 1);
      ClientGeneral(prev, k - 1, |scheds[k - 1]|, owners[k - 1], p)
  }

  lemma {:induction false} GeneralErrPersists(b: Build, scheds: seq<seq<seq<Task>>>, owners: seq<Option<Assessment>>, p: GS.Params, k: nat, n: nat)
    requires k <= n <= |scheds| == |owners| && GeneralUpTo(b, scheds, owners, p, k).Err?
    ensures GeneralUpTo(b, scheds, owners, p, n) == GeneralUpTo(b, scheds, owners, p, k)
    decreases n - k
  {
    if k < n { GeneralErrPersists(b, scheds, owners, p, k + 1, n); }
  }

  // `__get_assessment_by_client_id`.

  /** The first assessment whose entry in `__clients_per_assessment` lists the client. */
  function FirstOwner(assessments: seq<Assessment>, clients: Dict<int, seq<int>>, c: int): (r: Option<Assessment>)
    ensures r.Some? ==> r.value in assessments && c in GetList(clients, r.value.id)
    ensures r.None? <==> forall a :: a in assessments ==> c !in GetList(clients, a.id)
  {
    if assessments == [] then None
    else if c in GetList(clients, assessments[0].id) then Some(assessments[0])
    else
      assert forall a :: a in assessments ==> a == assessments[0] || a in assessments[1..];
      FirstOwner(assessments[1..], clients, c)
  }

  /** The assessment of each of the clients `0 .. n - 1`. */
  function Owners(assessments: seq<Assessment>, clients: Dict<int, seq<int>>, n: nat): (r: seq<Option<Assessment>>)
    ensures |r| == n
  {
    seq(n, c => FirstOwner(assessments, clients, c))
  }

  lemma {:induction false} FirstOwnerAt(assessments: seq<Assessment>, d: Dict<int, seq<int>>, c: int, k: int, from: int)
    requires 0 <= from <= k < |assessments|
    requires forall j :: 0 <= j < |assessments| ==> (c in GetList(d, assessments[j].id) <==> j == k)
    ensures FirstOwner(assessments[from..], d, c) == Some(assessments[k])
    decreases k - from
  {
    var rest := assessments[from..];
    assert rest[0] == assessments[from];
    if from < k {
      assert rest[1..] == assessments[from + 1..];
      FirstOwnerAt(assessments, d, c, k, from + 1);
    }
  }

  /** After `__initialize_variables` on a fresh solver, with distinct ids and no negative
      quantity, every client of assessment `k`'s range is found to belong to assessment `k`. */
  lemma OwnerOfClient(xs: seq<Assessment>, k: int, c: int)
    requires LS.IdsDistinct(xs) && LS.QuantitiesNonNegative(xs) && LS.InitUpTo([], [], xs, |xs|).Ok?
    requires 0 <= k < |xs| && LS.Offset(xs[..k]) <= c < LS.Offset(xs[..k + 1])
    ensures FirstOwner(xs, LS.InitUpTo([], [], xs, |xs|).value.clients, c) == Some(xs[k])
  {
    var d := LS.InitUpTo([], [], xs, |xs|).value.clients;
    forall j | 0 <= j < |xs|
      ensures c in GetList(d, xs[j].id) <==> j == k
    {
      LS.InitClientsOf([], [], xs, |xs|, j);
      RangeMembers(LS.Offset(xs[..j]), LS.Offset(xs[..j + 1]), c);
      if j < k { LS.OffsetMonotone(xs, j + 1, k); }
      if j > k { LS.OffsetMonotone(xs, k + 1, j); }
    }
    FirstOwnerAt(xs, d, c, k, 0);
    assert xs[0..] == xs;
  }

  // `__define_objective`.

  function Quantities(xs: seq<Assessment>): (r: seq<int>)
    ensures |r| == |xs| && forall j :: 0 <= j < |r| ==> r[j] == xs[j].quantity
  {
    seq(|xs|, j requires 0 <= j < |xs| => xs[j].quantity)
  }

  /** The count assertion, then a makespan variable equal to the latest last end.  Nothing
      minimises it. */
  function Objective(b: Build, xs: seq<Assessment>, horizon: int): (r: Result<Build>)
    ensures r.Err? <==> |b.lastEnds| != Sum(Quantities(xs)) || None in b.lastEnds
    ensures r.Ok? ==> r.value.cons == b.cons + [MaxEquality(Makespan, GS.Somes(b.lastEnds))]
    ensures r.Ok? ==> r.value.decls == b.decls + [IntVar(Makespan, 0, horizon)]
  {
    if |b.lastEnds| != Sum(Quantities(xs)) then Err(AssertionError("Invalid number of last activities"))
    else if None in b.lastEnds then Err(TypeError)
    else Ok(b.(decls := b.decls + [IntVar(Makespan, 0, horizon)], cons := b.cons + [MaxEquality(Makespan, GS.Somes(b.lastEnds))]))
  }

  lemma {:induction false} SumQuantitiesOffset(xs: seq<Assessment>)
    ensures Sum(Quantities(xs)) == LS.Offset(xs)
  {
    if xs != [] {
      var n := |xs|;
      SumQuantitiesOffset(xs[..n - 1]);
      assert Quantities(xs) == Quantities(xs[..n - 1]) + [xs[n - 1].quantity];
      GS.SumAppend(Quantities(xs[..n - 1]), xs[n - 1].quantity);
    }
  }

  // `generate`, up to the solver call.

  /** `generate` on a solver holding slot lists `s0`, client ids `c0` and model `b`:
      `__initialize_variables`, `__define_variables`, `__apply_gap_constraints`,
      `__apply_general_constraints` and `__define_objective`, in that order. */
  function Generated(s0: seq<seq<seq<Task>>>, c0: Dict<int, seq<int>>, b: Build, xs: seq<Assessment>, p: GS.Params, floors: int): Result<Build> {
    var init :- LS.InitUpTo(s0, c0, xs, |xs|);
    Constrained(init, b, xs, p, floors)
  }

  /** The steps of `generate` after `__initialize_variables` left slot lists and client ids `init`. */
  function Constrained(init: LS.Init, b: Build, xs: seq<Assessment>, p: GS.Params, floors: int): Result<Build> {
    var defined :- DefineVariables(b, init.schedules, p.horizon, floors);
    var gapped := Gaps(defined, init.schedules, p, |init.schedules|);
    var general :- GeneralUpTo(gapped, init.schedules, Owners(xs, init.clients, |init.schedules|), p, |init.schedules|);
    Objective(general, xs, p.horizon)
  }

  lemma PlainGapCons(c: int, i: int, p: GS.Params)
    ensures Extras(GapCons(c, i, p)) == 0
  {
    PlainMeans(GapCons(c, i, p));
  }

  /** One pair adds no circuit and no objective, and records no last end. */
  lemma PlainGap(b: Build, c: int, i: int, p: GS.Params, r: Build)
    requires Gap(b, c, i, p) == r
    ensures Extras(r.cons) == Extras(b.cons) && r.lastEnds == b.lastEnds
  {
    assert r.cons == b.cons + GapCons(c, i, p);
    PlainGapCons(c, i, p);
    ExtrasAppend(b.cons, GapCons(c, i, p));
  }

  lemma {:induction false} PlainClientGaps(b: Build, c: int, k: nat, p: GS.Params, r: Build)
    requires ClientGaps(b, c, k, p) == r
    ensures Extras(r.cons) == Extras(b.cons) && r.lastEnds == b.lastEnds
  {
    if k > 0 {
      var prev := ClientGaps(b, c, k - 1, p);
      PlainClientGaps(b, c, k - 1, p, prev);
      PlainGap(prev, c, k - 1, p, r);
    }
  }

  /** The gap rules add no circuit and no objective, and record no last end. */
  lemma {:induction false} PlainGaps(b: Build, scheds: seq<seq<seq<Task>>>, p: GS.Params, n: nat, r: Build)
    requires n <= |scheds| && Gaps(b, scheds, p, n) == r
    ensures Extras(r.cons) == Extras(b.cons) && r.lastEnds == b.lastEnds
  {
    if n > 0 {
      var prev := Gaps(b, scheds, p, n - 1);
      PlainGaps(b, scheds, p, n - 1, prev);
      PlainClientGaps(prev, n - 1, GS.PairCount(|scheds[n - 1]|), p, r);
    }
  }

  lemma {:induction false} PlainGrid(c: int, k: nat, p: GS.Params)
    ensures Extras(GS.GridCons(c, k, p)) == 0
  {
    if k > 0 {
      var pair := [ModuloEquality(0, Start(c, k - 1), p.interval), ModuloEquality(0, End(c, k - 1), p.interval)];
      PlainGrid(c, k - 1, p);
      PlainMeans(pair);
      ExtrasAppend(GS.GridCons(c, k - 1, p), pair);
    }
  }

  lemma PlainClientCons(b: Build, c: int, n: nat, owner: Assessment, p: GS.Params)
    ensures Extras(b.cons + ExactlyOnes(b.maps.boolVars, c, owner.activities) + [NoOverlap(GetList(b.maps.perClient, c))] + GS.GridCons(c, n, p))
         == Extras(b.cons)
  {
    var ones := ExactlyOnes(b.maps.boolVars, c, owner.activities);
    var apart := [NoOverlap(GetList(b.maps.perClient, c))];
    PlainMeans(ones);
    PlainMeans(apart);
    PlainGrid(c, n, p);
    ExtrasAppend(b.cons, ones);
    ExtrasAppend(b.cons + ones, apart);
    ExtrasAppend(b.cons + ones + apart, GS.GridCons(c, n, p));
  }

  /** The general constraints add no circuit and no objective, and record no last end. */
  lemma {:induction false} PlainGeneral(b: Build, scheds: seq<seq<seq<Task>>>, owners: seq<Option<Assessment>>, p: GS.Params, k: nat, r: Build)
    requires k <= |scheds| == |owners| && GeneralUpTo(b, scheds, owners, p, k) == Ok(r)
    ensures Extras(r.cons) == Extras(b.cons) && r.lastEnds == b.lastEnds
  {
    if k > 0 {
      var prev := GeneralUpTo(b, scheds, owners, p, k - 1).value;
      PlainGeneral(b, scheds, owners, p, k - 1, prev);
      PlainClientCons(prev, k - 1, |scheds[k - 1]|, owners[k - 1].value, p);
    } else {
      PlainMeans([NoOverlap(Values(b.maps.transfers))]);
      ExtrasAppend(b.cons, [NoOverlap(Values(b.maps.transfers))]);
    }
  }

  /** `generate` adds no circuit and nothing to minimise: the precedence constraints are never
      applied and the makespan is left free.  A successful run ends with the makespan's
      definition. */
  lemma GeneratedPlain(s0: seq<seq<seq<Task>>>, c0: Dict<int, seq<int>>, b: Build, xs: seq<Assessment>, p: GS.Params, floors: int)
    requires Generated(s0, c0, b, xs, p, floors).Ok?
    ensures var r := Generated(s0, c0, b, xs, p, floors).value;
      Extras(r.cons) == Extras(b.cons) && r.cons[|r.cons| - 1].MaxEquality? && r.cons[|r.cons| - 1].maxVar == Makespan
  {
    ConstrainedPlain(LS.InitUpTo(s0, c0, xs, |xs|).value, b, xs, p, floors);
  }

  lemma ConstrainedPlain(init: LS.Init, b: Build, xs: seq<Assessment>, p: GS.Params, floors: int)
    requires Constrained(init, b, xs, p, floors).Ok?
    ensures var r := Constrained(init, b, xs, p, floors).value;
      Extras(r.cons) == Extras(b.cons) && r.cons[|r.cons| - 1].MaxEquality? && r.cons[|r.cons| - 1].maxVar == Makespan
  {
    var scheds := init.schedules;
    var d := Clients(Defining(b, None), scheds, |scheds|, p.horizon, floors).value;
    PlainClientsCons(b.cons, None, scheds, |scheds|);
    var defined := d.b;
    var gapped := Gaps(defined, scheds, p, |scheds|);
    PlainGaps(defined, scheds, p, |scheds|, gapped);
    var general := GeneralUpTo(gapped, scheds, Owners(xs, init.clients, |scheds|), p, |scheds|).value;
    PlainGeneral(gapped, scheds, Owners(xs, init.clients, |scheds|), p, |scheds|, general);
    PlainMeans([MaxEquality(Makespan, GS.Somes(general.lastEnds))]);
    ExtrasAppend(general.cons, [MaxEquality(Makespan, GS.Somes(general.lastEnds))]);
  }

  lemma {:induction false} GeneralErrIsAttribute(b: Build, scheds: seq<seq<seq<Task>>>, owners: seq<Option<Assessment>>, p: GS.Params, k: nat)
    requires k <= |scheds| == |owners| && GeneralUpTo(b, scheds, owners, p, k).Err?
    ensures GeneralUpTo(b, scheds, owners, p, k).error == AttributeError
  {
    if GeneralUpTo(b, scheds, owners, p, k - 1).Err? {
      GeneralErrIsAttribute(b, scheds, owners, p, k - 1);
    }
  }

  /** On a fresh solver with no negative quantity, defining the variables records one last end
      per client: as many as the quantities add up to. */
  lemma {:induction false} DefinedCount(xs: seq<Assessment>, horizon: int, floors: int)
    requires LS.QuantitiesNonNegative(xs) && LS.InitUpTo([], [], xs, |xs|).Ok?
    requires DefineVariables(EmptyBuild, LS.InitUpTo([], [], xs, |xs|).value.schedules, horizon, floors).Ok?
    ensures |DefineVariables(EmptyBuild, LS.InitUpTo([], [], xs, |xs|).value.schedules, horizon, floors).value.lastEnds| == Sum(Quantities(xs))
  {
    var scheds := LS.InitUpTo([], [], xs, |xs|).value.schedules;
    LS.InitLength([], [], xs, |xs|);
    assert xs[..|xs|] == xs;
    SumQuantitiesOffset(xs);
  }

  /** Once the variables record as many last ends as the quantities add up to, the remaining
      steps fail only on a client without slots (TypeError) or without an assessment
      (AttributeError). */
  lemma {:induction false} ConstrainedCountHolds(init: LS.Init, b: Build, xs: seq<Assessment>, p: GS.Params, floors: int)
    requires DefineVariables(b, init.schedules, p.horizon, floors).Ok?
    requires |DefineVariables(b, init.schedules, p.horizon, floors).value.lastEnds| == Sum(Quantities(xs))
    ensures var r := Constrained(init, b, xs, p, floors);
      r.Ok? || r.error == TypeError || r.error == AttributeError
  {
    var scheds := init.schedules;
    var defined := DefineVariables(b, scheds, p.horizon, floors).value;
    var gapped := Gaps(defined, scheds, p, |scheds|);
    PlainGaps(defined, scheds, p, |scheds|, gapped);
    var owners := Owners(xs, init.clients, |scheds|);
    if GeneralUpTo(gapped, scheds, owners, p, |scheds|).Ok? {
      PlainGeneral(gapped, scheds, owners, p, |scheds|, GeneralUpTo(gapped, scheds, owners, p, |scheds|).value);
    } else {
      GeneralErrIsAttribute(gapped, scheds, owners, p, |scheds|);
    }
  }

  /** On a fresh solver with no negative quantity, the count assertion holds once the variables
      are defined, so `generate` can fail after that point only on a client without slots
      (TypeError) or without an assessment (AttributeError). */
  lemma {:induction false} GeneratedCountHolds(xs: seq<Assessment>, p: GS.Params, floors: int)
    requires LS.QuantitiesNonNegative(xs) && LS.InitUpTo([], [], xs, |xs|).Ok?
    requires DefineVariables(EmptyBuild, LS.InitUpTo([], [], xs, |xs|).value.schedules, p.horizon, floors).Ok?
    ensures var r := Generated([], [], EmptyBuild, xs, p, floors);
      r.Ok? || r.error == TypeError || r.error == AttributeError
  {
    DefinedCount(xs, p.horizon, floors);
    ConstrainedCountHolds(LS.InitUpTo([], [], xs, |xs|).value, EmptyBuild, xs, p, floors);
  }

  // `__find_last_activity_condition`.

  /** A condition that is the last activity's: IN_FIXED_ORDER_AS with the order of the last slot
      (`True` counts as 1, as Python's `==` has it). */
  predicate IsLast(cond: Condition, n: int) {
    cond.option == OptionMember("IN_FIXED_ORDER_AS") && Get(cond.args, "order").Some? &&
    AsInt(Get(cond.args, "order").value) == Some(n - 1)
  }

  /** A condition the scan passes over: another option, or an order other than the last. */
  predicate Passed(cond: Condition, n: int) {
    cond.option != OptionMember("IN_FIXED_ORDER_AS") ||
    (Get(cond.args, "order").Some? && AsInt(Get(cond.args, "order").value) != Some(n - 1))
  }

  /** The scan from condition `k` on for an assessment with `n` activities; reading the order of
      an IN_FIXED_ORDER_AS condition without one raises KeyError. */
  function FindFrom(conds: seq<Condition>, n: int, k: nat): Result<Option<Condition>>
    decreases |conds| - k
  {
    if k >= |conds| then Ok(None)
    else if conds[k].option != OptionMember("IN_FIXED_ORDER_AS") then FindFrom(conds, n, k + 1)
    else match Get(conds[k].args, "order")
      case None => Err(KeyError)
      case Some(v) => if AsInt(v) == Some(n - 1) then Ok(Some(conds[k])) else FindFrom(conds, n, k + 1)
  }

  /** `__find_last_activity_condition(conditions, assessment)`. */
  function LastActivityCondition(conds: seq<Condition>, a: Assessment): Result<Option<Condition>> {
    FindFrom(conds, |a.activities|, 0)
  }

  /** The scan stops at the `j`-th condition, after passing over all earlier ones: it returns it
      when it is the last activity's, it raises KeyError when it lacks an order, and it returns
      None when every condition was passed over. */
  lemma {:induction false} FindFromSpec(conds: seq<Condition>, n: int, k: nat) returns (j: int)
    requires k <= |conds|
    ensures k <= j <= |conds| && forall i :: k <= i < j ==> Passed(conds[i], n)
    ensures j == |conds| <==> FindFrom(conds, n, k) == Ok(None)
    ensures j < |conds| ==>
      (IsLast(conds[j], n) && FindFrom(conds, n, k) == Ok(Some(conds[j]))) ||
      (conds[j].option == OptionMember("IN_FIXED_ORDER_AS") && Get(conds[j].args, "order").None? &&
       FindFrom(conds, n, k) == Err(KeyError))
    decreases |conds| - k
  {
    if k == |conds| { return k; }
    if conds[k].option != OptionMember("IN_FIXED_ORDER_AS") ||
       (Get(conds[k].args, "order").Some? && AsInt(Get(conds[k].args, "order").value) != Some(n - 1)) {
      j := FindFromSpec(conds, n, k + 1);
    } else {
      j := k;
    }
  }

  /** The result is the first condition of the last activity, and None only when there is none
      and no IN_FIXED_ORDER_AS condition lacks an order. */
  lemma LastActivityConditionSpec(conds: seq<Condition>, a: Assessment)
    ensures var r := LastActivityCondition(conds, a);
      (r == Ok(None) <==> forall i :: 0 <= i < |conds| ==> Passed(conds[i], |a.activities|)) &&
      (r.Ok? && r.value.Some? ==> exists j :: 0 <= j < |conds| && conds[j] == r.value.value && IsLast(conds[j], |a.activities|) &&
                                   forall i :: 0 <= i < j ==> Passed(conds[i], |a.activities|)) &&
      (r.Err? ==> r.error == KeyError)
  {
    var n := |a.activities|;
    var j := FindFromSpec(conds, n, 0);
    if j < |conds| {
      assert !Passed(conds[j], n);
    }
  }

  // `__validate_assessment`.

  /** An assessment is valid when its id, name, activities and quantity are all truthy. */
  predicate ValidAssessment(a: Assessment) {
    a.id != 0 && a.name != [] && a.activities != [] && a.quantity != 0
  }

  /** Every client of a valid assessment without order conditions gets one slot per activity,
      each holding every room option, so a last end is recorded for it. */
  lemma ValidGivesLastEnd(a: Assessment, c: int)
    requires ValidAssessment(a) && LS.NoOrderConditions(a.activities)
    ensures LS.ScheduleOf(a).Ok? && |LS.ScheduleOf(a).value| == |a.activities|
    ensures VS.LastEnd(c, LS.ScheduleOf(a).value) == Some(End(c, |a.activities| - 1))
  {
    LS.NoOrderSharesPool(a);
  }

  /** Validation lets a negative quantity through; such an assessment gives no client, yet its
      quantity still counts against the recorded last ends. */
  lemma NegativeQuantityPasses(act: Activity, p: GS.Params, floors: int)
    requires act.conditions == []
    ensures var a := Assessment(1, "A", [act], -1);
      ValidAssessment(a) && Generated([], [], EmptyBuild, [a], p, floors) == Err(AssertionError("Invalid number of last activities"))
  {
    var a := Assessment(1, "A", [act], -1);
    assert LS.NoOrderConditions([act]);
    LS.NoOrderSharesPool(a);
    assert [a][..0] == [];
    assert LS.InitUpTo([], [], [a], 0) == Ok(LS.Init([], []));
    assert LS.InitUpTo([], [], [a], 1).Ok? && LS.InitUpTo([], [], [a], 1).value.schedules == [];
    var d0 := Defining(EmptyBuild, None);
    assert Clients(d0, [], 0, p.horizon, floors) == Ok(d0);
    assert Sum(Quantities([a])) == -1;
  }
}
