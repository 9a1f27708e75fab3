/** The general constraints and the objective of the current scheduler (`src/utils/solver.py`):
    transfers between consecutive slots, the maximum gap, no-overlap, "each activity exactly
    once", start and end times on the interval grid, and the makespan. */
module GeneralSpec {
  import opened Wrappers
  import opened PyDict
  import opened PyList
  import opened CpModel
  import opened SolverModel
  import opened ScheduleSpec
  import opened VariableSpec

  /** The solver's time parameters, in minutes. */
  datatype Params = Params(horizon: int, interval: int, maxGap: int, transfer: int, simultaneous: bool)

  // The transfer between slot `i` and slot `i + 1` of client `c`.

  function TransferDecls(c: int, i: int, p: Params): seq<Decl> {
    [ IntVar(TrStart(c, i, i + 1), 0, p.horizon),
      IntVar(TrEnd(c, i, i + 1), 0, p.horizon),
      BoolVar(TrLit(c, i, i + 1)),
      IntervalVar(TrInterval(c, i, i + 1), TrStart(c, i, i + 1), K(p.transfer), TrEnd(c, i, i + 1), Some(TrLit(c, i, i + 1))) ]
  }

  /** The transfer literal is set exactly when the two slots' floors differ; a transfer starts
      when the earlier slot ends and the later slot starts when the transfer ends. */
  function TransferCons(c: int, i: int, p: Params): seq<Constraint> {
    var lit := TrLit(c, i, i + 1);
    [ ModuloEquality(0, TrStart(c, i, i + 1), p.interval),
      ModuloEquality(0, TrEnd(c, i, i + 1), p.interval),
      RuleIf(V(Floor(c, i)), NE, V(Floor(c, i + 1)), Pos(lit)),
      RuleIf(V(Floor(c, i)), EQ, V(Floor(c, i + 1)), Neg(lit)),
      RuleIf(V(TrStart(c, i, i + 1)), EQ, V(End(c, i)), Pos(lit)),
      RuleIf(V(Start(c, i + 1)), EQ, V(TrEnd(c, i, i + 1)), Pos(lit)) ]
  }

  function TransferMaps(m: VarMaps, c: int, i: int): VarMaps {
    m.(perClient := Append(m.perClient, c, TrInterval(c, i, i + 1)),
       transfers := Put(m.transfers, (c, i, i + 1), TrInterval(c, i, i + 1)))
  }

  /** Without a transfer, the later slot starts at most `maxGap` after the earlier one ends. */
  function MaxGapCons(c: int, i: int, p: Params): seq<Constraint> {
    [RuleIf(Diff(Start(c, i + 1), End(c, i)), LE, K(p.maxGap), Neg(TrLit(c, i, i + 1)))]
  }

  /** The number of consecutive pairs among `n` slots. */
  function PairCount(n: int): nat { if n > 1 then n - 1 else 0 }

  function TransfersDecls(c: int, k: nat, p: Params): seq<Decl> {
    if k == 0 then [] else TransfersDecls(c, k - 1, p) + TransferDecls(c, k - 1, p)
  }

  function TransfersCons(c: int, k: nat, p: Params): seq<Constraint> {
    if k == 0 then [] else TransfersCons(c, k - 1, p) + TransferCons(c, k - 1, p)
  }

  function TransfersMaps(m: VarMaps, c: int, k: nat): VarMaps {
    if k == 0 then m else TransferMaps(TransfersMaps(m, c, k - 1), c, k - 1)
  }

  function MaxGapsCons(c: int, k: nat, p: Params): seq<Constraint> {
    if k == 0 then [] else MaxGapsCons(c, k - 1, p) + MaxGapCons(c, k - 1, p)
  }

  /** Starts and ends of slots `0 .. k - 1` are multiples of the interval. */
  function GridCons(c: int, k: nat, p: Params): seq<Constraint> {
    if k == 0 then []
    else GridCons(c, k - 1, p) + [ModuloEquality(0, Start(c, k - 1), p.interval), ModuloEquality(0, End(c, k - 1), p.interval)]
  }

  /** The pairs `(i, i + 1)` with `i` below `j` among `n` slots. */
  function PairsBelow(j: int, n: int): nat {
    if j < PairCount(n) then (if j > 0 then j else 0) else PairCount(n)
  }

  /** `AddExactlyOne(__activity_bool_vars[(client_id, activity.id)])` for each activity. */
  function ExactlyOnes(boolVars: Dict<(int, int), seq<Var>>, c: int, acts: seq<Activity>): (r: seq<Constraint>)
    ensures |r| == |acts| && forall j :: 0 <= j < |acts| ==> r[j] == ExactlyOne(GetList(boolVars, (c, acts[j].id)))
  {
    seq(|acts|, j requires 0 <= j < |acts| => ExactlyOne(GetList(boolVars, (c, acts[j].id))))
  }

  /** The per-client part of `__apply_general_constraints` for client `c` with `n` slots, whose
      assessment is `owner` (an AttributeError when the client has none). */
  function ClientGeneral(b: Build, c: int, n: int, owner: Option<Assessment>, p: Params): Result<Build> {
    var k := PairCount(n);
    var maps := TransfersMaps(b.maps, c, k);
    var cons := b.cons + TransfersCons(c, k, p) + MaxGapsCons(c, k, p) + [NoOverlap(GetList(maps.perClient, c))];
    if owner.None? then Err(AttributeError)
    else
      Ok(b.(decls := b.decls + TransfersDecls(c, k, p),
            cons := cons + ExactlyOnes(maps.boolVars, c, owner.value.activities) + GridCons(c, if n > 0 then n else 0, p),
            maps := maps))
  }

  lemma ExactlyOnesStep(boolVars: Dict<(int, int), seq<Var>>, c: int, acts: seq<Activity>, j: nat)
    requires j < |acts|
    ensures ExactlyOnes(boolVars, c, acts[..j + 1]) == ExactlyOnes(boolVars, c, acts[..j]) + [ExactlyOne(GetList(boolVars, (c, acts[j].id)))]
  {
    var l, r := ExactlyOnes(boolVars, c, acts[..j + 1]), ExactlyOnes(boolVars, c, acts[..j]) + [ExactlyOne(GetList(boolVars, (c, acts[j].id)))];
    assert |l| == |r|;
    forall i | 0 <= i < |l| ensures l[i] == r[i] {
      if i < j { assert acts[..j + 1][i] == acts[..j][i]; }
    }
  }

  /** The intervals of every `(client, 201)` entry of `__activity_time_interval_vars`, in dict order. */
  function IntervalsOf(d: Dict<(int, int), seq<Var>>, aid: int): seq<Var> {
    if d == [] then [] else (if d[0].0.1 == aid then d[0].1 else []) + IntervalsOf(d[1..], aid)
  }

  /** What `__apply_general_constraints` emits before its loop over clients.  The transfer
      intervals are added to the model later in the same call, so the transfer no-overlap reads
      the dict as it is now. */
  function GeneralHead(b: Build, p: Params): Build {
    var transfers := if p.simultaneous then [] else [NoOverlap(Values(b.maps.transfers))];
    b.(cons := b.cons + transfers + [NoOverlap(IntervalsOf(b.maps.intervals, 201))] + transfers)
  }

  // Defining the variables files no transfer interval: only the transfer constraints of the
  // client loop do, after the shared no-overlaps.

  lemma {:induction false} OptsMapsTransfers(m: VarMaps, c: int, i: int, opts: seq<Task>, k: nat)
    requires k <= |opts|
    ensures OptsMaps(m, c, i, opts, k).transfers == m.transfers
  {
    if k > 0 {
      OptsMapsTransfers(m, c, i, opts, k - 1);
    }
  }

  lemma {:induction false} SchedMapsTransfers(m: VarMaps, c: int, sched: seq<seq<Task>>, n: nat)
    requires n <= |sched| && FilledUpTo(sched, n)
    ensures SchedMaps(m, c, sched, n).transfers == m.transfers
  {
    if n > 0 {
      SchedMapsTransfers(m, c, sched, n - 1);
      SlotMapsTransfers(SchedMaps(m, c, sched, n - 1), c, n - 1, sched[n - 1]);
    }
  }

  lemma SlotMapsTransfers(m: VarMaps, c: int, i: int, opts: seq<Task>)
    requires opts != []
    ensures SlotMaps(m, c, i, opts).transfers == m.transfers
  {
    if |opts| > 1 {
      OptsMapsTransfers(m, c, i, opts, |opts|);
    }
  }

  lemma {:induction false} ClientsMapsTransfers(m: VarMaps, scheds: seq<seq<seq<Task>>>, n: nat)
    requires n <= |scheds| && AllFilledUpTo(scheds, n)
    ensures ClientsMaps(m, scheds, n).transfers == m.transfers
  {
    if n > 0 {
      ClientsMapsTransfers(m, scheds, n - 1);
      SchedMapsTransfers(ClientsMaps(m, scheds, n - 1), n - 1, scheds[n - 1], |scheds[n - 1]|);
    }
  }

  /** In `generate`, `__apply_general_constraints` runs right after `__define_variables`, when
      `__transfer_time_interval_vars` is still empty: its transfer no-overlaps are over no
      interval, and only the activity-201 one constrains anything. */
  lemma GeneralHeadNoTransfers(scheds: seq<seq<seq<Task>>>, horizon: int, floors: int, p: Params)
    requires DefineVariables(EmptyBuild, scheds, horizon, floors).Ok?
    ensures var b := DefineVariables(EmptyBuild, scheds, horizon, floors).value;
      var only := [NoOverlap(IntervalsOf(b.maps.intervals, 201))];
      && b.maps.transfers == []
      && GeneralHead(b, p).cons == b.cons + (if p.simultaneous then only else [NoOverlap([])] + only + [NoOverlap([])])
  {
    ClientsMapsTransfers(NoMaps, scheds, |scheds|);
  }

  /** `__apply_general_constraints` up to client `k`; `owners[c]` is client `c`'s assessment. */
  function GeneralUpTo(b: Build, shape: seq<int>, owners: seq<Option<Assessment>>, p: Params, k: nat): Result<Build>
    requires k <= |shape| == |owners|
  {
    if k == 0 then Ok(GeneralHead(b, p))
    else
      var prev :- GeneralUpTo(b, shape, owners, p, k - 1);
      ClientGeneral(prev, k - 1, shape[k - 1], owners[k - 1], p)
  }

  /** Client `k` after clients `0 .. k - 1`. */
  lemma GeneralStep(b: Build, shape: seq<int>, owners: seq<Option<Assessment>>, p: Params, k: nat)
    requires k < |shape| == |owners| && GeneralUpTo(b, shape, owners, p, k).Ok?
    ensures GeneralUpTo(b, shape, owners, p, k + 1) == ClientGeneral(GeneralUpTo(b, shape, owners, p, k).value, k, shape[k], owners[k], p)
  {
  }

  /** The first client that fails decides the outcome. */
  lemma {:induction false} GeneralErrPersists(b: Build, shape: seq<int>, owners: seq<Option<Assessment>>, p: Params, k: nat, n: nat)
    requires k <= n <= |shape| == |owners| && GeneralUpTo(b, shape, owners, p, k).Err?
    ensures GeneralUpTo(b, shape, owners, p, n) == GeneralUpTo(b, shape, owners, p, k)
    decreases n - k
  {
    if k < n {
      GeneralErrPersists(b, shape, owners, p, k + 1, n);
    }
  }

  /** One pass of the client loop, given what it did to the model built so far: a failure is
      the outcome of the whole loop, a success the model after client `k`. */
  lemma GeneralAdvance(b: Build, shape: seq<int>, owners: seq<Option<Assessment>>, p: Params, k: nat,
                       before: Build, failure: Option<Error>, after: Build)
    requires k < |shape| == |owners| && GeneralUpTo(b, shape, owners, p, k).Ok? && before == GeneralUpTo(b, shape, owners, p, k).value
    requires var r := ClientGeneral(before, k, shape[k], owners[k], p);
      (failure.None? <==> r.Ok?) && (failure.Some? ==> failure.value == r.error) && (failure.None? ==> after == r.value)
    ensures failure.Some? ==> GeneralUpTo(b, shape, owners, p, |shape|) == Err(failure.value)
    ensures failure.None? ==> GeneralUpTo(b, shape, owners, p, k + 1) == Ok(after)
  {
    GeneralStep(b, shape, owners, p, k);
    if failure.Some? {
      GeneralErrPersists(b, shape, owners, p, k + 1, |shape|);
    }
  }

  // Objective.

  /** `__define_objective`: the number of recorded last ends must equal the total quantity; a
      client without slots has no last end, which AddMaxEquality refuses. */
  function Objective(b: Build, assessments: seq<Assessment>, horizon: int): (r: Result<Build>)
    ensures r.Err? <==> |b.lastEnds| != Sum(Quantities(assessments)) || None in b.lastEnds
    ensures r.Ok? ==> r.value.cons == b.cons + [MaxEquality(Makespan, Somes(b.lastEnds)), Minimize(V(Makespan))]
    ensures r.Ok? ==> r.value.decls == b.decls + [IntVar(Makespan, 0, horizon)]
  {
    if |b.lastEnds| != Sum(Quantities(assessments)) then Err(AssertionError("Invalid number of last activities"))
    else if None in b.lastEnds then Err(TypeError)
    else Ok(b.(decls := b.decls + [IntVar(Makespan, 0, horizon)],
               cons := b.cons + [MaxEquality(Makespan, Somes(b.lastEnds)), Minimize(V(Makespan))]))
  }

  function Quantities(assessments: seq<Assessment>): (r: seq<int>)
    ensures |r| == |assessments| && forall j :: 0 <= j < |r| ==> r[j] == assessments[j].quantity
  {
    seq(|assessments|, j requires 0 <= j < |assessments| => assessments[j].quantity)
  }

  /** The values of a list holding no `None`. */
  function Somes(xs: seq<Option<Var>>): (r: seq<Var>)
    requires None !in xs
    ensures |r| == |xs| && forall j :: 0 <= j < |xs| ==> xs[j] == Some(r[j])
  {
    if xs == [] then [] else [xs[0].value] + Somes(xs[1..])
  }

  // What the transfer rule means.

  /** In a solution of the transfer and gap constraints between slots `i` and `i + 1`, the
      transfer literal is 1 exactly when the floors differ; with a transfer the transfer starts at
      the earlier end and the later slot starts at the transfer end, without one the later slot
      starts at most `maxGap` after the earlier one ends. */
  lemma TransferMeaning(c: int, i: int, p: Params, a: Assignment)
    requires forall d :: d in TransferDecls(c, i, p) ==> DeclHolds(d, a)
    requires forall x :: x in TransferCons(c, i, p) + MaxGapCons(c, i, p) ==> Holds(x, a)
    ensures a(TrLit(c, i, i + 1)) == 1 <==> a(Floor(c, i)) != a(Floor(c, i + 1))
    ensures a(TrLit(c, i, i + 1)) == 1 ==>
      a(TrStart(c, i, i + 1)) == a(End(c, i)) && a(Start(c, i + 1)) == a(TrEnd(c, i, i + 1))
    ensures a(TrLit(c, i, i + 1)) == 0 ==> a(Start(c, i + 1)) - a(End(c, i)) <= p.maxGap
  {
    var lit := TrLit(c, i, i + 1);
    assert DeclHolds(BoolVar(lit), a);
    var cs := TransferCons(c, i, p) + MaxGapCons(c, i, p);
    assert Holds(cs[2], a) && Holds(cs[3], a) && Holds(cs[4], a) && Holds(cs[5], a) && Holds(cs[6], a);
    EvalVar(Floor(c, i), a); EvalVar(Floor(c, i + 1), a);
    EvalVar(TrStart(c, i, i + 1), a); EvalVar(End(c, i), a);
    EvalVar(Start(c, i + 1), a); EvalVar(TrEnd(c, i, i + 1), a);
    EvalDiff(Start(c, i + 1), End(c, i), a);
    if a(lit) == 1 {
      assert forall l :: l in [Pos(lit)] ==> LitHolds(l, a);
    } else {
      assert forall l :: l in [Neg(lit)] ==> LitHolds(l, a);
    }
  }

  // The objective's count.

  lemma {:induction false} SumQuantitiesOffset(assessments: seq<Assessment>)
    ensures Sum(Quantities(assessments)) == Offset(assessments)
  {
    if assessments != [] {
      var n := |assessments|;
      SumQuantitiesOffset(assessments[..n - 1]);
      assert Quantities(assessments) == Quantities(assessments[..n - 1]) + [assessments[n - 1].quantity];
      SumAppend(Quantities(assessments[..n - 1]), assessments[n - 1].quantity);
    }
  }

  lemma {:induction false} SumAppend(xs: seq<int>, x: int)
    ensures Sum(xs + [x]) == Sum(xs) + x
  {
    if xs != [] {
      SumAppend(xs[1..], x);
      assert (xs + [x])[1..] == xs[1..] + [x];
    }
  }

  lemma {:induction false} TransfersMapsKeep(m: VarMaps, c: int, k: nat)
    ensures TransfersMaps(m, c, k).boolVars == m.boolVars
  {
    if k > 0 { TransfersMapsKeep(m, c, k - 1); }
  }

  /** The general constraints leave the recorded last ends alone. */
  lemma {:induction false} GeneralKeepsLastEnds(b: Build, shape: seq<int>, owners: seq<Option<Assessment>>, p: Params, k: nat)
    requires k <= |shape| == |owners| && GeneralUpTo(b, shape, owners, p, k).Ok?
    ensures GeneralUpTo(b, shape, owners, p, k).value.lastEnds == b.lastEnds
  {
    if k > 0 {
      GeneralKeepsLastEnds(b, shape, owners, p, k - 1);
    }
  }

  /** With no negative quantity, defining the variables of a fresh model records one last end
      per client, so the objective's count assertion holds. */
  lemma ObjectiveCountHolds(assessments: seq<Assessment>, horizon: int, floors: int)
    requires QuantitiesNonNegative(assessments)
    requires DefineVariables(EmptyBuild, Schedules(assessments), horizon, floors).Ok?
    ensures |DefineVariables(EmptyBuild, Schedules(assessments), horizon, floors).value.lastEnds|
      == Sum(Quantities(assessments))
  {
    SchedulesLength(assessments);
    SumQuantitiesOffset(assessments);
  }

  /** A negative quantity contributes no client but still counts in the sum: the count
      assertion fails. */
  lemma NegativeQuantityFailsObjective(horizon: int, floors: int)
    ensures var assessments := [Assessment(1, "A", [], -1)];
      var b := DefineVariables(EmptyBuild, Schedules(assessments), horizon, floors);
      b.Ok? && Objective(b.value, assessments, horizon).Err? &&
      Objective(b.value, assessments, horizon).error.AssertionError?
  {
    var assessments := [Assessment(1, "A", [], -1)];
    assert assessments[..0] == [];
    assert Schedules(assessments) == [];
    assert Sum(Quantities(assessments)) == -1;
  }

  /** An assessment without activities gives its clients no slot and so no last end: the
      objective fails with a TypeError. */
  lemma EmptyAssessmentFailsObjective(horizon: int, floors: int)
    ensures var assessments := [Assessment(1, "A", [], 1)];
      var b := DefineVariables(EmptyBuild, Schedules(assessments), horizon, floors);
      b.Ok? && Objective(b.value, assessments, horizon) == Err(TypeError)
  {
    var assessments := [Assessment(1, "A", [], 1)];
    assert assessments[..0] == [];
    assert Schedules(assessments) == [[]];
    ObjectiveCountHolds(assessments, horizon, floors);
  }
}
