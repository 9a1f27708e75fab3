/** The earlier scheduler, `Solver` in the top-level `solver.py`: it pins order-constrained
    activities into fixed slots, declares the CP-SAT variables of every slot, adds the transfer
    and gap rule, the general constraints and the makespan.  Each phase is a method proved
    against the specification functions of LegacySchedule, LegacyVariables and LegacyRules. */
module LegacyScheduler {
  import opened Wrappers
  import opened PyDict
  import opened PyList
  import opened CpModel
  import opened Models
  import Kwargs
  import opened LegacySchedule
  import opened LegacyVariables
  import opened LegacyRules
  import SS = ScheduleSpec
  import VS = VariableSpec
  import GS = GeneralSpec
  import RB = LegacyReadBack

  class Solver {
    // Settings, fixed by the constructor; times are in seconds, spans in minutes.
    const timeStart: int
    const timeEnd: int
    const interval: int
    const maxGap: int
    const transfer: int
    const numFloors: int
    const simultaneous: bool
    const horizon: int

    var assessments: Option<seq<Assessment>>
    var schedules: seq<seq<seq<Task>>>
    var clientsPerAssessment: Dict<int, seq<int>>
    /** The CP-SAT model and the variable indexes built so far. */
    var model: Build

    /** The timedelta arguments are given in whole seconds; every span is kept in whole
        minutes. */
    constructor(timeStart: int, timeEnd: int, maxInterval: int, maxGap: int, transfer: int,
                numFloors: int, simultaneous: bool)
      ensures this.timeStart == timeStart && this.timeEnd == timeEnd
      ensures interval == SS.Minutes(maxInterval) && this.maxGap == SS.Minutes(maxGap) && this.transfer == SS.Minutes(transfer)
      ensures this.numFloors == numFloors && this.simultaneous == simultaneous
      ensures horizon == SS.Minutes(timeEnd - timeStart)
      ensures assessments == None && schedules == [] && clientsPerAssessment == [] && model == EmptyBuild
    {
      this.timeStart := timeStart;
      this.timeEnd := timeEnd;
      interval := SS.Minutes(maxInterval);
      this.maxGap := SS.Minutes(maxGap);
      this.transfer := SS.Minutes(transfer);
      this.numFloors := numFloors;
      this.simultaneous := simultaneous;
      horizon := SS.Minutes(timeEnd - timeStart);
      assessments := None;
      schedules := [];
      clientsPerAssessment := [];
      model := EmptyBuild;
    }

    /** The settings the transfer, gap and grid constraints use. */
    function Settings(): GS.Params
      reads this
    {
      GS.Params(horizon, interval, maxGap, transfer, simultaneous)
    }

    /** The setter of `assessments` keeps the list as given. */
    method SetAssessments(xs: seq<Assessment>)
      modifies this`assessments
      ensures assessments == Some(xs)
    {
      assessments := Some(xs);
    }

    /** `__get_assessment_by_client_id`: the first assessment whose client ids include `c`. */
    method GetAssessmentByClientId(c: int) returns (r: Option<Assessment>)
      requires assessments.Some?
      ensures r == FirstOwner(assessments.value, clientsPerAssessment, c)
    {
      var xs := assessments.value;
      var j := 0;
      while j < |xs|
        invariant 0 <= j <= |xs|
        invariant FirstOwner(xs[j..], clientsPerAssessment, c) == FirstOwner(xs, clientsPerAssessment, c)
      {
        if c in GetList(clientsPerAssessment, xs[j].id) {
          return Some(xs[j]);
        }
        assert xs[j..][1..] == xs[j + 1..];
        j := j + 1;
      }
      return None;
    }

    /** `__find_last_activity_condition`: the conditions in order, the first IN_FIXED_ORDER_AS
        one whose order is the last activity's. */
    static method FindLastActivityCondition(conds: seq<Condition>, a: Assessment) returns (r: Result<Option<Condition>>)
      ensures r == LastActivityCondition(conds, a)
    {
      var n := |a.activities|;
      for k := 0 to |conds|
        invariant FindFrom(conds, n, k) == FindFrom(conds, n, 0)
      {
        var cond := conds[k];
        if cond.option == OptionMember("IN_FIXED_ORDER_AS") {
          var order := Get(cond.args, "order");
          if order.None? {
            return Err(KeyError);
          }
          if Kwargs.AsInt(order.value) == Some(n - 1) {
            return Ok(Some(cond));
          }
        }
      }
      return Ok(None);
    }

    /** `__validate_assessment`: false as soon as one of id, name, activities and quantity is
        falsy. */
    static method ValidateAssessment(a: Assessment) returns (ok: bool)
      ensures ok == ValidAssessment(a)
    {
      if a.id == 0 {
        return false;
      }
      if a.name == [] {
        return false;
      }
      if a.activities == [] {
        return false;
      }
      if a.quantity == 0 {
        return false;
      }
      return true;
    }

    // __initialize_variables

    /** The loop over an ORDER condition's rooms: each option is appended to slot `s` and
        removed from the pool. */
    static method PinOptions(p: Pinning, act: Activity, s: int) returns (r: Result<Pinning>)
      ensures r == PinRooms(p, act, s, |act.rooms|)
    {
      var slots, pool := p.slots, p.pool;
      for k := 0 to |act.rooms|
        invariant PinRooms(p, act, s, k) == Ok(Pinning(slots, pool))
      {
        var t := TaskOf(act, act.rooms[k]);
        var at := Index(|slots|, s);
        if at.Err? {
          PinRoomsStops(p, act, s, k + 1, |act.rooms|);
          return Err(at.error);
        }
        slots := slots[at.value := slots[at.value] + [t]];
        var rest := Remove(pool, t);
        if rest.Err? {
          PinRoomsStops(p, act, s, k + 1, |act.rooms|);
          return Err(rest.error);
        }
        pool := rest.value;
      }
      return Ok(Pinning(slots, pool));
    }

    /** The loop over an activity's conditions: an ORDER condition pins all of its options. */
    static method PinActivity(p: Pinning, act: Activity) returns (r: Result<Pinning>)
      ensures r == PinConds(p, act, |act.conditions|)
    {
      var q := p;
      for j := 0 to |act.conditions|
        invariant PinConds(p, act, j) == Ok(q)
      {
        var cond := act.conditions[j];
        if IsOrderCondition(cond) {
          var s := PinnedSlot(cond);
          if s.Err? {
            PinCondsStops(p, act, j + 1, |act.conditions|);
            return Err(s.error);
          }
          var next := PinOptions(q, act, s.value);
          if next.Err? {
            PinCondsStops(p, act, j + 1, |act.conditions|);
            return next;
          }
          q := next.value;
        }
      }
      return Ok(q);
    }

    /** One assessment's empty slots and shared pool, then every activity's pinning. */
    static method PinAssessment(a: Assessment) returns (r: Result<Pinning>)
      ensures r == Pinned(a)
    {
      var acts := a.activities;
      var p0 := Pinning(Repeat([], |acts|), Pool(acts));
      var q := p0;
      for j := 0 to |acts|
        invariant PinActs(p0, acts, j) == Ok(q)
      {
        var next := PinActivity(q, acts[j]);
        if next.Err? {
          PinActsStops(p0, acts, j + 1, |acts|);
          return next;
        }
        q := next.value;
      }
      return Ok(q);
    }

    /** `__initialize_variables`: every assessment's slot list, `quantity` times, and the next
        `quantity` client ids; an invalid order stops the loop. */
    method InitializeVariables() returns (failure: Option<Error>)
      requires assessments.Some?
      modifies this`schedules, this`clientsPerAssessment
      ensures var spec := InitUpTo(old(schedules), old(clientsPerAssessment), assessments.value, |assessments.value|);
        (failure.None? <==> spec.Ok?) && (failure.Some? ==> failure.value == spec.error) &&
        (failure.None? ==> schedules == spec.value.schedules && clientsPerAssessment == spec.value.clients)
    {
      var xs := assessments.value;
      ghost var s0, c0 := schedules, clientsPerAssessment;
      var previous := 0;
      for k := 0 to |xs|
        invariant previous == Offset(xs[..k])
        invariant InitUpTo(s0, c0, xs, k) == Ok(Init(schedules, clientsPerAssessment))
      {
        var a := xs[k];
        var pinned := PinAssessment(a);
        if pinned.Err? {
          InitErrPersists(s0, c0, xs, k + 1, |xs|);
          return Some(pinned.error);
        }
        var sched := Fill(pinned.value.slots, pinned.value.pool);
        InitSnoc(s0, c0, xs, k, Init(schedules, clientsPerAssessment), sched);
        schedules := schedules + Repeat(sched, a.quantity);
        clientsPerAssessment := Extend(clientsPerAssessment, a.id, Range(previous, previous + a.quantity));
        assert xs[..k + 1][..k] == xs[..k];
        previous := previous + a.quantity;
      }
      return None;
    }

    // __define_variables

    /** The smallest and the largest duration among a slot's options; the scan over the options
        after the first leaves `activity` bound to the last of them. */
    static method DurationBounds(opts: seq<Task>, activity: Option<Task>) returns (lo: int, hi: int, last: Option<Task>)
      requires opts != []
      ensures lo == VS.MinDuration(opts) && hi == VS.MaxDuration(opts)
      ensures last == if |opts| > 1 then Some(opts[|opts| - 1]) else activity
    {
      lo, hi, last := opts[0].duration, opts[0].duration, activity;
      for k := 1 to |opts|
        invariant forall t :: t in opts[..k] ==> lo <= t.duration <= hi
        invariant exists t :: t in opts[..k] && t.duration == lo
        invariant exists t :: t in opts[..k] && t.duration == hi
        invariant last == if k > 1 then Some(opts[k - 1]) else activity
      {
        assert opts[..k + 1] == opts[..k] + [opts[k]];
        last := Some(opts[k]);
        if opts[k].duration < lo { lo := opts[k].duration; }
        if opts[k].duration > hi { hi := opts[k].duration; }
      }
      assert opts[..|opts|] == opts;
      VS.MinMaxDuration(opts);
    }

    /** One option `t` (number `k`) of a multi-option slot: its optional interval, literal and
        floor, the five constraints it enforces when chosen, and its index entries. */
    method DefineOption(c: int, i: int, k: int, t: Task)
      modifies this`model
      ensures model == Build(old(model).decls + VS.OptionDecls(c, i, k, t, horizon, numFloors),
                             old(model).cons + VS.OptionCons(c, i, k, t),
                             OptionMaps(old(model).maps, c, i, k, t), old(model).lastEnds)
    {
      var start, end, lit := OptStart(c, i, k), OptEnd(c, i, k), OptLit(c, i, k);
      var decls := [ IntVar(start, 0, horizon), IntVar(end, 0, horizon), BoolVar(lit),
                     IntervalVar(OptInterval(c, i, k), start, K(t.duration), end, Some(lit)),
                     IntVar(OptFloor(c, i, k), 0, numFloors) ];
      model := model.(decls := model.decls + decls, cons := model.cons + VS.OptionCons(c, i, k, t), maps := OptionMaps(model.maps, c, i, k, t));
    }

    /** The options of a multi-option slot, then "exactly one of their literals"; the loop
        leaves `activity` bound to the last option. */
    method DefineOptions(c: int, i: int, opts: seq<Task>) returns (last: Option<Task>)
      requires |opts| > 1
      modifies this`model
      ensures model.decls == old(model).decls + VS.OptsDecls(c, i, opts, |opts|, horizon, numFloors)
      ensures model.cons == old(model).cons + (VS.OptsCons(c, i, opts, |opts|) + [ExactlyOne(Lits(c, i, |opts|))])
      ensures model.maps == OptsMaps(old(model).maps, c, i, opts, |opts|) && model.lastEnds == old(model).lastEnds
      ensures last == Some(opts[|opts| - 1])
    {
      ghost var m0 := model;
      var lits := [];
      last := None;
      for k := 0 to |opts|
        invariant lits == Lits(c, i, k)
        invariant model.decls == m0.decls + VS.OptsDecls(c, i, opts, k, horizon, numFloors)
        invariant model.cons == m0.cons + VS.OptsCons(c, i, opts, k)
        invariant model.maps == OptsMaps(m0.maps, c, i, opts, k) && model.lastEnds == m0.lastEnds
        invariant k > 0 ==> last == Some(opts[k - 1])
      {
        AppendAssoc(m0.decls, VS.OptsDecls(c, i, opts, k, horizon, numFloors), VS.OptionDecls(c, i, k, opts[k], horizon, numFloors));
        AppendAssoc(m0.cons, VS.OptsCons(c, i, opts, k), VS.OptionCons(c, i, k, opts[k]));
        LitsStep(c, i, k);
        last := Some(opts[k]);
        DefineOption(c, i, k, opts[k]);
        lits := lits + [OptLit(c, i, k)];
      }
      model := model.(cons := model.cons + [ExactlyOne(lits)]);
    }

    /** Slot `i` of client `c`: its five variables, "no earlier than the previous slot's end",
        then either one optional interval per option with exactly one chosen, or the floor of
        `activity`, whichever option that still names. */
    method DefineSlot(c: int, i: int, opts: seq<Task>, previousEnd: Option<Var>, activity: Option<Task>)
      returns (failure: Option<Error>, last: Option<Task>)
      requires previousEnd == if i > 0 then Some(End(c, i - 1)) else None
      modifies this`model
      ensures var spec := Slot(Defining(old(model), activity), c, i, opts, horizon, numFloors);
        (failure.None? <==> spec.Ok?) && (failure.Some? ==> failure.value == spec.error) &&
        (failure.None? ==> model == spec.value.b && last == spec.value.activity)
    {
      ghost var m0 := model;
      if opts == [] {
        return Some(IndexError), activity;
      }
      var lo, hi;
      lo, hi, last := DurationBounds(opts, activity);
      var decls := [ IntVar(Start(c, i), 0, horizon), IntVar(Duration(c, i), lo, hi), IntVar(End(c, i), 0, horizon),
                     IntervalVar(Interval(c, i), Start(c, i), V(Duration(c, i)), End(c, i), None),
                     IntVar(Floor(c, i), 1, numFloors) ];
      assert decls == VS.SlotDecls(c, i, opts, horizon, numFloors);
      model := model.(decls := model.decls + decls);
      if previousEnd.Some? {
        model := model.(cons := model.cons + [Rule(V(Start(c, i)), GE, V(previousEnd.value))]);
      }
      assert model.cons == m0.cons + VS.AfterPrevious(c, i);
      if |opts| > 1 {
        last := DefineOptions(c, i, opts);
        AppendAssoc(m0.decls, VS.SlotDecls(c, i, opts, horizon, numFloors), VS.OptsDecls(c, i, opts, |opts|, horizon, numFloors));
        AppendAssoc(m0.cons, VS.AfterPrevious(c, i), VS.OptsCons(c, i, opts, |opts|) + [ExactlyOne(Lits(c, i, |opts|))]);
      } else {
        if last.None? {
          return Some(UnboundLocalError), last;
        }
        var t := opts[0];
        model := model.(decls := model.decls + SingleDecls, cons := model.cons + [Rule(V(Floor(c, i)), EQ, K(last.value.roomFloor))],
                        maps := SingleMaps(model.maps, c, i, t));
        AppendAssoc(m0.decls, VS.SlotDecls(c, i, opts, horizon, numFloors), SingleDecls);
        AppendAssoc(m0.cons, VS.AfterPrevious(c, i), [Rule(V(Floor(c, i)), EQ, K(last.value.roomFloor))]);
      }
      return None, last;
    }

    /** The slots of client `c` in order, then the end of its last slot (None for a client
        without slots); `activity` carries over from slot to slot. */
    method DefineClient(c: int, sched: seq<seq<Task>>, activity: Option<Task>) returns (failure: Option<Error>, last: Option<Task>)
      modifies this`model
      ensures var spec := LegacyVariables.Client(Defining(old(model), activity), c, sched, horizon, numFloors);
        (failure.None? <==> spec.Ok?) && (failure.Some? ==> failure.value == spec.error) &&
        (failure.None? ==> model == spec.value.b && last == spec.value.activity)
    {
      ghost var d0 := Defining(model, activity);
      var previousEnd := None;
      last := activity;
      for i := 0 to |sched|
        invariant previousEnd == if i > 0 then Some(End(c, i - 1)) else None
        invariant Sched(d0, c, sched, i, horizon, numFloors) == Ok(Defining(model, last))
      {
        failure, last := DefineSlot(c, i, sched[i], previousEnd, last);
        if failure.Some? {
          SchedErr(d0, c, sched, i + 1, |sched|, horizon, numFloors);
          return;
        }
        previousEnd := Some(End(c, i));
      }
      assert previousEnd == VS.LastEnd(c, sched);
      model := model.(lastEnds := model.lastEnds + [previousEnd]);
      return None, last;
    }

    /** `__define_variables`: every client in order, `activity` unbound to start with. */
    method DefineVariables() returns (failure: Option<Error>)
      modifies this`model
      ensures var spec := LegacyVariables.DefineVariables(old(model), schedules, horizon, numFloors);
        (failure.None? <==> spec.Ok?) && (failure.Some? ==> failure.value == spec.error) &&
        (failure.None? ==> model == spec.value)
    {
      ghost var d0 := Defining(model, None);
      var scheds := schedules;
      var activity: Option<Task> := None;
      for c := 0 to |scheds|
        invariant Clients(d0, scheds, c, horizon, numFloors) == Ok(Defining(model, activity))
      {
        failure, activity := DefineNextClient(d0, scheds, c, activity);
        if failure.Some? {
          return;
        }
      }
      return None;
    }

    /** Client `c` on a model holding clients `0 .. c - 1`; a failure is the outcome of the
        whole loop. */
    method DefineNextClient(ghost d0: Defining, scheds: seq<seq<seq<Task>>>, c: int, activity: Option<Task>)
      returns (failure: Option<Error>, last: Option<Task>)
      requires 0 <= c < |scheds| && Clients(d0, scheds, c, horizon, numFloors) == Ok(Defining(model, activity))
      modifies this`model
      ensures failure.Some? ==> Clients(d0, scheds, |scheds|, horizon, numFloors) == Err(failure.value)
      ensures failure.None? ==> Clients(d0, scheds, c + 1, horizon, numFloors) == Ok(Defining(model, last))
    {
      failure, last := DefineClient(c, scheds[c], activity);
      if failure.Some? {
        ClientsErr(d0, scheds, c + 1, |scheds|, horizon, numFloors, Clients(d0, scheds, c + 1, horizon, numFloors).error);
      }
    }

    // __apply_gap_constraints

    /** The transfer between slots `i` and `i + 1` of client `c`: its variables, the transfer
        and gap rule, and its index entries. */
    method DefineGap(c: int, i: int)
      modifies this`model
      ensures model == Gap(old(model), c, i, Settings())
    {
      var start, end, floor := TrStart(c, i, i + 1), TrEnd(c, i, i + 1), TrLit(c, i, i + 1);
      var iv := TrInterval(c, i, i + 1);
      var decls := [ IntVar(start, 0, horizon), IntVar(end, 0, horizon), BoolVar(floor),
                     IntervalVar(iv, start, K(transfer), end, Some(floor)) ];
      var cons := [ ModuloEquality(0, start, interval), ModuloEquality(0, end, interval),
                    RuleIf(V(Floor(c, i)), NE, V(Floor(c, i + 1)), Pos(floor)),
                    RuleIf(V(Floor(c, i)), EQ, V(Floor(c, i + 1)), Neg(floor)),
                    RuleIf(V(start), EQ, V(End(c, i)), Pos(floor)),
                    RuleIf(V(Start(c, i + 1)), EQ, V(end), Pos(floor)),
                    RuleIf(V(Start(c, i + 1)), GE, V(End(c, i)), Neg(floor)),
                    RuleIf(Diff(Start(c, i + 1), End(c, i)), LE, K(maxGap), Neg(floor)) ];
      model := model.(decls := model.decls + decls, cons := model.cons + cons,
                      maps := model.maps.(perClient := Append(model.maps.perClient, c, iv),
                                          transfers := Put(model.maps.transfers, (c, i, i + 1), iv)));
    }

    /** `__apply_gap_constraints`: a transfer between every two consecutive slots of every
        client. */
    method ApplyGapConstraints()
      modifies this`model
      ensures model == Gaps(old(model), schedules, Settings(), |schedules|)
    {
      ghost var m0 := model;
      var p := Settings();
      for c := 0 to |schedules|
        invariant model == Gaps(m0, schedules, p, c)
      {
        ghost var before := model;
        var n := |schedules[c]|;
        for i := 0 to n
          invariant model == ClientGaps(before, c, GS.PairsBelow(i, n), p)
        {
          if i + 1 < n {
            DefineGap(c, i);
          }
        }
      }
    }

    // __apply_general_constraints

    /** Each activity of the client's assessment is chosen exactly once. */
    method ApplyExactlyOnes(c: int, acts: seq<Activity>)
      modifies this`model
      ensures model == old(model).(cons := old(model).cons + ExactlyOnes(old(model).maps.boolVars, c, acts))
    {
      ghost var m0 := model;
      for j := 0 to |acts|
        invariant model == m0.(cons := m0.cons + ExactlyOnes(m0.maps.boolVars, c, acts[..j]))
      {
        assert ExactlyOnes(m0.maps.boolVars, c, acts[..j + 1]) ==
               ExactlyOnes(m0.maps.boolVars, c, acts[..j]) + [ExactlyOne(GetList(m0.maps.boolVars, (c, acts[j].id)))];
        AppendAssoc(m0.cons, ExactlyOnes(m0.maps.boolVars, c, acts[..j]), [ExactlyOne(GetList(m0.maps.boolVars, (c, acts[j].id)))]);
        model := model.(cons := model.cons + [ExactlyOne(GetList(model.maps.boolVars, (c, acts[j].id)))]);
      }
      assert acts[..|acts|] == acts;
    }

    /** Every slot of the client starts and ends on the interval grid. */
    method ApplyGrid(c: int, n: nat)
      modifies this`model
      ensures model == old(model).(cons := old(model).cons + GS.GridCons(c, n, Settings()))
    {
      ghost var m0 := model;
      var p := Settings();
      for i := 0 to n
        invariant model == m0.(cons := m0.cons + GS.GridCons(c, i, p))
      {
        AppendAssoc(m0.cons, GS.GridCons(c, i, p), [ModuloEquality(0, Start(c, i), interval), ModuloEquality(0, End(c, i), interval)]);
        model := model.(cons := model.cons + [ModuloEquality(0, Start(c, i), interval), ModuloEquality(0, End(c, i), interval)]);
      }
    }

    /** The body of the client loop for client `c`; a client without an assessment has no
        `.activities` (AttributeError). */
    method ApplyClientGeneral(c: int) returns (failure: Option<Error>)
      requires assessments.Some? && 0 <= c < |schedules|
      modifies this`model
      ensures var spec := ClientGeneral(old(model), c, |schedules[c]|, FirstOwner(assessments.value, clientsPerAssessment, c), Settings());
        (failure.None? <==> spec.Ok?) && (failure.Some? ==> failure.value == spec.error) &&
        (failure.None? ==> model == spec.value)
    {
      var assessment := GetAssessmentByClientId(c);
      if assessment.None? {
        return Some(AttributeError);
      }
      ApplyExactlyOnes(c, assessment.value.activities);
      model := model.(cons := model.cons + [NoOverlap(GetList(model.maps.perClient, c))]);
      ApplyGrid(c, |schedules[c]|);
      return None;
    }

    /** `__apply_general_constraints`: without simultaneous transfers no two transfers overlap;
        then every client's exactly-once choices, no-overlap and grid. */
    method ApplyGeneralConstraints() returns (failure: Option<Error>)
      requires assessments.Some?
      modifies this`model
      ensures var spec := GeneralUpTo(old(model), schedules, Owners(assessments.value, clientsPerAssessment, |schedules|), Settings(), |schedules|);
        (failure.None? <==> spec.Ok?) && (failure.Some? ==> failure.value == spec.error) &&
        (failure.None? ==> model == spec.value)
    {
      ghost var m0 := model;
      ghost var owners := Owners(assessments.value, clientsPerAssessment, |schedules|);
      var p := Settings();
      if !simultaneous {
        model := model.(cons := model.cons + [NoOverlap(Values(model.maps.transfers))]);
      }
      for c := 0 to |schedules|
        invariant GeneralUpTo(m0, schedules, owners, p, c) == Ok(model)
      {
        failure := ApplyNextClient(m0, owners, p, c);
        if failure.Some? {
          return;
        }
      }
      return None;
    }

    /** Client `c` on a model holding the general constraints of clients `0 .. c - 1`; a
        failure is the outcome of the whole loop. */
    method ApplyNextClient(ghost m0: Build, ghost owners: seq<Option<Assessment>>, ghost p: GS.Params, c: int) returns (failure: Option<Error>)
      requires assessments.Some? && 0 <= c < |schedules|
      requires |owners| == |schedules| && owners[c] == FirstOwner(assessments.value, clientsPerAssessment, c) && p == Settings()
      requires GeneralUpTo(m0, schedules, owners, p, c) == Ok(model)
      modifies this`model
      ensures failure.Some? ==> GeneralUpTo(m0, schedules, owners, p, |schedules|) == Err(failure.value)
      ensures failure.None? ==> GeneralUpTo(m0, schedules, owners, p, c + 1) == Ok(model)
    {
      failure := ApplyClientGeneral(c);
      if failure.Some? {
        GeneralErrPersists(m0, schedules, owners, p, c + 1, |schedules|);
      }
    }

    /** `__define_objective`: the count assertion, then a makespan variable equal to the
        latest last end. */
    method DefineObjective() returns (failure: Option<Error>)
      requires assessments.Some?
      modifies this`model
      ensures var spec := Objective(old(model), assessments.value, horizon);
        (failure.None? <==> spec.Ok?) && (failure.Some? ==> failure.value == spec.error) &&
        (failure.None? ==> model == spec.value)
    {
      var total := Sum(Quantities(assessments.value));
      if |model.lastEnds| != total {
        return Some(AssertionError("Invalid number of last activities"));
      }
      if None in model.lastEnds {
        return Some(TypeError);
      }
      model := model.(decls := model.decls + [IntVar(Makespan, 0, horizon)],
                      cons := model.cons + [MaxEquality(Makespan, GS.Somes(model.lastEnds))]);
      return None;
    }

    /** `generate` up to the solve: the assessments must be set, then each phase runs in turn
        and the first exception stops the rest. */
    /** `generate` from the solver call on: `solve` is the CP-SAT search.  A status other than
        OPTIMAL is returned; after OPTIMAL every client's slots are walked to collect its printed
        list, with `previous_activity_index` set to None before the walk and never reassigned. */
    method Report(solve: Build -> (Status, Assignment)) returns (r: Result<Status>)
      ensures r == RB.Finished(model, schedules, solve, true)
    {
      var (status, a) := solve(model);
      if status != Optimal {
        return Ok(status);
      }
      for c := 0 to |schedules|
        invariant RB.Collected(model.maps, a, schedules, c, true).Ok?
      {
        var entries := ReadClient(a, c, None);
        if entries.Err? {
          RB.CollectedErr(model.maps, a, schedules, c + 1, |schedules|, true);
          return Err(entries.error);
        }
      }
      return Ok(Optimal);
    }

    /** One client's walk over its slots in `generate`, with `previous_activity_index` holding
        `previous` throughout: while it is falsy the transfer into each slot is read, then the
        slot's first option whose room literal is set. */
    method ReadClient(a: Assignment, c: int, previous: Option<int>) returns (r: Result<seq<RB.Entry>>)
      requires 0 <= c < |schedules|
      ensures r == RB.ClientRowsAsWritten(model.maps, a, c, schedules[c], |schedules[c]|, previous)
    {
      var sched := schedules[c];
      var entries: seq<RB.Entry> := [];
      for i := 0 to |sched|
        invariant RB.ClientRowsAsWritten(model.maps, a, c, sched, i, previous) == Ok(entries)
      {
        var transfer: seq<RB.Entry> := [];
        // `not previous_activity_index`: None and 0 are both falsy.
        if previous.None? || previous == Some(0) {
          var t := RB.TransferRead(model.maps, a, c, previous, i);
          if t.Err? {
            RB.ClientRowsAsWrittenErr(model.maps, a, c, sched, i + 1, |sched|, previous);
            return Err(t.error);
          }
          transfer := t.value;
        }
        var v := RB.SlotRead(model.maps, a, c, i, sched[i]);
        if v.Err? {
          RB.ClientRowsAsWrittenErr(model.maps, a, c, sched, i + 1, |sched|, previous);
          return Err(v.error);
        }
        entries := entries + transfer + v.value;
      }
      r := Ok(entries);
    }

    /** `generate`: the phases up to the objective, each raising as its specification does, then
        `Report` on the built model. */
    method Generate(solve: Build -> (Status, Assignment)) returns (r: Result<Status>)
      modifies this`schedules, this`clientsPerAssessment, this`model
      ensures assessments.None? ==> r == Err(AssertionError("Invalid assessments")) && unchanged(this)
      ensures assessments.Some? ==>
        var init := InitUpTo(old(schedules), old(clientsPerAssessment), assessments.value, |assessments.value|);
        var spec := Generated(old(schedules), old(clientsPerAssessment), old(model), assessments.value, Settings(), numFloors);
        && (spec.Err? ==> r == Err(spec.error))
        && (spec.Ok? ==> schedules == init.value.schedules && model == spec.value && r == RB.Finished(model, schedules, solve, true))
    {
      if assessments.None? {
        return Err(AssertionError("Invalid assessments"));
      }
      var failure := InitializeVariables();
      if failure.Some? {
        return Err(failure.value);
      }
      ghost var init := Init(schedules, clientsPerAssessment);
      failure := DefineVariables();
      if failure.Some? {
        return Err(failure.value);
      }
      ApplyGapConstraints();
      failure := ApplyGeneralConstraints();
      if failure.Some? {
        return Err(failure.value);
      }
      failure := DefineObjective();
      if failure.Some? {
        return Err(failure.value);
      }
      r := Report(solve);
    }
  }
}
