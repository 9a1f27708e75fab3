/** The current scheduler, `Solver` in `src/utils/solver.py`: it flattens the assessments into
    per-client slot lists, declares the CP-SAT variables of every slot, applies the general,
    activity and room constraints and the makespan objective. Each phase is a method proved
    against the specification functions of the modules it imports. */
module Scheduler {
  import opened Wrappers
  import opened PyDict
  import opened PyList
  import opened CpModel
  import opened SolverModel
  import opened ScheduleSpec
  import opened VariableSpec
  import opened ConditionSpec
  import opened GeneralSpec
  import opened RoomSpec
  import opened PhaseSpec

  /** The number of slots of every client. */
  function Shape(scheds: seq<seq<seq<Task>>>): (r: seq<int>)
    ensures |r| == |scheds| && forall c :: 0 <= c < |r| ==> r[c] == |scheds[c]|
  {
    seq(|scheds|, c requires 0 <= c < |scheds| => |scheds[c]|)
  }

  /** The constraint phases of `generate` on a model whose variables are defined: the general,
      the activity and the room constraints, the first exception stopping the rest. */
  function Constrain(b: Build, assessments: seq<Assessment>, scheds: seq<seq<seq<Task>>>, clients: Dict<int, seq<int>>,
                     perAssessment: Dict<int, seq<Condition>>, perRoom: Dict<int, seq<Condition>>, p: Params, timeStart: int): Result<Build>
  {
    var owners := Owners(assessments, clients, |scheds|);
    var general :- GeneralUpTo(b, Shape(scheds), owners, p, |scheds|);
    var activity :- ActivityPhase(Clients(Ctx(general.maps, Shape(scheds), timeStart, p.maxGap)), owners, perAssessment, |scheds|);
    var withActivity := general.(cons := general.cons + activity);
    var room :- RoomPhase(Rooms(Ctx(withActivity.maps, Shape(scheds), timeStart, p.maxGap), assessments), perRoom, |perRoom|);
    Ok(withActivity.(cons := withActivity.cons + room))
  }

  /** `generate` up to the solve, once the slot lists are built: the variables, the constraint
      phases and the objective. */
  function Generated(b: Build, assessments: seq<Assessment>, scheds: seq<seq<seq<Task>>>, clients: Dict<int, seq<int>>,
                     perAssessment: Dict<int, seq<Condition>>, perRoom: Dict<int, seq<Condition>>, p: Params, timeStart: int,
                     floors: int): Result<Build>
  {
    var defined :- DefineVariables(b, scheds, p.horizon, floors);
    var constrained :- Constrain(defined, assessments, scheds, clients, perAssessment, perRoom, p, timeStart);
    Objective(constrained, assessments, p.horizon)
  }

  /** The constraint phases add constraints and variables but record no last end. */
  lemma ConstrainKeepsLastEnds(b: Build, assessments: seq<Assessment>, scheds: seq<seq<seq<Task>>>, clients: Dict<int, seq<int>>,
                               perAssessment: Dict<int, seq<Condition>>, perRoom: Dict<int, seq<Condition>>, p: Params, timeStart: int)
    requires Constrain(b, assessments, scheds, clients, perAssessment, perRoom, p, timeStart).Ok?
    ensures Constrain(b, assessments, scheds, clients, perAssessment, perRoom, p, timeStart).value.lastEnds == b.lastEnds
  {
    GeneralKeepsLastEnds(b, Shape(scheds), Owners(assessments, clients, |scheds|), p, |scheds|);
  }

  /** On a fresh model and the slot lists of assessments with no negative quantity, once the
      variables and the constraints are in place the objective's count assertion holds: the
      objective is added, or a client without slots makes it raise TypeError. */
  lemma GeneratedReachesObjective(assessments: seq<Assessment>, clients: Dict<int, seq<int>>, perAssessment: Dict<int, seq<Condition>>,
                                  perRoom: Dict<int, seq<Condition>>, p: Params, timeStart: int, floors: int)
    requires QuantitiesNonNegative(assessments)
    requires var defined := DefineVariables(EmptyBuild, Schedules(assessments), p.horizon, floors);
      defined.Ok? && Constrain(defined.value, assessments, Schedules(assessments), clients, perAssessment, perRoom, p, timeStart).Ok?
    ensures var r := Generated(EmptyBuild, assessments, Schedules(assessments), clients, perAssessment, perRoom, p, timeStart, floors);
      r.Ok? || r == Err(TypeError)
    ensures var r := Generated(EmptyBuild, assessments, Schedules(assessments), clients, perAssessment, perRoom, p, timeStart, floors);
      r.Ok? ==> r.value.cons[|r.value.cons| - 1] == Minimize(V(Makespan))
  {
    var defined := DefineVariables(EmptyBuild, Schedules(assessments), p.horizon, floors).value;
    ObjectiveCountHolds(assessments, p.horizon, floors);
    ConstrainKeepsLastEnds(defined, assessments, Schedules(assessments), clients, perAssessment, perRoom, p, timeStart);
  }

  /** The general constraints of clients `0 .. k - 1` are in the model `m`. */
  ghost predicate Reached(b: Build, shape: seq<int>, owners: seq<Option<Assessment>>, p: Params, k: nat, m: Build) {
    k <= |shape| == |owners| && GeneralUpTo(b, shape, owners, p, k) == Ok(m)
  }

  class Solver {
    // Settings, fixed by the constructor; times are in seconds, spans in minutes.
    const timeStart: int
    const timeEnd: int
    const interval: int
    const maxGap: int
    const transfer: int
    const numFloors: int
    const simultaneous: bool
    const horizon: int

    var assessments: Option<seq<Assessment>>
    var schedules: seq<seq<seq<Task>>>
    var conditionsPerRoom: Dict<int, seq<Condition>>
    var conditionsPerAssessment: Dict<int, seq<Condition>>
    var clientsPerAssessment: Dict<int, seq<int>>
    /** The CP-SAT model and the variable indexes built so far. */
    var model: Build

    /** The timedelta arguments are given in whole seconds; every span is kept in whole minutes,
        and `numDoctors` is accepted and ignored. */
    constructor(timeStart: int, timeEnd: int, maxInterval: int, maxGap: int, transfer: int,
                numFloors: int, numDoctors: int, simultaneous: bool)
      ensures this.timeStart == timeStart && this.timeEnd == timeEnd
      ensures interval == Minutes(maxInterval) && this.maxGap == Minutes(maxGap) && this.transfer == Minutes(transfer)
      ensures this.numFloors == numFloors && this.simultaneous == simultaneous
      ensures horizon == Minutes(timeEnd - timeStart)
      ensures assessments == None && schedules == []
      ensures conditionsPerRoom == [] && conditionsPerAssessment == [] && clientsPerAssessment == []
      ensures model == EmptyBuild
    {
      this.timeStart := timeStart;
      this.timeEnd := timeEnd;
      interval := Minutes(maxInterval);
      this.maxGap := Minutes(maxGap);
      this.transfer := Minutes(transfer);
      this.numFloors := numFloors;
      this.simultaneous := simultaneous;
      horizon := Minutes(timeEnd - timeStart);
      assessments := None;
      schedules := [];
      conditionsPerRoom := [];
      conditionsPerAssessment := [];
      clientsPerAssessment := [];
      model := EmptyBuild;
    }

    /** The settings the general constraints use. */
    function Settings(): Params {
      Params(horizon, interval, maxGap, transfer, simultaneous)
    }

    /** The setter of `assessments`: the assessments, sorted by name. */
    method SetAssessments(xs: seq<Assessment>)
      modifies this`assessments
      ensures assessments == Some(SortedByName(xs))
    {
      assessments := Some(SortedByName(xs));
    }

    /** The assessment whose client ids include `c`, the first one in sorted order. */
    method GetAssessmentByClientId(c: int) returns (r: Option<Assessment>)
      requires assessments.Some?
      ensures r == FirstOwner(assessments.value, clientsPerAssessment, c)
    {
      var xs := assessments.value;
      var j := 0;
      while j < |xs|
        invariant 0 <= j <= |xs|
        invariant FirstOwner(xs[j..], clientsPerAssessment, c) == FirstOwner(xs, clientsPerAssessment, c)
      {
        if c in GetList(clientsPerAssessment, xs[j].id) {
          return Some(xs[j]);
        }
        assert xs[j..][1..] == xs[j + 1..];
        j := j + 1;
      }
      return None;
    }

    /** `for room_condition in conditions: conditions_per_room[room_id].append(room_condition)`. */
    method FileRoomConditions(room: Room)
      modifies this`conditionsPerRoom
      ensures conditionsPerRoom == AppendEach(old(conditionsPerRoom), room.id, room.conditions)
    {
      ghost var d := conditionsPerRoom;
      for q := 0 to |room.conditions|
        invariant conditionsPerRoom == AppendEach(d, room.id, room.conditions[..q])
      {
        AppendEachStep(d, room.id, room.conditions[..q], room.conditions[q]);
        assert room.conditions[..q + 1] == room.conditions[..q] + [room.conditions[q]];
        conditionsPerRoom := Append(conditionsPerRoom, room.id, room.conditions[q]);
      }
      assert room.conditions[..|room.conditions|] == room.conditions;
    }

    /** `for condition in activity.conditions: conditions_per_assessment[id].append(condition)`. */
    method FileActivityConditions(id: int, conds: seq<Condition>)
      modifies this`conditionsPerAssessment
      ensures conditionsPerAssessment == AppendEach(old(conditionsPerAssessment), id, conds)
    {
      ghost var d := conditionsPerAssessment;
      for q := 0 to |conds|
        invariant conditionsPerAssessment == AppendEach(d, id, conds[..q])
      {
        AppendEachStep(d, id, conds[..q], conds[q]);
        assert conds[..q + 1] == conds[..q] + [conds[q]];
        conditionsPerAssessment := Append(conditionsPerAssessment, id, conds[q]);
      }
      assert conds[..|conds|] == conds;
    }

    /** The options of one activity, one per room, filing each room's conditions. */
    method CollectRooms(act: Activity) returns (opts: seq<Task>)
      modifies this`conditionsPerRoom
      ensures opts == RoomTasks(act)
      ensures conditionsPerRoom == RoomCondsIn(old(conditionsPerRoom), act.rooms)
    {
      ghost var d := conditionsPerRoom;
      opts := [];
      for r := 0 to |act.rooms|
        invariant opts == RoomTasks(act)[..r]
        invariant conditionsPerRoom == RoomCondsIn(d, act.rooms[..r])
      {
        var ar := act.rooms[r];
        opts := opts + [TaskOf(act, ar)];
        FileRoomConditions(ar.room);
        assert act.rooms[..r + 1][..r] == act.rooms[..r];
      }
      assert act.rooms[..|act.rooms|] == act.rooms;
    }

    /** The option list shared by every slot of assessment `a`, filing the room conditions
        and the activity conditions met on the way. */
    method CollectOptions(a: Assessment) returns (opts: seq<Task>)
      modifies this`conditionsPerRoom, this`conditionsPerAssessment
      ensures opts == Options(a.activities)
      ensures conditionsPerRoom == RoomCondsOf(old(conditionsPerRoom), a.activities)
      ensures conditionsPerAssessment == ActivityConds(old(conditionsPerAssessment), a.id, a.activities)
    {
      ghost var rooms, conds := conditionsPerRoom, conditionsPerAssessment;
      var acts := a.activities;
      opts := [];
      for j := 0 to |acts|
        invariant opts == Options(acts[..j])
        invariant conditionsPerRoom == RoomCondsOf(rooms, acts[..j])
        invariant conditionsPerAssessment == ActivityConds(conds, a.id, acts[..j])
      {
        var more := CollectRooms(acts[j]);
        opts := opts + more;
        FileActivityConditions(a.id, acts[j].conditions);
        assert acts[..j + 1][..j] == acts[..j];
      }
      assert acts[..|acts|] == acts;
    }

    /** `__initialize_variables`: every assessment contributes `quantity` clients, each with one
        slot per activity offering every (activity, room) option, and the next block of client
        ids; the room and activity conditions are filed on the way. */
    method InitializeVariables()
      requires assessments.Some?
      modifies this`schedules, this`clientsPerAssessment, this`conditionsPerRoom, this`conditionsPerAssessment
      ensures schedules == old(schedules) + Schedules(assessments.value)
      ensures clientsPerAssessment == ClientIds(old(clientsPerAssessment), assessments.value)
      ensures conditionsPerRoom == RoomConds(old(conditionsPerRoom), assessments.value)
      ensures conditionsPerAssessment == AssessmentConds(old(conditionsPerAssessment), assessments.value)
    {
      var xs := assessments.value;
      ghost var r0, a0 := conditionsPerRoom, conditionsPerAssessment;
      var scheds, clients := schedules, clientsPerAssessment;
      var previous := 0;
      for k := 0 to |xs|
        invariant previous == Offset(xs[..k])
        invariant scheds == old(schedules) + Schedules(xs[..k])
        invariant clients == ClientIds(old(clientsPerAssessment), xs[..k])
        invariant conditionsPerRoom == RoomConds(r0, xs[..k])
        invariant conditionsPerAssessment == AssessmentConds(a0, xs[..k])
      {
        var a := xs[k];
        ghost var r, d := conditionsPerRoom, conditionsPerAssessment;
        var opts := CollectOptions(a);
        var schedule := Repeat(opts, |a.activities|);
        var scheds', clients' := scheds + Repeat(schedule, a.quantity), Extend(clients, a.id, Range(previous, previous + a.quantity));
        AssessmentsExtend(xs, k, old(schedules), old(clientsPerAssessment), r0, a0, scheds, clients, r, d, previous, opts, scheds', clients', conditionsPerRoom, conditionsPerAssessment);
        scheds, clients := scheds', clients';
        previous := previous + a.quantity;
      }
      assert xs[..|xs|] == xs;
      schedules, clientsPerAssessment := scheds, clients;
    }
  
    /** The smallest and the largest duration among a slot's options, scanning from the
        first. */
    static method DurationBounds(opts: seq<Task>) returns (lo: int, hi: int)
      requires opts != []
      ensures lo == MinDuration(opts) && hi == MaxDuration(opts)
    {
      lo, hi := opts[0].duration, opts[0].duration;
      for k := 1 to |opts|
        invariant forall t :: t in opts[..k] ==> lo <= t.duration <= hi
        invariant exists t :: t in opts[..k] && t.duration == lo
        invariant exists t :: t in opts[..k] && t.duration == hi
      {
        assert opts[..k + 1] == opts[..k] + [opts[k]];
        if opts[k].duration < lo { lo := opts[k].duration; }
        if opts[k].duration > hi { hi := opts[k].duration; }
      }
      assert opts[..|opts|] == opts;
      MinMaxDuration(opts);
    }

    /** One option `t` (number `k`) of a multi-option slot: its optional interval, literal and
        floor, the five constraints it enforces when chosen, and its index entries. */
    method DefineOption(c: int, i: int, k: int, t: Task)
      modifies this`model
      ensures model == Build(old(model).decls + OptionDecls(c, i, k, t, horizon, numFloors),
                             old(model).cons + OptionCons(c, i, k, t),
                             OptionMaps(old(model).maps, c, i, k, t), old(model).lastEnds)
    {
      var start, end, lit := OptStart(c, i, k), OptEnd(c, i, k), OptLit(c, i, k);
      var decls := [ IntVar(start, 0, horizon), IntVar(end, 0, horizon), BoolVar(lit),
                     IntervalVar(OptInterval(c, i, k), start, K(t.duration), end, Some(lit)),
                     IntVar(OptFloor(c, i, k), 0, numFloors) ];
      model := model.(decls := model.decls + decls, cons := model.cons + OptionCons(c, i, k, t), maps := OptionMaps(model.maps, c, i, k, t));
    }

    /** The options of a multi-option slot, then "exactly one of their literals". */
    method DefineOptions(c: int, i: int, opts: seq<Task>)
      modifies this`model
      ensures model.decls == old(model).decls + OptsDecls(c, i, opts, |opts|, horizon, numFloors)
      ensures model.cons == old(model).cons + (OptsCons(c, i, opts, |opts|) + [ExactlyOne(Lits(c, i, |opts|))])
      ensures model.maps == OptsMaps(old(model).maps, c, i, opts, |opts|) && model.lastEnds == old(model).lastEnds
    {
      ghost var m0 := model;
      var lits := [];
      for k := 0 to |opts|
        invariant lits == Lits(c, i, k)
        invariant model.decls == m0.decls + OptsDecls(c, i, opts, k, horizon, numFloors)
        invariant model.cons == m0.cons + OptsCons(c, i, opts, k)
        invariant model.maps == OptsMaps(m0.maps, c, i, opts, k) && model.lastEnds == m0.lastEnds
      {
        OptsStep(m0.maps, c, i, opts, k, horizon, numFloors);
        AppendAssoc(m0.decls, OptsDecls(c, i, opts, k, horizon, numFloors), OptionDecls(c, i, k, opts[k], horizon, numFloors));
        AppendAssoc(m0.cons, OptsCons(c, i, opts, k), OptionCons(c, i, k, opts[k]));
        LitsStep(c, i, k);
        DefineOption(c, i, k, opts[k]);
        lits := lits + [OptLit(c, i, k)];
      }
      model := model.(cons := model.cons + [ExactlyOne(lits)]);
    }

    /** Slot `i` of client `c`: its five variables, "no earlier than the previous slot's end",
        then either one optional interval per option with exactly one chosen, or the floor of
        the only option. */
    method DefineSlot(c: int, i: int, opts: seq<Task>, previousEnd: Option<Var>)
      requires opts != []
      requires previousEnd == if i > 0 then Some(End(c, i - 1)) else None
      modifies this`model
      ensures model.decls == old(model).decls + SlotAllDecls(c, i, opts, horizon, numFloors)
      ensures model.cons == old(model).cons + SlotCons(c, i, opts)
      ensures model.maps == SlotMaps(old(model).maps, c, i, opts) && model.lastEnds == old(model).lastEnds
    {
      ghost var m0 := model;
      var lo, hi := DurationBounds(opts);
      var decls := [ IntVar(Start(c, i), 0, horizon), IntVar(Duration(c, i), lo, hi), IntVar(End(c, i), 0, horizon),
                     IntervalVar(Interval(c, i), Start(c, i), V(Duration(c, i)), End(c, i), None),
                     IntVar(Floor(c, i), 1, numFloors) ];
      assert decls == SlotDecls(c, i, opts, horizon, numFloors);
      model := model.(decls := model.decls + decls);
      if previousEnd.Some? {
        model := model.(cons := model.cons + [Rule(V(Start(c, i)), GE, V(previousEnd.value))]);
      }
      assert model.cons == m0.cons + AfterPrevious(c, i);
      if |opts| > 1 {
        DefineOptions(c, i, opts);
        AppendAssoc(m0.decls, SlotDecls(c, i, opts, horizon, numFloors), OptsDecls(c, i, opts, |opts|, horizon, numFloors));
        AppendAssoc(m0.cons, AfterPrevious(c, i), OptsCons(c, i, opts, |opts|) + [ExactlyOne(Lits(c, i, |opts|))]);
      } else {
        var t := opts[0];
        model := model.(decls := model.decls + SingleDecls, cons := model.cons + [Rule(V(Floor(c, i)), EQ, K(t.roomFloor))], maps := SingleMaps(model.maps, c, i, t));
        AppendAssoc(m0.decls, SlotDecls(c, i, opts, horizon, numFloors), SingleDecls);
        AppendAssoc(m0.cons, AfterPrevious(c, i), [Rule(V(Floor(c, i)), EQ, K(t.roomFloor))]);
      }
    }

    /** The slots of client `c` in order, then the end of its last slot (None for a client
        without slots); false as soon as a slot has no option. */
    method DefineClient(c: int, sched: seq<seq<Task>>) returns (filled: bool)
      modifies this`model
      ensures filled == Filled(sched)
      ensures filled ==> model.decls == old(model).decls + SchedDecls(c, sched, |sched|, horizon, numFloors)
      ensures filled ==> model.cons == old(model).cons + SchedCons(c, sched, |sched|)
      ensures filled ==> model.maps == SchedMaps(old(model).maps, c, sched, |sched|)
      ensures filled ==> model.lastEnds == old(model).lastEnds + [LastEnd(c, sched)]
    {
      ghost var m0 := model;
      var previousEnd := None;
      for i := 0 to |sched|
        invariant FilledUpTo(sched, i)
        invariant previousEnd == if i > 0 then Some(End(c, i - 1)) else None
        invariant model.decls == m0.decls + SchedDecls(c, sched, i, horizon, numFloors)
        invariant model.cons == m0.cons + SchedCons(c, sched, i)
        invariant model.maps == SchedMaps(m0.maps, c, sched, i) && model.lastEnds == m0.lastEnds
      {
        if sched[i] == [] {
          return false;
        }
        assert FilledUpTo(sched, i + 1);
        AppendAssoc(m0.decls, SchedDecls(c, sched, i, horizon, numFloors), SlotAllDecls(c, i, sched[i], horizon, numFloors));
        AppendAssoc(m0.cons, SchedCons(c, sched, i), SlotCons(c, i, sched[i]));
        DefineSlot(c, i, sched[i], previousEnd);
        previousEnd := Some(End(c, i));
      }
      model := model.(lastEnds := model.lastEnds + [previousEnd]);
      return true;
    }

    /** `__define_variables`: every client in order. A slot without options raises IndexError
        at `activities[0]`. */
    method DefineVariables() returns (failure: Option<Error>)
      modifies this`model
      ensures var spec := VariableSpec.DefineVariables(old(model), schedules, horizon, numFloors);
        (failure.None? <==> spec.Ok?) && (failure.Some? ==> failure.value == IndexError) &&
        (failure.None? ==> model == spec.value)
    {
      ghost var m0 := model;
      var scheds := schedules;
      for c := 0 to |scheds|
        invariant AllFilledUpTo(scheds, c)
        invariant model == Build(m0.decls + ClientsDecls(scheds, c, horizon, numFloors), m0.cons + ClientsCons(scheds, c),
                                 ClientsMaps(m0.maps, scheds, c), m0.lastEnds + ClientsLastEnds(scheds, c))
      {
        var filled := DefineNextClient(m0, scheds, c);
        if !filled {
          return Some(IndexError);
        }
      }
      return None;
    }

    /** Client `c` on a model holding clients `0 .. c - 1`: false when one of its slots has no
        option. */
    method DefineNextClient(ghost m0: Build, scheds: seq<seq<seq<Task>>>, c: int) returns (filled: bool)
      requires 0 <= c < |scheds| && AllFilledUpTo(scheds, c)
      requires model == Build(m0.decls + ClientsDecls(scheds, c, horizon, numFloors), m0.cons + ClientsCons(scheds, c),
                              ClientsMaps(m0.maps, scheds, c), m0.lastEnds + ClientsLastEnds(scheds, c))
      modifies this`model
      ensures filled == Filled(scheds[c])
      ensures filled ==> AllFilledUpTo(scheds, c + 1)
      ensures filled ==> model == Build(m0.decls + ClientsDecls(scheds, c + 1, horizon, numFloors), m0.cons + ClientsCons(scheds, c + 1),
                                        ClientsMaps(m0.maps, scheds, c + 1), m0.lastEnds + ClientsLastEnds(scheds, c + 1))
    {
      ghost var before := model;
      filled := DefineClient(c, scheds[c]);
      if filled {
        ClientsExtend(m0, before, model, scheds, c, horizon, numFloors);
      }
    }

    // __apply_general_constraints

    /** The transfer between slots `i` and `i + 1` of client `c`: its variables, the six
        constraints tying it to the slots' floors and times, and its index entries. */
    method DefineTransfer(c: int, i: int)
      modifies this`model
      ensures model == Build(old(model).decls + TransferDecls(c, i, Settings()),
                             old(model).cons + TransferCons(c, i, Settings()),
                             TransferMaps(old(model).maps, c, i), old(model).lastEnds)
    {
      var start, end, floor := TrStart(c, i, i + 1), TrEnd(c, i, i + 1), TrLit(c, i, i + 1);
      var decls := [ IntVar(start, 0, horizon), IntVar(end, 0, horizon), BoolVar(floor),
                     IntervalVar(TrInterval(c, i, i + 1), start, K(transfer), end, Some(floor)) ];
      var cons := [ ModuloEquality(0, start, interval), ModuloEquality(0, end, interval),
                    RuleIf(V(Floor(c, i)), NE, V(Floor(c, i + 1)), Pos(floor)),
                    RuleIf(V(Floor(c, i)), EQ, V(Floor(c, i + 1)), Neg(floor)),
                    RuleIf(V(start), EQ, V(End(c, i)), Pos(floor)),
                    RuleIf(V(Start(c, i + 1)), EQ, V(end), Pos(floor)) ];
      model := model.(decls := model.decls + decls, cons := model.cons + cons, maps := TransferMaps(model.maps, c, i));
    }

    /** `__apply_transfer_constraint`: a transfer between every two consecutive slots. */
    method ApplyTransferConstraint(c: int, schedule: seq<seq<Task>>)
      modifies this`model
      ensures model == Build(old(model).decls + TransfersDecls(c, PairCount(|schedule|), Settings()),
                             old(model).cons + TransfersCons(c, PairCount(|schedule|), Settings()),
                             TransfersMaps(old(model).maps, c, PairCount(|schedule|)), old(model).lastEnds)
    {
      ghost var m0 := model;
      var p := Settings();
      for i := 0 to |schedule|
        invariant model.decls == m0.decls + TransfersDecls(c, PairsBelow(i, |schedule|), p)
        invariant model.cons == m0.cons + TransfersCons(c, PairsBelow(i, |schedule|), p)
        invariant model.maps == TransfersMaps(m0.maps, c, PairsBelow(i, |schedule|)) && model.lastEnds == m0.lastEnds
      {
        if i + 1 < |schedule| {
          AppendAssoc(m0.decls, TransfersDecls(c, i, p), TransferDecls(c, i, p));
          AppendAssoc(m0.cons, TransfersCons(c, i, p), TransferCons(c, i, p));
          DefineTransfer(c, i);
        }
      }
    }

    /** `__apply_max_gap_constraint`: without a transfer, at most `maxGap` minutes between two
        consecutive slots. */
    method ApplyMaxGapConstraint(c: int, schedule: seq<seq<Task>>)
      modifies this`model
      ensures model == old(model).(cons := old(model).cons + MaxGapsCons(c, PairCount(|schedule|), Settings()))
    {
      ghost var m0 := model;
      var p := Settings();
      for i := 0 to |schedule|
        invariant model == m0.(cons := m0.cons + MaxGapsCons(c, PairsBelow(i, |schedule|), p))
      {
        if i + 1 < |schedule| {
          AppendAssoc(m0.cons, MaxGapsCons(c, i, p), MaxGapCons(c, i, p));
          model := model.(cons := model.cons + [RuleIf(Diff(Start(c, i + 1), End(c, i)), LE, K(maxGap), Neg(TrLit(c, i, i + 1)))]);
        }
      }
    }

    /** Each activity of the client's assessment is chosen exactly once. */
    method ApplyExactlyOnes(c: int, acts: seq<Activity>)
      modifies this`model
      ensures model == old(model).(cons := old(model).cons + ExactlyOnes(old(model).maps.boolVars, c, acts))
    {
      ghost var m0 := model;
      for j := 0 to |acts|
        invariant model == m0.(cons := m0.cons + ExactlyOnes(m0.maps.boolVars, c, acts[..j]))
      {
        ExactlyOnesStep(m0.maps.boolVars, c, acts, j);
        AppendAssoc(m0.cons, ExactlyOnes(m0.maps.boolVars, c, acts[..j]), [ExactlyOne(GetList(m0.maps.boolVars, (c, acts[j].id)))]);
        model := model.(cons := model.cons + [ExactlyOne(GetList(model.maps.boolVars, (c, acts[j].id)))]);
      }
      assert acts[..|acts|] == acts;
    }

    /** Every slot of the client starts and ends on the interval grid. */
    method ApplyGrid(c: int, n: nat)
      modifies this`model
      ensures model == old(model).(cons := old(model).cons + GridCons(c, n, Settings()))
    {
      ghost var m0 := model;
      var p := Settings();
      for i := 0 to n
        invariant model == m0.(cons := m0.cons + GridCons(c, i, p))
      {
        AppendAssoc(m0.cons, GridCons(c, i, p), [ModuloEquality(0, Start(c, i), interval), ModuloEquality(0, End(c, i), interval)]);
        model := model.(cons := model.cons + [ModuloEquality(0, Start(c, i), interval), ModuloEquality(0, End(c, i), interval)]);
      }
    }

    /** The body of the client loop of `__apply_general_constraints` for client `c`, on a model
        holding the general constraints of clients `0 .. c - 1`. */
    method ApplyClientGeneral(c: int, ghost m0: Build, ghost shape: seq<int>, ghost owners: seq<Option<Assessment>>, ghost p: Params)
      returns (failure: Option<Error>)
      requires Fixed(shape, owners, p) && 0 <= c < |schedules|
      requires Reached(m0, shape, owners, p, c, model)
      modifies this`model
      ensures failure.Some? ==> GeneralUpTo(m0, shape, owners, p, |shape|) == Err(failure.value)
      ensures failure.None? ==> Reached(m0, shape, owners, p, c + 1, model)
    {
      ghost var before := model;
      failure := ApplyClient(c);
      assert owners[c] == FirstOwner(assessments.value, clientsPerAssessment, c);
      GeneralAdvance(m0, shape, owners, p, c, before, failure, model);
    }

    /** What `__apply_general_constraints` does for client `c`. */
    method ApplyClient(c: int) returns (failure: Option<Error>)
      requires assessments.Some? && 0 <= c < |schedules|
      modifies this`model
      ensures var spec := ClientGeneral(old(model), c, |schedules[c]|, FirstOwner(assessments.value, clientsPerAssessment, c), Settings());
        (failure.None? <==> spec.Ok?) && (failure.Some? ==> failure.value == spec.error) &&
        (failure.None? ==> model == spec.value)
    {
      var schedule := schedules[c];
      ApplyTransferConstraint(c, schedule);
      ApplyMaxGapConstraint(c, schedule);
      model := model.(cons := model.cons + [NoOverlap(GetList(model.maps.perClient, c))]);
      var assessment := GetAssessmentByClientId(c);
      if assessment.None? {
        return Some(AttributeError);
      }
      ApplyExactlyOnes(c, assessment.value.activities);
      ApplyGrid(c, |schedule|);
      return None;
    }

    /** The no-overlaps `__apply_general_constraints` adds before its client loop: over the
        transfers (twice, when they may not be simultaneous) and over activity 201. */
    method ApplyGeneralHead()
      modifies this`model
      ensures model == GeneralHead(old(model), Settings())
    {
      if !simultaneous {
        model := model.(cons := model.cons + [NoOverlap(Values(model.maps.transfers))]);
      }
      ApplyNoOverlapActivityConstraint(201);
      if !simultaneous {
        model := model.(cons := model.cons + [NoOverlap(Values(model.maps.transfers))]);
      }
    }

    /** `__apply_no_overlap_activity_constraint`: no overlap among the intervals of every
        `(client, activityId)` entry. */
    method ApplyNoOverlapActivityConstraint(activityId: int)
      modifies this`model
      ensures model == old(model).(cons := old(model).cons + [NoOverlap(IntervalsOf(old(model).maps.intervals, activityId))])
    {
      model := model.(cons := model.cons + [NoOverlap(IntervalsOf(model.maps.intervals, activityId))]);
    }

    /** `__apply_general_constraints`: the transfer and activity-201 no-overlaps, then every
        client's transfers, gaps, no-overlap, exactly-once choices and grid. */
    method ApplyGeneralConstraints() returns (failure: Option<Error>)
      requires assessments.Some?
      modifies this`model
      ensures var spec := GeneralUpTo(old(model), Shape(schedules), Owners(assessments.value, clientsPerAssessment, |schedules|), Settings(), |schedules|);
        (failure.None? <==> spec.Ok?) && (failure.Some? ==> failure.value == spec.error) &&
        (failure.None? ==> model == spec.value)
    {
      ghost var m0 := model;
      ApplyGeneralHead();
      failure := ApplyClientsGeneral(m0, Shape(schedules), Owners(assessments.value, clientsPerAssessment, |schedules|), Settings());
    }

    /** The shape, the owners and the settings of this solver. */
    ghost predicate Fixed(shape: seq<int>, owners: seq<Option<Assessment>>, p: Params)
      reads this
    {
      assessments.Some? && shape == Shape(schedules) && p == Settings() && |owners| == |schedules| &&
      forall c :: 0 <= c < |owners| ==> owners[c] == FirstOwner(assessments.value, clientsPerAssessment, c)
    }

    /** The per-client part of `__apply_general_constraints`, on a model that already holds
        the shared constraints. */
    method ApplyClientsGeneral(ghost m0: Build, ghost shape: seq<int>, ghost owners: seq<Option<Assessment>>, ghost p: Params) returns (failure: Option<Error>)
      requires Fixed(shape, owners, p)
      requires Reached(m0, shape, owners, p, 0, model)
      modifies this`model
      ensures GeneralUpTo(m0, shape, owners, p, |shape|) == if failure.None? then Ok(model) else Err(failure.value)
    {
      var c := 0;
      failure := None;
      while c < |schedules| && failure.None?
        invariant failure.None? ==> Reached(m0, shape, owners, p, c, model)
        invariant failure.Some? ==> GeneralUpTo(m0, shape, owners, p, |shape|) == Err(failure.value)
        decreases |schedules| - c, if failure.None? then 1 else 0
      {
        failure := ApplyClientGeneral(c, m0, shape, owners, p);
        if failure.None? {
          c := c + 1;
        }
      }
      if failure.None? {
        assert c == |shape|;
      }
    }

    /** `__apply_activity_constraints`: the conditions of every client's assessment, in client
        order, each dispatched through the activity table. */
    method ApplyActivityConstraints() returns (failure: Option<Error>)
      requires assessments.Some?
      modifies this`model
      ensures var spec := ActivityPhase(Clients(Ctx(old(model).maps, Shape(schedules), timeStart, maxGap)),
                                        Owners(assessments.value, clientsPerAssessment, |schedules|), conditionsPerAssessment, |schedules|);
        (failure.None? <==> spec.Ok?) && (failure.Some? ==> failure.value == spec.error) &&
        (failure.None? ==> model == old(model).(cons := old(model).cons + spec.value))
    {
      var h := Clients(Ctx(model.maps, Shape(schedules), timeStart, maxGap));
      failure := ActivityLoop(h, Owners(assessments.value, clientsPerAssessment, |schedules|));
    }

    /** The loop of `__apply_activity_constraints` over the clients, with the dispatch table `h`
        and the assessment of every client. */
    method ActivityLoop(h: ClientHandler, ghost owners: seq<Option<Assessment>>) returns (failure: Option<Error>)
      requires assessments.Some? && |owners| == |schedules|
      requires forall c :: 0 <= c < |owners| ==> owners[c] == FirstOwner(assessments.value, clientsPerAssessment, c)
      modifies this`model
      ensures var spec := ActivityPhase(h, owners, conditionsPerAssessment, |schedules|);
        (failure.None? <==> spec.Ok?) && (failure.Some? ==> failure.value == spec.error) &&
        (failure.None? ==> model == old(model).(cons := old(model).cons + spec.value))
    {
      ghost var m0 := model;
      ghost var done: seq<Constraint> := [];
      var c := 0;
      assert m0.cons + done == m0.cons;
      while c < |schedules|
        invariant 0 <= c <= |schedules|
        invariant ActivityPhase(h, owners, conditionsPerAssessment, c) == Ok(done)
        invariant model == m0.(cons := m0.cons + done)
      {
        failure := ApplyClientActivities(m0, h, owners, c);
        if failure.Some? {
          return;
        }
        c := c + 1;
        done := ActivityPhase(h, owners, conditionsPerAssessment, c).value;
      }
      return None;
    }

    /** The conditions of client `c`'s assessment, on a model holding those of clients
        `0 .. c - 1`; a client without assessment has no `.id` (AttributeError). */
    method ApplyClientActivities(ghost m0: Build, h: ClientHandler, ghost owners: seq<Option<Assessment>>, c: int) returns (failure: Option<Error>)
      requires assessments.Some? && |owners| == |schedules| && 0 <= c < |schedules|
      requires owners[c] == FirstOwner(assessments.value, clientsPerAssessment, c)
      requires ActivityPhase(h, owners, conditionsPerAssessment, c).Ok?
      requires model == m0.(cons := m0.cons + ActivityPhase(h, owners, conditionsPerAssessment, c).value)
      modifies this`model
      ensures failure.Some? ==> ActivityPhase(h, owners, conditionsPerAssessment, |schedules|) == Err(failure.value)
      ensures failure.None? ==> ActivityPhase(h, owners, conditionsPerAssessment, c + 1).Ok?
      ensures failure.None? ==> model == m0.(cons := m0.cons + ActivityPhase(h, owners, conditionsPerAssessment, c + 1).value)
    {
      ghost var prev := ActivityPhase(h, owners, conditionsPerAssessment, c).value;
      var assessment := GetAssessmentByClientId(c);
      assert owners[c] == assessment;
      if assessment.None? {
        ActivityPhaseErr(h, owners, conditionsPerAssessment, c + 1, |schedules|);
        return Some(AttributeError);
      }
      var conds := GetList(conditionsPerAssessment, assessment.value.id);
      failure := ApplyClientConditions(h, c, conds);
      if failure.Some? {
        ActivityPhaseErr(h, owners, conditionsPerAssessment, c + 1, |schedules|);
        return;
      }
      AppendAssoc(m0.cons, prev, ClientLoop(h, c, conds, |conds|).value);
    }

    /** The inner loop of `__apply_activity_constraints`: client `c`'s conditions, each one's
        constraints added in turn; the first exception stops the loop. */
    method ApplyClientConditions(h: ClientHandler, c: int, conds: seq<Condition>) returns (failure: Option<Error>)
      modifies this`model
      ensures var spec := ClientLoop(h, c, conds, |conds|);
        (failure.None? <==> spec.Ok?) && (failure.Some? ==> failure.value == spec.error) &&
        (failure.None? ==> model == old(model).(cons := old(model).cons + spec.value))
    {
      ghost var m0 := model;
      for q := 0 to |conds|
        invariant ClientLoop(h, c, conds, q).Ok?
        invariant model == m0.(cons := m0.cons + ClientLoop(h, c, conds, q).value)
      {
        var more := h(c, conds[q]);
        if more.Err? {
          ClientLoopErr(h, c, conds, q + 1, |conds|);
          return Some(more.error);
        }
        AppendAssoc(m0.cons, ClientLoop(h, c, conds, q).value, more.value);
        model := model.(cons := model.cons + more.value);
      }
      return None;
    }

    /** `__apply_room_constraints`: the conditions filed under every room, in filing order,
        each dispatched through the room table. */
    method ApplyRoomConstraints() returns (failure: Option<Error>)
      requires assessments.Some?
      modifies this`model
      ensures var spec := RoomPhase(Rooms(Ctx(old(model).maps, Shape(schedules), timeStart, maxGap), assessments.value),
                                    conditionsPerRoom, |conditionsPerRoom|);
        (failure.None? <==> spec.Ok?) && (failure.Some? ==> failure.value == spec.error) &&
        (failure.None? ==> model == old(model).(cons := old(model).cons + spec.value))
    {
      failure := ApplyEveryRoom(Rooms(Ctx(model.maps, Shape(schedules), timeStart, maxGap), assessments.value), conditionsPerRoom);
    }

    /** The room loop of `__apply_room_constraints`. */
    method ApplyEveryRoom(h: RoomHandler, perRoom: Dict<int, seq<Condition>>) returns (failure: Option<Error>)
      modifies this`model
      ensures var spec := RoomPhase(h, perRoom, |perRoom|);
        (failure.None? <==> spec.Ok?) && (failure.Some? ==> failure.value == spec.error) &&
        (failure.None? ==> model == old(model).(cons := old(model).cons + spec.value))
    {
      ghost var m0 := model;
      for e := 0 to |perRoom|
        invariant RoomPhase(h, perRoom, e).Ok?
        invariant model == m0.(cons := m0.cons + RoomPhase(h, perRoom, e).value)
      {
        ghost var prev := RoomPhase(h, perRoom, e).value;
        failure := ApplyRoomConditions(h, perRoom[e].1);
        if failure.Some? {
          RoomPhaseErr(h, perRoom, e + 1, |perRoom|);
          return;
        }
        AppendAssoc(m0.cons, prev, RoomLoop(h, perRoom[e].1, |perRoom[e].1|).value);
      }
      return None;
    }

    /** The inner loop of `__apply_room_constraints`: one room's conditions in turn. */
    method ApplyRoomConditions(h: RoomHandler, conds: seq<Condition>) returns (failure: Option<Error>)
      modifies this`model
      ensures var spec := RoomLoop(h, conds, |conds|);
        (failure.None? <==> spec.Ok?) && (failure.Some? ==> failure.value == spec.error) &&
        (failure.None? ==> model == old(model).(cons := old(model).cons + spec.value))
    {
      ghost var m0 := model;
      for q := 0 to |conds|
        invariant RoomLoop(h, conds, q).Ok?
        invariant model == m0.(cons := m0.cons + RoomLoop(h, conds, q).value)
      {
        var more := h(conds[q]);
        if more.Err? {
          RoomLoopErr(h, conds, q + 1, |conds|);
          return Some(more.error);
        }
        AppendAssoc(m0.cons, RoomLoop(h, conds, q).value, more.value);
        model := model.(cons := model.cons + more.value);
      }
      return None;
    }

    /** `generate` up to the solve: the assessments must be set, then each phase runs in turn
        and the first exception stops the rest. */
    method Generate() returns (failure: Option<Error>)
      modifies this`schedules, this`clientsPerAssessment, this`conditionsPerRoom, this`conditionsPerAssessment, this`model
      ensures assessments.None? ==> failure == Some(AssertionError("Invalid assessments")) && unchanged(this)
      ensures assessments.Some? ==>
        && schedules == old(schedules) + Schedules(assessments.value)
        && clientsPerAssessment == ClientIds(old(clientsPerAssessment), assessments.value)
        && conditionsPerRoom == RoomConds(old(conditionsPerRoom), assessments.value)
        && conditionsPerAssessment == AssessmentConds(old(conditionsPerAssessment), assessments.value)
      ensures assessments.Some? ==>
        var spec := Generated(old(model), assessments.value, schedules, clientsPerAssessment, conditionsPerAssessment,
                              conditionsPerRoom, Settings(), timeStart, numFloors);
        (failure.None? <==> spec.Ok?) && (failure.Some? ==> failure.value == spec.error) &&
        (failure.None? ==> model == spec.value)
    {
      if assessments.None? {
        return Some(AssertionError("Invalid assessments"));
      }
      InitializeVariables();
      failure := DefineVariables();
      if failure.Some? {
        return;
      }
      failure := ApplyGeneralConstraints();
      if failure.Some? {
        return;
      }
      failure := ApplyActivityConstraints();
      if failure.Some? {
        return;
      }
      failure := ApplyRoomConstraints();
      if failure.Some? {
        return;
      }
      failure := DefineObjective();
    }

    /** `__define_objective`: the makespan, between 0 and the horizon, is the largest recorded
        last end and is minimised. */
    method DefineObjective() returns (failure: Option<Error>)
      requires assessments.Some?
      modifies this`model
      ensures var spec := Objective(old(model), assessments.value, horizon);
        (failure.None? <==> spec.Ok?) && (failure.Some? ==> failure.value == spec.error) &&
        (failure.None? ==> model == spec.value)
    {
      if |model.lastEnds| != Sum(Quantities(assessments.value)) {
        return Some(AssertionError("Invalid number of last activities"));
      }
      if None in model.lastEnds {
        return Some(TypeError);
      }
      model := model.(decls := model.decls + [IntVar(Makespan, 0, horizon)]);
      model := model.(cons := model.cons + [MaxEquality(Makespan, Somes(model.lastEnds)), Minimize(V(Makespan))]);
      return None;
    }
  }
}
