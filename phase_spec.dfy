/** The two condition phases of the current scheduler (`src/utils/solver.py`) as a whole:
    `__apply_activity_constraints` over every client's conditions and `__apply_room_constraints`
    over every room's conditions. The first exception stops the phase. */
module PhaseSpec {
  import opened Wrappers
  import opened PyDict
  import opened CpModel
  import opened SolverModel
  import opened ConditionSpec
  import opened RoomSpec
  import opened ScheduleSpec

  /** What handling one condition of client `c` yields: the constraints it adds, or the
      exception it raises. */
  type ClientHandler = (int, Condition) -> Result<seq<Constraint>>

  /** What handling one room condition yields. */
  type RoomHandler = Condition -> Result<seq<Constraint>>

  /** The activity dispatch table. */
  function Clients(x: Ctx): ClientHandler {
    (c, cond) => ActivityCondition(x, c, cond)
  }

  /** The room dispatch table. */
  function Rooms(x: Ctx, assessments: seq<Assessment>): RoomHandler {
    cond => RoomCondition(x, assessments, cond)
  }

  /** The conditions `conds[..n]` of client `c`, handled in order and their constraints
      concatenated; the first exception stops the loop. */
  function ClientLoop(h: ClientHandler, c: int, conds: seq<Condition>, n: nat): Result<seq<Constraint>>
    requires n <= |conds|
  {
    if n == 0 then Ok([])
    else
      var prev :- ClientLoop(h, c, conds, n - 1);
      var more :- h(c, conds[n - 1]);
      Ok(prev + more)
  }

  /** `__apply_activity_constraints` for clients `0 .. k - 1`: client `c`'s assessment is
      `owners[c]` (None has no `.id`: AttributeError), and its conditions are those
      `perAssessment` lists under that assessment's id. */
  function ActivityPhase(h: ClientHandler, owners: seq<Option<Assessment>>, perAssessment: Dict<int, seq<Condition>>, k: nat): Result<seq<Constraint>>
    requires k <= |owners|
  {
    if k == 0 then Ok([])
    else
      var prev :- ActivityPhase(h, owners, perAssessment, k - 1);
      var o := owners[k - 1];
      if o.None? then Err(AttributeError)
      else
        var conds := GetList(perAssessment, o.value.id);
        var more :- ClientLoop(h, k - 1, conds, |conds|);
        Ok(prev + more)
  }

  /** The room conditions `conds[..n]`, handled in order. */
  function RoomLoop(h: RoomHandler, conds: seq<Condition>, n: nat): Result<seq<Constraint>>
    requires n <= |conds|
  {
    if n == 0 then Ok([])
    else
      var prev :- RoomLoop(h, conds, n - 1);
      var more :- h(conds[n - 1]);
      Ok(prev + more)
  }

  /** `__apply_room_constraints` over the first `n` entries of `__conditions_per_room`, in
      filing order. */
  function RoomPhase(h: RoomHandler, perRoom: Dict<int, seq<Condition>>, n: nat): Result<seq<Constraint>>
    requires n <= |perRoom|
  {
    if n == 0 then Ok([])
    else
      var prev :- RoomPhase(h, perRoom, n - 1);
      var more :- RoomLoop(h, perRoom[n - 1].1, |perRoom[n - 1].1|);
      Ok(prev + more)
  }

  // Once a loop has raised, the later iterations change nothing.

  lemma {:induction false} ClientLoopErr(h: ClientHandler, c: int, conds: seq<Condition>, k: nat, n: nat)
    requires k <= n <= |conds|
    requires ClientLoop(h, c, conds, k).Err?
    ensures ClientLoop(h, c, conds, n) == ClientLoop(h, c, conds, k)
  {
    if n > k {
      ClientLoopErr(h, c, conds, k, n - 1);
    }
  }

  lemma {:induction false} ActivityPhaseErr(h: ClientHandler, owners: seq<Option<Assessment>>, perAssessment: Dict<int, seq<Condition>>, k: nat, n: nat)
    requires k <= n <= |owners|
    requires ActivityPhase(h, owners, perAssessment, k).Err?
    ensures ActivityPhase(h, owners, perAssessment, n) == ActivityPhase(h, owners, perAssessment, k)
  {
    if n > k {
      ActivityPhaseErr(h, owners, perAssessment, k, n - 1);
    }
  }

  lemma {:induction false} RoomLoopErr(h: RoomHandler, conds: seq<Condition>, k: nat, n: nat)
    requires k <= n <= |conds|
    requires RoomLoop(h, conds, k).Err?
    ensures RoomLoop(h, conds, n) == RoomLoop(h, conds, k)
  {
    if n > k {
      RoomLoopErr(h, conds, k, n - 1);
    }
  }

  lemma {:induction false} RoomPhaseErr(h: RoomHandler, perRoom: Dict<int, seq<Condition>>, k: nat, n: nat)
    requires k <= n <= |perRoom|
    requires RoomPhase(h, perRoom, k).Err?
    ensures RoomPhase(h, perRoom, n) == RoomPhase(h, perRoom, k)
  {
    if n > k {
      RoomPhaseErr(h, perRoom, k, n - 1);
    }
  }

  // A phase that succeeds applied every condition, each accepted by the dispatch table.

  /** A handler that succeeded and whose constraints all reached the model. */
  predicate Contributed(r: Result<seq<Constraint>>, model: seq<Constraint>) {
    r.Ok? && forall y :: y in r.value ==> y in model
  }

  lemma {:induction false} ClientLoopHas(h: ClientHandler, c: int, conds: seq<Condition>, n: nat, j: int)
    requires n <= |conds| && 0 <= j < n && ClientLoop(h, c, conds, n).Ok?
    ensures Contributed(h(c, conds[j]), ClientLoop(h, c, conds, n).value)
  {
    if j < n - 1 {
      ClientLoopHas(h, c, conds, n - 1, j);
    }
  }

  lemma {:induction false} ActivityPhaseRan(h: ClientHandler, owners: seq<Option<Assessment>>, perAssessment: Dict<int, seq<Condition>>, k: nat, c: int, j: int)
    requires 0 <= c < k <= |owners|
    requires ActivityPhase(h, owners, perAssessment, k).Ok?
    ensures owners[c].Some?
    ensures 0 <= j < |GetList(perAssessment, owners[c].value.id)| ==>
      Contributed(h(c, GetList(perAssessment, owners[c].value.id)[j]),
                  ActivityPhase(h, owners, perAssessment, k).value)
  {
    if c < k - 1 {
      ActivityPhaseRan(h, owners, perAssessment, k - 1, c, j);
    } else {
      var conds := GetList(perAssessment, owners[c].value.id);
      if 0 <= j < |conds| {
        ClientLoopHas(h, c, conds, |conds|, j);
      }
    }
  }

  /** After a successful activity phase every client had an assessment, and each of its
      conditions was accepted by the dispatch table and contributed all its constraints. */
  lemma ActivityPhaseHas(x: Ctx, owners: seq<Option<Assessment>>, perAssessment: Dict<int, seq<Condition>>, k: nat, c: int, j: int)
    requires 0 <= c < k <= |owners|
    requires ActivityPhase(Clients(x), owners, perAssessment, k).Ok?
    ensures owners[c].Some?
    ensures 0 <= j < |GetList(perAssessment, owners[c].value.id)| ==>
      var cond := GetList(perAssessment, owners[c].value.id)[j];
      && cond.scope == ValueOf("ACTIVITY") && ActivityAccepted(cond.option, cond.optionType)
      && Contributed(ActivityCondition(x, c, cond), ActivityPhase(Clients(x), owners, perAssessment, k).value)
  {
    ActivityPhaseRan(Clients(x), owners, perAssessment, k, c, j);
    var conds := GetList(perAssessment, owners[c].value.id);
    if 0 <= j < |conds| {
      ActivityDispatchTable(x, c, conds[j]);
    }
  }

  lemma {:induction false} RoomLoopHas(h: RoomHandler, conds: seq<Condition>, n: nat, j: int)
    requires n <= |conds| && 0 <= j < n && RoomLoop(h, conds, n).Ok?
    ensures Contributed(h(conds[j]), RoomLoop(h, conds, n).value)
  {
    if j < n - 1 {
      RoomLoopHas(h, conds, n - 1, j);
    }
  }

  lemma {:induction false} RoomPhaseRan(h: RoomHandler, perRoom: Dict<int, seq<Condition>>, n: nat, e: int, j: int)
    requires n <= |perRoom| && 0 <= e < n && 0 <= j < |perRoom[e].1|
    requires RoomPhase(h, perRoom, n).Ok?
    ensures Contributed(h(perRoom[e].1[j]), RoomPhase(h, perRoom, n).value)
  {
    if e < n - 1 {
      RoomPhaseRan(h, perRoom, n - 1, e, j);
    } else {
      RoomLoopHas(h, perRoom[e].1, |perRoom[e].1|, j);
    }
  }

  /** After a successful room phase every condition filed under every room was accepted by
      the room table and contributed all its constraints. */
  lemma RoomPhaseHas(x: Ctx, assessments: seq<Assessment>, perRoom: Dict<int, seq<Condition>>, n: nat, e: int, j: int)
    requires n <= |perRoom| && 0 <= e < n && 0 <= j < |perRoom[e].1|
    requires RoomPhase(Rooms(x, assessments), perRoom, n).Ok?
    ensures perRoom[e].1[j].scope == ValueOf("ROOM") && RoomAccepted(perRoom[e].1[j].option, perRoom[e].1[j].optionType)
    ensures Contributed(RoomCondition(x, assessments, perRoom[e].1[j]), RoomPhase(Rooms(x, assessments), perRoom, n).value)
  {
    RoomPhaseRan(Rooms(x, assessments), perRoom, n, e, j);
    assert !Refused(RoomCondition(x, assessments, perRoom[e].1[j]));
  }
}
