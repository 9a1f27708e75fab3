/** How the earlier scheduler (the top-level `solver.py`) turns its assessments into per-client
    slot lists before any CP-SAT variable exists.  Every (activity, room) option of an assessment
    starts in one shared pool; an activity with an ORDER condition is pinned to one slot and its
    options leave the pool; every slot left empty then takes what remains of the pool. */
module LegacySchedule {
  import opened Wrappers
  import opened PyDict
  import opened PyList
  import opened Kwargs
  import opened Text
  import opened Models
  import SS = ScheduleSpec

  /** The solver's `task_type` namedtuple (duration, activity id, room id, room floor). */
  type Task = SS.Task

  function TaskOf(act: Activity, ar: ActivityRoom): Task {
    SS.Task(ar.duration, act.id, ar.room.id, ar.room.floor)
  }

  /** The options of one activity, one per room it can take place in. */
  function RoomTasks(act: Activity): (r: seq<Task>)
    ensures |r| == |act.rooms| && forall k :: 0 <= k < |r| ==> r[k] == TaskOf(act, act.rooms[k])
  {
    seq(|act.rooms|, k requires 0 <= k < |act.rooms| => TaskOf(act, act.rooms[k]))
  }

  /** The shared pool before pinning: every option of every activity, in order. */
  function Pool(acts: seq<Activity>): seq<Task> {
    if acts == [] then [] else Pool(acts[..|acts| - 1]) + RoomTasks(acts[|acts| - 1])
  }

  /** `int(v)`: ints and bools convert, a string parses as a base-10 numeral (`Text.ParseInt`),
      anything else raises. */
  function PyInt(v: Value): (r: Result<int>)
    ensures v.IntV? ==> r == Ok(v.i)
    ensures v.StrV? ==> r.Ok? == ParseInt(v.s).Some? && (r.Err? ==> r.error.ValueError?)
    ensures v.NoneV? || v.ListV? || v.TimeV? ==> r == Err(TypeError)
  {
    match v
    case IntV(i) => Ok(i)
    case BoolV(b) => Ok(if b then 1 else 0)
    case StrV(s) => if ParseInt(s).Some? then Ok(ParseInt(s).value) else Err(ValueError("invalid literal for int()"))
    case _ => Err(TypeError)
  }

  /** `condition.args.get('order', -1)`. */
  function OrderArg(cond: Condition): Value {
    match Get(cond.args, "order")
    case Some(v) => v
    case None => IntV(-1)
  }

  predicate IsOrderCondition(cond: Condition) {
    cond.optionType == OptionTypeMember("ORDER")
  }

  /** The slot an ORDER condition pins its activity to: the order as an int, one earlier for
      BEFORE and one later for AFTER.  A missing or negative order is refused. */
  function PinnedSlot(cond: Condition): (r: Result<int>)
    ensures Get(cond.args, "order").None? ==> r == Err(ValueError("Invalid order argument provided"))
    ensures PyInt(OrderArg(cond)).Ok? && PyInt(OrderArg(cond)).value < 0 ==> r == Err(ValueError("Invalid order argument provided"))
    ensures r.Ok? ==> PyInt(OrderArg(cond)).Ok? && PyInt(OrderArg(cond)).value >= 0
    ensures r.Ok? && cond.option == OptionMember("BEFORE") ==> r.value == PyInt(OrderArg(cond)).value - 1
    ensures r.Ok? && cond.option == OptionMember("AFTER") ==> r.value == PyInt(OrderArg(cond)).value + 1
    ensures r.Ok? && cond.option != OptionMember("BEFORE") && cond.option != OptionMember("AFTER") ==>
      r.value == PyInt(OrderArg(cond)).value
  {
    var order :- PyInt(OrderArg(cond));
    if order < 0 then Err(ValueError("Invalid order argument provided"))
    else if cond.option == OptionMember("BEFORE") then Ok(order - 1)
    else if cond.option == OptionMember("AFTER") then Ok(order + 1)
    else Ok(order)
  }

  /** The per-slot lists and the shared pool while pinning. */
  datatype Pinning = Pinning(slots: seq<seq<Task>>, pool: seq<Task>)

  /** Pinning the first `n` options of `act` to slot `s`: each is appended to the slot (a
      negative `s` counts from the end) and removed from the pool. */
  function PinRooms(p: Pinning, act: Activity, s: int, n: nat): Result<Pinning>
    requires n <= |act.rooms|
  {
    if n == 0 then Ok(p)
    else
      var q :- PinRooms(p, act, s, n - 1);
      var t := TaskOf(act, act.rooms[n - 1]);
      var at :- Index(|q.slots|, s);
      var pool :- Remove(q.pool, t);
      Ok(Pinning(q.slots[at := q.slots[at] + [t]], pool))
  }

  /** The first `n` conditions of `act`: each ORDER condition pins all of the activity's options. */
  function PinConds(p: Pinning, act: Activity, n: nat): Result<Pinning>
    requires n <= |act.conditions|
  {
    if n == 0 then Ok(p)
    else
      var q :- PinConds(p, act, n - 1);
      var cond := act.conditions[n - 1];
      if !IsOrderCondition(cond) then Ok(q)
      else
        var s :- PinnedSlot(cond);
        PinRooms(q, act, s, |act.rooms|)
  }

  /** The first `n` activities, in order. */
  function PinActs(p: Pinning, acts: seq<Activity>, n: nat): Result<Pinning>
    requires n <= |acts|
  {
    if n == 0 then Ok(p)
    else
      var q :- PinActs(p, acts, n - 1);
      PinConds(q, acts[n - 1], |acts[n - 1].conditions|)
  }

  /** An assessment after pinning: one empty slot per activity and the full pool to start. */
  function Pinned(a: Assessment): Result<Pinning> {
    PinActs(Pinning(Repeat([], |a.activities|), Pool(a.activities)), a.activities, |a.activities|)
  }

  /** A slot keeps what was pinned to it; an empty one takes the remaining pool. */
  function Fill(slots: seq<seq<Task>>, pool: seq<Task>): (r: seq<seq<Task>>)
    ensures |r| == |slots| && forall i :: 0 <= i < |slots| ==> r[i] == if slots[i] != [] then slots[i] else pool
  {
    seq(|slots|, i requires 0 <= i < |slots| => if slots[i] != [] then slots[i] else pool)
  }

  /** The slot list every client of assessment `a` gets. */
  function ScheduleOf(a: Assessment): Result<seq<seq<Task>>> {
    var p :- Pinned(a);
    Ok(Fill(p.slots, p.pool))
  }

  /** The running `previous_assessment_quantity`: the sum of the quantities so far. */
  function Offset(xs: seq<Assessment>): int {
    if xs == [] then 0 else Offset(xs[..|xs| - 1]) + xs[|xs| - 1].quantity
  }

  /** The slot lists and `__clients_per_assessment` after `__initialize_variables`. */
  datatype Init = Init(schedules: seq<seq<seq<Task>>>, clients: Dict<int, seq<int>>)

  /** `__initialize_variables` over assessments `0 .. k - 1`, starting from slot lists `s0` and
      client ids `c0`: each assessment's slot list, `quantity` times, and its id extended with
      the next `quantity` client ids. */
  function InitUpTo(s0: seq<seq<seq<Task>>>, c0: Dict<int, seq<int>>, xs: seq<Assessment>, k: nat): Result<Init>
    requires k <= |xs|
  {
    if k == 0 then Ok(Init(s0, c0))
    else
      var prev :- InitUpTo(s0, c0, xs, k - 1);
      var sched :- ScheduleOf(xs[k - 1]);
      var off := Offset(xs[..k - 1]);
      Ok(Init(prev.schedules + Repeat(sched, xs[k - 1].quantity),
              Extend(prev.clients, xs[k - 1].id, Range(off, off + xs[k - 1].quantity))))
  }

  /** The ids appended under `id` over assessments `0 .. k - 1`: the client range of each
      assessment with that id, in order. */
  function IdsFor(xs: seq<Assessment>, k: nat, id: int): seq<int>
    requires k <= |xs|
  {
    if k == 0 then []
    else IdsFor(xs, k - 1, id) + if xs[k - 1].id == id then Range(Offset(xs[..k - 1]), Offset(xs[..k - 1]) + xs[k - 1].quantity) else []
  }

  /** After assessments `0 .. n - 1`, every id's list is its list in `c0` followed by the ids
      appended under it. */
  lemma {:induction false} InitIds(s0: seq<seq<seq<Task>>>, c0: Dict<int, seq<int>>, xs: seq<Assessment>, n: nat)
    requires n <= |xs| && InitUpTo(s0, c0, xs, n).Ok?
    ensures forall id :: GetList(InitUpTo(s0, c0, xs, n).value.clients, id) == GetList(c0, id) + IdsFor(xs, n, id)
  {
    if n == 0 {
      forall id ensures GetList(c0, id) == GetList(c0, id) + IdsFor(xs, 0, id) {
        assert GetList(c0, id) + [] == GetList(c0, id);
      }
    } else {
      var prev, _ := InitNext(s0, c0, xs, n);
      InitIds(s0, c0, xs, n - 1);
      ExtendIds(c0, prev.clients, xs, n);
    }
  }

  /** Extending the lists of assessment `k - 1`'s id by its client range moves every id's list
      from `IdsFor(xs, k - 1, _)` to `IdsFor(xs, k, _)`. */
  lemma ExtendIds(c0: Dict<int, seq<int>>, prev: Dict<int, seq<int>>, xs: seq<Assessment>, k: nat)
    requires 0 < k <= |xs|
    requires forall id :: GetList(prev, id) == GetList(c0, id) + IdsFor(xs, k - 1, id)
    ensures forall id ::
      GetList(Extend(prev, xs[k - 1].id, Range(Offset(xs[..k - 1]), Offset(xs[..k - 1]) + xs[k - 1].quantity)), id) ==
        GetList(c0, id) + IdsFor(xs, k, id)
  {
    forall id
      ensures GetList(Extend(prev, xs[k - 1].id, Range(Offset(xs[..k - 1]), Offset(xs[..k - 1]) + xs[k - 1].quantity)), id)
        == GetList(c0, id) + IdsFor(xs, k, id)
    {
      ExtendId(c0, prev, xs, k, id);
    }
  }

  lemma ExtendId(c0: Dict<int, seq<int>>, prev: Dict<int, seq<int>>, xs: seq<Assessment>, k: nat, id: int)
    requires 0 < k <= |xs|
    requires GetList(prev, id) == GetList(c0, id) + IdsFor(xs, k - 1, id)
    ensures GetList(Extend(prev, xs[k - 1].id, Range(Offset(xs[..k - 1]), Offset(xs[..k - 1]) + xs[k - 1].quantity)), id)
      == GetList(c0, id) + IdsFor(xs, k, id)
  {
    var more := Range(Offset(xs[..k - 1]), Offset(xs[..k - 1]) + xs[k - 1].quantity);
    SS.AppendExtendLookup(prev, xs[k - 1].id, more, id);
    if id == xs[k - 1].id {
      AppendAssoc(GetList(c0, id), IdsFor(xs, k - 1, id), more);
    } else {
      assert IdsFor(xs, k - 1, id) + [] == IdsFor(xs, k - 1, id);
    }
  }

  // What pinning does.

  /** Everything held by the slots and the pool. */
  function Held(p: Pinning): multiset<Task> {
    multiset(Flatten(p.slots)) + multiset(p.pool)
  }

  lemma {:induction false} FlattenAppendAt<T>(s: seq<seq<T>>, j: int, ys: seq<T>)
    requires 0 <= j < |s|
    ensures multiset(Flatten(s[j := s[j] + ys])) == multiset(Flatten(s)) + multiset(ys)
  {
    var s' := s[j := s[j] + ys];
    if j == 0 {
      assert s'[1..] == s[1..];
    } else {
      FlattenAppendAt(s[1..], j - 1, ys);
      assert s'[1..] == s[1..][j - 1 := s[j] + ys];
    }
  }

  /** Pinning `n` options of an activity appends them, in order, to the one slot `s` names and
      leaves every other slot alone; it fails with IndexError when `s` is outside the slot list. */
  lemma {:induction false} PinRoomsSlots(p: Pinning, act: Activity, s: int, n: nat)
    requires 0 < n <= |act.rooms| && PinRooms(p, act, s, n).Ok?
    ensures Index(|p.slots|, s).Ok?
    ensures var at := Index(|p.slots|, s).value;
      PinRooms(p, act, s, n).value.slots == p.slots[at := p.slots[at] + RoomTasks(act)[..n]]
  {
    var q := PinRooms(p, act, s, n - 1).value;
    var t := TaskOf(act, act.rooms[n - 1]);
    var tasks := RoomTasks(act);
    assert tasks[..n] == tasks[..n - 1] + [t];
    if n > 1 {
      PinRoomsSlots(p, act, s, n - 1);
      var at := Index(|p.slots|, s).value;
      assert q.slots == p.slots[at := p.slots[at] + tasks[..n - 1]];
      assert Index(|q.slots|, s) == Index(|p.slots|, s);
      assert q.slots[at] == p.slots[at] + tasks[..n - 1];
      assert p.slots[at] + tasks[..n - 1] + [t] == p.slots[at] + tasks[..n];
      assert q.slots[at := q.slots[at] + [t]] == p.slots[at := p.slots[at] + tasks[..n]];
    } else {
      assert tasks[..n - 1] == [];
      assert q == p;
      assert tasks[..n] == [t];
    }
  }

  /** Each pinned option is taken out of the pool once. */
  lemma {:induction false} PinRoomsPool(p: Pinning, act: Activity, s: int, n: nat)
    requires n <= |act.rooms| && PinRooms(p, act, s, n).Ok?
    ensures multiset(PinRooms(p, act, s, n).value.pool) + multiset(RoomTasks(act)[..n]) == multiset(p.pool)
  {
    if n > 0 {
      var q := PinRooms(p, act, s, n - 1).value;
      var t := TaskOf(act, act.rooms[n - 1]);
      var tasks := RoomTasks(act);
      var pool := PinRooms(p, act, s, n).value.pool;
      assert pool == Remove(q.pool, t).value;
      assert tasks[..n] == tasks[..n - 1] + [t];
      assert multiset(tasks[..n]) == multiset(tasks[..n - 1]) + multiset{t};
      PinRoomsPool(p, act, s, n - 1);
      RemoveOne(q.pool, t);
      assert multiset(pool) + multiset{t} == multiset(q.pool);
    } else {
      assert RoomTasks(act)[..0] == [];
    }
  }

  /** A slot outside the slot list raises IndexError; otherwise only an option that is no longer
      in the pool can make pinning fail, with ValueError. */
  lemma {:induction false} PinRoomsErr(p: Pinning, act: Activity, s: int, n: nat)
    requires 0 < n <= |act.rooms|
    ensures Index(|p.slots|, s).Err? ==> PinRooms(p, act, s, n) == Err(IndexError)
    ensures PinRooms(p, act, s, n).Err? ==> PinRooms(p, act, s, n).error == IndexError || PinRooms(p, act, s, n).error.ValueError?
    ensures Index(|p.slots|, s).Ok? && (forall k :: 0 <= k < n ==> TaskOf(act, act.rooms[k]) !in p.pool) ==>
      PinRooms(p, act, s, n).Err? && PinRooms(p, act, s, n).error.ValueError?
  {
    if n > 1 {
      PinRoomsErr(p, act, s, n - 1);
      if PinRooms(p, act, s, n - 1).Ok? {
        PinRoomsSlots(p, act, s, n - 1);
        PinRoomsPool(p, act, s, n - 1);
      }
    }
  }

  /** Pinning moves options from the pool to the slots: nothing is lost or made up. */
  lemma {:induction false} PinRoomsHeld(p: Pinning, act: Activity, s: int, n: nat)
    requires n <= |act.rooms| && PinRooms(p, act, s, n).Ok?
    ensures Held(PinRooms(p, act, s, n).value) == Held(p)
    ensures |PinRooms(p, act, s, n).value.slots| == |p.slots|
  {
    if n > 0 {
      var r := PinRooms(p, act, s, n).value;
      var tasks := RoomTasks(act)[..n];
      PinRoomsSlots(p, act, s, n);
      PinRoomsPool(p, act, s, n);
      var at := Index(|p.slots|, s).value;
      FlattenAppendAt(p.slots, at, tasks);
      assert multiset(Flatten(r.slots)) == multiset(Flatten(p.slots)) + multiset(tasks);
    }
  }

  lemma {:induction false} PinCondsHeld(p: Pinning, act: Activity, n: nat)
    requires n <= |act.conditions| && PinConds(p, act, n).Ok?
    ensures Held(PinConds(p, act, n).value) == Held(p)
    ensures |PinConds(p, act, n).value.slots| == |p.slots|
  {
    if n > 0 {
      PinCondsHeld(p, act, n - 1);
      var q := PinConds(p, act, n - 1).value;
      var cond := act.conditions[n - 1];
      if IsOrderCondition(cond) {
        PinRoomsHeld(q, act, PinnedSlot(cond).value, |act.rooms|);
      }
    }
  }

  lemma {:induction false} PinActsHeld(p: Pinning, acts: seq<Activity>, n: nat)
    requires n <= |acts| && PinActs(p, acts, n).Ok?
    ensures Held(PinActs(p, acts, n).value) == Held(p)
    ensures |PinActs(p, acts, n).value.slots| == |p.slots|
  {
    if n > 0 {
      PinActsHeld(p, acts, n - 1);
      PinCondsHeld(PinActs(p, acts, n - 1).value, acts[n - 1], |acts[n - 1].conditions|);
    }
  }

  lemma {:induction false} FlattenEmpty<T>(n: int)
    ensures Flatten(Repeat<seq<T>>([], n)) == []
    decreases if n > 0 then n else 0
  {
    if n > 0 {
      assert Repeat<seq<T>>([], n)[1..] == Repeat<seq<T>>([], n - 1);
      FlattenEmpty<T>(n - 1);
    }
  }

  /** After pinning, every option of the assessment is either in exactly the slot it was pinned
      to or still in the pool, once for every time the assessment lists it; there is one slot
      per activity. */
  lemma PinnedKeepsOptions(a: Assessment)
    requires Pinned(a).Ok?
    ensures Held(Pinned(a).value) == multiset(Pool(a.activities))
    ensures |Pinned(a).value.slots| == |a.activities|
  {
    FlattenEmpty<Task>(|a.activities|);
    PinActsHeld(Pinning(Repeat([], |a.activities|), Pool(a.activities)), a.activities, |a.activities|);
  }

  // Without ORDER conditions nothing is pinned.

  predicate NoOrderConditions(acts: seq<Activity>) {
    forall j, i :: 0 <= j < |acts| && 0 <= i < |acts[j].conditions| ==> !IsOrderCondition(acts[j].conditions[i])
  }

  lemma {:induction false} PinCondsNone(p: Pinning, act: Activity, n: nat)
    requires n <= |act.conditions|
    requires forall i :: 0 <= i < |act.conditions| ==> !IsOrderCondition(act.conditions[i])
    ensures PinConds(p, act, n) == Ok(p)
  {
    if n > 0 { PinCondsNone(p, act, n - 1); }
  }

  lemma {:induction false} PinActsNone(p: Pinning, acts: seq<Activity>, n: nat)
    requires n <= |acts| && NoOrderConditions(acts)
    ensures PinActs(p, acts, n) == Ok(p)
  {
    if n > 0 {
      PinActsNone(p, acts, n - 1);
      PinCondsNone(p, acts[n - 1], |acts[n - 1].conditions|);
    }
  }

  /** An assessment without ORDER conditions gives every slot the whole pool, as the current
      scheduler does for every assessment. */
  lemma NoOrderSharesPool(a: Assessment)
    requires NoOrderConditions(a.activities)
    ensures ScheduleOf(a) == Ok(Repeat(Pool(a.activities), |a.activities|))
  {
    var n := |a.activities|;
    PinActsNone(Pinning(Repeat([], n), Pool(a.activities)), a.activities, n);
    assert Fill(Repeat([], n), Pool(a.activities)) == Repeat(Pool(a.activities), n);
  }

  // Client ranges.

  predicate QuantitiesNonNegative(xs: seq<Assessment>) {
    forall i :: 0 <= i < |xs| ==> xs[i].quantity >= 0
  }

  predicate IdsDistinct(xs: seq<Assessment>) {
    forall i, j :: 0 <= i < j < |xs| ==> xs[i].id != xs[j].id
  }

  lemma {:induction false} InitLength(s0: seq<seq<seq<Task>>>, c0: Dict<int, seq<int>>, xs: seq<Assessment>, k: nat)
    requires k <= |xs| && QuantitiesNonNegative(xs) && InitUpTo(s0, c0, xs, k).Ok?
    ensures |InitUpTo(s0, c0, xs, k).value.schedules| == |s0| + Offset(xs[..k])
  {
    if k > 0 {
      var prev, sched := InitNext(s0, c0, xs, k);
      InitLength(s0, c0, xs, k - 1);
      assert xs[..k][..k - 1] == xs[..k - 1];
    }
  }

  /** One more assessment after a successful run over the first `k`. */
  lemma InitSnoc(s0: seq<seq<seq<Task>>>, c0: Dict<int, seq<int>>, xs: seq<Assessment>, k: nat, prev: Init, sched: seq<seq<Task>>)
    requires k < |xs| && InitUpTo(s0, c0, xs, k) == Ok(prev) && ScheduleOf(xs[k]) == Ok(sched)
    ensures InitUpTo(s0, c0, xs, k + 1) ==
      Ok(Init(prev.schedules + Repeat(sched, xs[k].quantity),
              Extend(prev.clients, xs[k].id, Range(Offset(xs[..k]), Offset(xs[..k]) + xs[k].quantity))))
  {
  }

  /** After a successful run over `n` assessments, the run over the first `n - 1` succeeded,
      assessment `n - 1`'s slot list was built, and the last step appended and extended. */
  lemma InitNext(s0: seq<seq<seq<Task>>>, c0: Dict<int, seq<int>>, xs: seq<Assessment>, n: nat)
    returns (prev: Init, sched: seq<seq<Task>>)
    requires 0 < n <= |xs| && InitUpTo(s0, c0, xs, n).Ok?
    ensures InitUpTo(s0, c0, xs, n - 1) == Ok(prev) && ScheduleOf(xs[n - 1]) == Ok(sched)
    ensures InitUpTo(s0, c0, xs, n).value.schedules == prev.schedules + Repeat(sched, xs[n - 1].quantity)
    ensures InitUpTo(s0, c0, xs, n).value.clients ==
      Extend(prev.clients, xs[n - 1].id, Range(Offset(xs[..n - 1]), Offset(xs[..n - 1]) + xs[n - 1].quantity))
  {
    prev := InitUpTo(s0, c0, xs, n - 1).value;
    sched := ScheduleOf(xs[n - 1]).value;
  }

  /** With no quantity negative, assessment `k`'s clients are the ids `Offset(xs[..k])` up to
      `Offset(xs[..k + 1])`, and each of them gets that assessment's slot list. */
  lemma {:induction false} InitScheduleAt(s0: seq<seq<seq<Task>>>, c0: Dict<int, seq<int>>, xs: seq<Assessment>, n: nat, k: int, c: int)
    requires n <= |xs| && QuantitiesNonNegative(xs) && InitUpTo(s0, c0, xs, n).Ok?
    requires 0 <= k < n && Offset(xs[..k]) <= c < Offset(xs[..k + 1])
    ensures ScheduleOf(xs[k]).Ok? && 0 <= |s0| + c < |InitUpTo(s0, c0, xs, n).value.schedules| &&
      InitUpTo(s0, c0, xs, n).value.schedules[|s0| + c] == ScheduleOf(xs[k]).value
  {
    if k < n - 1 {
      var prev, sched := InitNext(s0, c0, xs, n);
      InitLength(s0, c0, xs, n - 1);
      InitScheduleAt(s0, c0, xs, n - 1, k, c);
      OffsetMonotone(xs, k + 1, n - 1);
      assert |s0| + c < |prev.schedules|;
      AppendedAt(prev.schedules, sched, xs[n - 1].quantity, |s0| + c);
      assert prev.schedules[|s0| + c] == ScheduleOf(xs[k]).value;
    } else {
      InitScheduleLast(s0, c0, xs, n, c);
    }
  }

  /** The clients of the last assessment get its slot list. */
  lemma InitScheduleLast(s0: seq<seq<seq<Task>>>, c0: Dict<int, seq<int>>, xs: seq<Assessment>, n: nat, c: int)
    requires 0 < n <= |xs| && QuantitiesNonNegative(xs) && InitUpTo(s0, c0, xs, n).Ok?
    requires Offset(xs[..n - 1]) <= c < Offset(xs[..n])
    ensures ScheduleOf(xs[n - 1]).Ok? && 0 <= |s0| + c < |InitUpTo(s0, c0, xs, n).value.schedules| &&
      InitUpTo(s0, c0, xs, n).value.schedules[|s0| + c] == ScheduleOf(xs[n - 1]).value
  {
    var prev, sched := InitNext(s0, c0, xs, n);
    var q := xs[n - 1].quantity;
    InitLength(s0, c0, xs, n - 1);
    OffsetMonotone(xs, 0, n - 1);
    assert xs[..0] == [];
    assert xs[..n][..n - 1] == xs[..n - 1];
    assert |prev.schedules| <= |s0| + c < |prev.schedules| + q;
    AppendedAt(prev.schedules, sched, q, |s0| + c);
  }

  /** An index into a list with `q` copies of `x` appended lands in the old list or on `x`. */
  lemma AppendedAt<T>(before: seq<T>, x: T, q: int, i: int)
    requires 0 <= i < |before| + (if q > 0 then q else 0)
    ensures 0 <= i < |before + Repeat(x, q)|
    ensures (before + Repeat(x, q))[i] == if i < |before| then before[i] else x
  {
  }

  lemma {:induction false} OffsetMonotone(xs: seq<Assessment>, i: int, j: int)
    requires QuantitiesNonNegative(xs) && 0 <= i <= j <= |xs|
    ensures Offset(xs[..i]) <= Offset(xs[..j])
    decreases j - i
  {
    if i < j {
      assert xs[..j][..j - 1] == xs[..j - 1];
      OffsetMonotone(xs, i, j - 1);
    }
  }

  /** With distinct ids, assessment `k`'s entry of `__clients_per_assessment` is its entry in
      `c0` followed by its client range. */
  lemma InitClientsOf(s0: seq<seq<seq<Task>>>, c0: Dict<int, seq<int>>, xs: seq<Assessment>, n: nat, k: int)
    requires n <= |xs| && IdsDistinct(xs) && InitUpTo(s0, c0, xs, n).Ok?
    requires 0 <= k < n
    ensures GetList(InitUpTo(s0, c0, xs, n).value.clients, xs[k].id) == GetList(c0, xs[k].id) + Range(Offset(xs[..k]), Offset(xs[..k + 1]))
  {
    InitIds(s0, c0, xs, n);
    IdsForDistinct(xs, n, k);
  }

  lemma InitClientsMissing(s0: seq<seq<seq<Task>>>, c0: Dict<int, seq<int>>, xs: seq<Assessment>, n: nat, id: int)
    requires n <= |xs| && InitUpTo(s0, c0, xs, n).Ok?
    requires forall j :: 0 <= j < n ==> xs[j].id != id
    ensures GetList(InitUpTo(s0, c0, xs, n).value.clients, id) == GetList(c0, id)
  {
    InitIds(s0, c0, xs, n);
    IdsForMissing(xs, n, id);
    assert GetList(c0, id) + [] == GetList(c0, id);
  }

  /** With distinct ids, the only ids appended under assessment `k`'s id are its client range. */
  lemma {:induction false} IdsForDistinct(xs: seq<Assessment>, n: nat, k: int)
    requires n <= |xs| && IdsDistinct(xs) && 0 <= k < n
    ensures IdsFor(xs, n, xs[k].id) == Range(Offset(xs[..k]), Offset(xs[..k + 1]))
  {
    var id := xs[k].id;
    if k < n - 1 {
      assert id != xs[n - 1].id;
      IdsForDistinct(xs, n - 1, k);
      assert IdsFor(xs, n - 1, id) + [] == IdsFor(xs, n - 1, id);
    } else {
      assert k == n - 1 && xs[..k + 1][..k] == xs[..k];
      assert Offset(xs[..k + 1]) == Offset(xs[..k]) + xs[k].quantity;
      IdsForMissing(xs, n - 1, id);
    }
  }

  /** No ids are appended under an id that no assessment has. */
  lemma {:induction false} IdsForMissing(xs: seq<Assessment>, n: nat, id: int)
    requires n <= |xs| && forall j :: 0 <= j < n ==> xs[j].id != id
    ensures IdsFor(xs, n, id) == []
  {
    if n > 0 {
      IdsForMissing(xs, n - 1, id);
    }
  }

  /** The first assessment whose failure stops the loop decides its outcome. */
  lemma {:induction false} InitErrPersists(s0: seq<seq<seq<Task>>>, c0: Dict<int, seq<int>>, xs: seq<Assessment>, k: nat, n: nat)
    requires k <= n <= |xs| && InitUpTo(s0, c0, xs, k).Err?
    ensures InitUpTo(s0, c0, xs, n) == InitUpTo(s0, c0, xs, k)
    decreases n - k
  {
    if k < n { InitErrPersists(s0, c0, xs, k + 1, n); }
  }

  /** A failure while pinning an activity's options, its conditions or the activities stops the
      loop: the later steps keep it. */
  lemma {:induction false} PinRoomsStops(p: Pinning, act: Activity, s: int, k: nat, n: nat)
    requires k <= n <= |act.rooms| && PinRooms(p, act, s, k).Err?
    ensures PinRooms(p, act, s, n) == PinRooms(p, act, s, k)
    decreases n - k
  {
    if k < n { PinRoomsStops(p, act, s, k + 1, n); }
  }

  lemma {:induction false} PinCondsStops(p: Pinning, act: Activity, k: nat, n: nat)
    requires k <= n <= |act.conditions| && PinConds(p, act, k).Err?
    ensures PinConds(p, act, n) == PinConds(p, act, k)
    decreases n - k
  {
    if k < n { PinCondsStops(p, act, k + 1, n); }
  }

  lemma {:induction false} PinActsStops(p: Pinning, acts: seq<Activity>, k: nat, n: nat)
    requires k <= n <= |acts| && PinActs(p, acts, k).Err?
    ensures PinActs(p, acts, n) == PinActs(p, acts, k)
    decreases n - k
  {
    if k < n { PinActsStops(p, acts, k + 1, n); }
  }
}
