/** What `__define_variables` of the earlier scheduler (the top-level `solver.py`) emits for every
    slot of every client.  A slot with several options is declared and constrained exactly as in
    the current scheduler; a slot with one option fixes its floor to the floor of the loop
    variable `activity`, which at that point still holds the last option of the latest slot with
    several options (and is unbound if there was none yet). */
module LegacyVariables {
  import opened Wrappers
  import opened PyDict
  import opened PyList
  import opened CpModel
  import SS = ScheduleSpec
  import VS = VariableSpec

  type Task = SS.Task

  /** The variables `__activity_start_time_int_vars`, `__activity_end_time_int_vars`,
      `__activity_time_interval_vars` and `__activity_floor_bool_vars` hold under one key. */
  datatype ActivityVars = ActivityVars(start: Var, end: Var, interval: Var, floor: Var)

  /** The earlier scheduler's variable indexes.  Those keyed by `(client, slot)` and by the
      transfer pair hold exactly the variables named `Start(c, i)`, `TrLit(c, i, i + 1)` and so
      on, so they are represented by those names. */
  datatype Maps = Maps(
    perRoom: Dict<int, seq<Var>>,                    // __time_interval_vars_per_room
    perClient: Dict<int, seq<Var>>,                  // __time_interval_vars_per_client
    boolVars: Dict<(int, int), seq<Var>>,            // __activity_bool_vars
    slotRooms: Dict<(int, int, int), Var>,           // __activity_index_room_bool_vars
    byActivity: Dict<(int, int, int), ActivityVars>, // keyed (client, activity id, slot)
    transfers: Dict<(int, int, int), Var>)           // __transfer_time_interval_vars

  /** The model built so far: declarations, constraints, the indexes and
      `__last_activity_end_time_int_vars`. */
  datatype Build = Build(decls: seq<Decl>, cons: seq<Constraint>, maps: Maps, lastEnds: seq<Option<Var>>)

  const EmptyBuild := Build([], [], Maps([], [], [], [], [], []), [])

  /** The model and the loop variable `activity` of `__define_variables`, None while unbound. */
  datatype Defining = Defining(b: Build, activity: Option<Task>)

  function OptionMaps(m: Maps, c: int, i: int, k: int, t: Task): Maps {
    m.(perRoom := Append(m.perRoom, t.roomId, OptInterval(c, i, k)),
       perClient := Append(m.perClient, c, OptInterval(c, i, k)),
       slotRooms := Put(m.slotRooms, (c, i, t.roomId), OptLit(c, i, k)),
       boolVars := Append(m.boolVars, (c, t.id), OptLit(c, i, k)),
       byActivity := Put(m.byActivity, (c, t.id, i), ActivityVars(OptStart(c, i, k), OptEnd(c, i, k), OptInterval(c, i, k), OptFloor(c, i, k))))
  }

  /** The indexes after registering options `0 .. k - 1` of a multi-option slot. */
  function OptsMaps(m: Maps, c: int, i: int, opts: seq<Task>, k: nat): Maps
    requires k <= |opts|
  {
    if k == 0 then m else OptionMaps(OptsMaps(m, c, i, opts, k - 1), c, i, k - 1, opts[k - 1])
  }

  /** A single-option slot registers the slot's own variables and `NewConstant(1)` as its room
      literal. */
  function SingleMaps(m: Maps, c: int, i: int, t: Task): Maps {
    m.(byActivity := Put(m.byActivity, (c, t.id, i), ActivityVars(Start(c, i), End(c, i), Interval(c, i), Floor(c, i))),
       perRoom := Append(m.perRoom, t.roomId, Interval(c, i)),
       perClient := Append(m.perClient, c, Interval(c, i)),
       slotRooms := Put(m.slotRooms, (c, i, t.roomId), One),
       boolVars := Append(m.boolVars, (c, t.id), One))
  }

  /** The two `NewConstant(1)` calls of a single-option slot. */
  const SingleDecls: seq<Decl> := [Constant(One, 1), Constant(One, 1)]

  function SlotDecls(c: int, i: int, opts: seq<Task>, horizon: int, floors: int): seq<Decl>
    requires opts != []
  {
    VS.SlotDecls(c, i, opts, horizon, floors) +
    if |opts| > 1 then VS.OptsDecls(c, i, opts, |opts|, horizon, floors) else SingleDecls
  }

  /** A slot's constraints: those of the current scheduler when it has several options; with one
      option, the slot's floor is set to the floor of `activity`. */
  function SlotCons(c: int, i: int, opts: seq<Task>, activity: Option<Task>): seq<Constraint>
    requires opts != [] && (|opts| > 1 || activity.Some?)
  {
    if |opts| > 1 then VS.SlotCons(c, i, opts)
    else VS.AfterPrevious(c, i) + [Rule(V(Floor(c, i)), EQ, K(activity.value.roomFloor))]
  }

  function SlotMaps(m: Maps, c: int, i: int, opts: seq<Task>): Maps
    requires opts != []
  {
    if |opts| > 1 then OptsMaps(m, c, i, opts, |opts|) else SingleMaps(m, c, i, opts[0])
  }

  /** Slot `i` of client `c`: `activities[0]` raises IndexError on an empty slot, and reading
      the floor of a still unbound `activity` raises UnboundLocalError.  A multi-option slot's
      loops leave `activity` bound to its last option. */
  function Slot(d: Defining, c: int, i: int, opts: seq<Task>, horizon: int, floors: int): (r: Result<Defining>)
    ensures opts == [] ==> r == Err(IndexError)
    ensures |opts| == 1 && d.activity.None? ==> r == Err(UnboundLocalError)
    ensures r.Ok? <==> opts != [] && (|opts| > 1 || d.activity.Some?)
    ensures r.Ok? ==> SlotLeaves(d, c, i, opts, horizon, floors, r.value)
  {
    if opts == [] then Err(IndexError)
    else if |opts| == 1 && d.activity.None? then Err(UnboundLocalError)
    else
      Ok(Defining(Build(d.b.decls + SlotDecls(c, i, opts, horizon, floors), d.b.cons + SlotCons(c, i, opts, d.activity),
                        SlotMaps(d.b.maps, c, i, opts), d.b.lastEnds),
                  if |opts| > 1 then Some(opts[|opts| - 1]) else d.activity))
  }

  /** The indexes after slots `0 .. n - 1` of client `c`, an empty slot (which raises) left
      out. */
  function SchedMapsOf(m: Maps, c: int, sched: seq<seq<Task>>, n: nat): Maps
    requires n <= |sched|
  {
    if n == 0 then m
    else if sched[n - 1] == [] then SchedMapsOf(m, c, sched, n - 1)
    else SlotMaps(SchedMapsOf(m, c, sched, n - 1), c, n - 1, sched[n - 1])
  }

  /** Slots `0 .. n - 1` of client `c`. */
  function Sched(d: Defining, c: int, sched: seq<seq<Task>>, n: nat, horizon: int, floors: int): (r: Result<Defining>)
    requires n <= |sched|
    ensures r.Ok? ==> SchedLeaves(d, c, sched, n, r.value)
    ensures r.Ok? ==> r.value.b.maps == SchedMapsOf(d.b.maps, c, sched, n)
    ensures (forall i :: 0 <= i < n ==> |sched[i]| > 1) ==>
      r.Ok? && VS.FilledUpTo(sched, n) && r.value.b.decls == d.b.decls + VS.SchedDecls(c, sched, n, horizon, floors)
  {
    if n == 0 then
      assert d.b.decls + [] == d.b.decls;
      Ok(d)
    else
      var prev :- Sched(d, c, sched, n - 1, horizon, floors);
      var r := Slot(prev, c, n - 1, sched[n - 1], horizon, floors);
      if r.Err? then r
      else
        SchedConsSlot(d.b.cons, d.activity, c, sched, n, prev.activity);
        if |sched[n - 1]| > 1 && VS.FilledUpTo(sched, n - 1) && prev.b.decls == d.b.decls + VS.SchedDecls(c, sched, n - 1, horizon, floors) then
          SchedDeclsSlot(d.b.decls, c, sched, n, horizon, floors, prev.b.decls, r.value.b.decls);
          r
        else r
  }

  /** A slot with several options declares what the current scheduler declares for it. */
  lemma SchedDeclsSlot(base: seq<Decl>, c: int, sched: seq<seq<Task>>, n: nat, horizon: int, floors: int, before: seq<Decl>, after: seq<Decl>)
    requires 0 < n <= |sched| && VS.FilledUpTo(sched, n - 1) && |sched[n - 1]| > 1
    requires before == base + VS.SchedDecls(c, sched, n - 1, horizon, floors)
    requires after == before + SlotDecls(c, n - 1, sched[n - 1], horizon, floors)
    ensures VS.FilledUpTo(sched, n) && after == base + VS.SchedDecls(c, sched, n, horizon, floors)
  {
    assert VS.FilledUpTo(sched, n);
    assert SlotDecls(c, n - 1, sched[n - 1], horizon, floors) == VS.SlotAllDecls(c, n - 1, sched[n - 1], horizon, floors);
    AppendAssoc(base, VS.SchedDecls(c, sched, n - 1, horizon, floors), VS.SlotAllDecls(c, n - 1, sched[n - 1], horizon, floors));
  }

  /** Client `c`: its slots, then the end of its last slot (None without slots). */
  function Client(d: Defining, c: int, sched: seq<seq<Task>>, horizon: int, floors: int): (r: Result<Defining>)
    ensures r.Ok? ==> r.value.b.cons == SchedCons(d.b.cons, d.activity, c, sched, |sched|)
    ensures r.Ok? ==> r.value.activity == ActivityAfter(d.activity, sched, |sched|)
    ensures r.Ok? ==> r.value.b.lastEnds == d.b.lastEnds + [VS.LastEnd(c, sched)]
    ensures r.Ok? ==> r.value.b.maps == SchedMapsOf(d.b.maps, c, sched, |sched|)
  {
    var e :- Sched(d, c, sched, |sched|, horizon, floors);
    Ok(e.(b := e.b.(lastEnds := e.b.lastEnds + [VS.LastEnd(c, sched)])))
  }

  /** The indexes after clients `0 .. n - 1`. */
  function ClientsMapsOf(m: Maps, scheds: seq<seq<seq<Task>>>, n: nat): Maps
    requires n <= |scheds|
  {
    if n == 0 then m else SchedMapsOf(ClientsMapsOf(m, scheds, n - 1), n - 1, scheds[n - 1], |scheds[n - 1]|)
  }

  /** Clients `0 .. n - 1`. */
  function Clients(d: Defining, scheds: seq<seq<seq<Task>>>, n: nat, horizon: int, floors: int): (r: Result<Defining>)
    requires n <= |scheds|
    ensures r.Ok? ==> r.value.b.cons == ClientsCons(d.b.cons, d.activity, scheds, n)
    ensures r.Ok? ==> r.value.activity == ClientsActivity(d.activity, scheds, n)
    ensures r.Ok? ==> r.value.b.lastEnds == d.b.lastEnds + VS.ClientsLastEnds(scheds, n)
    ensures r.Ok? ==> r.value.b.maps == ClientsMapsOf(d.b.maps, scheds, n)
  {
    if n == 0 then
      assert d.b.lastEnds + [] == d.b.lastEnds;
      Ok(d)
    else
      var prev :- Clients(d, scheds, n - 1, horizon, floors);
      var r :- Client(prev, n - 1, scheds[n - 1], horizon, floors);
      AppendedAfter(d.b.lastEnds, VS.ClientsLastEnds(scheds, n - 1), VS.LastEnd(n - 1, scheds[n - 1]), prev.b.lastEnds, r.b.lastEnds);
      Ok(r)
  }

  /** Appending `x` to a list that extends `base` by `before` extends `base` by `before + [x]`. */
  lemma AppendedAfter<T>(base: seq<T>, before: seq<T>, x: T, mid: seq<T>, after: seq<T>)
    requires mid == base + before && after == mid + [x]
    ensures after == base + (before + [x])
  {
    AppendAssoc(base, before, [x]);
  }

  /** `__define_variables` on a model built so far; `activity` starts unbound. */
  function DefineVariables(b: Build, scheds: seq<seq<seq<Task>>>, horizon: int, floors: int): Result<Build> {
    var d :- Clients(Defining(b, None), scheds, |scheds|, horizon, floors);
    Ok(d.b)
  }

  // The first failure decides the outcome.

  lemma {:induction false} SchedErr(d: Defining, c: int, sched: seq<seq<Task>>, k: nat, n: nat, horizon: int, floors: int)
    requires k <= n <= |sched| && Sched(d, c, sched, k, horizon, floors).Err?
    ensures Sched(d, c, sched, n, horizon, floors) == Sched(d, c, sched, k, horizon, floors)
  {
    if k < n { SchedErr(d, c, sched, k, n - 1, horizon, floors); }
  }

  lemma {:induction false} ClientsErr(d: Defining, scheds: seq<seq<seq<Task>>>, k: nat, n: nat, horizon: int, floors: int, e: Error)
    requires k <= n <= |scheds| && Clients(d, scheds, k, horizon, floors) == Err(e)
    ensures Clients(d, scheds, n, horizon, floors) == Err(e)
  {
    if k < n { ClientsErr(d, scheds, k, n - 1, horizon, floors, e); }
  }

  // Nothing that defining the variables adds is a circuit or an objective.

  /** Neither a circuit (the precedence constraints) nor an objective to minimise. */
  predicate Simple(x: Constraint) {
    !x.Circuit? && !x.Minimize?
  }

  /** How many circuits and objectives `cons` holds. */
  function Extras(cons: seq<Constraint>): nat {
    ExtrasUpTo(cons, |cons|)
  }

  /** How many circuits and objectives `cons[..k]` holds. */
  function ExtrasUpTo(cons: seq<Constraint>, k: nat): nat
    requires k <= |cons|
  {
    if k == 0 then 0 else ExtrasUpTo(cons, k - 1) + if Simple(cons[k - 1]) then 0 else 1
  }

  lemma PlainMeans(cons: seq<Constraint>)
    ensures Extras(cons) == 0 <==> forall x :: x in cons ==> Simple(x)
  {
    PlainUpTo(cons, |cons|);
  }

  lemma {:induction false} PlainUpTo(cons: seq<Constraint>, k: nat)
    requires k <= |cons|
    ensures ExtrasUpTo(cons, k) == 0 <==> forall i :: 0 <= i < k ==> Simple(cons[i])
  {
    if k > 0 {
      PlainUpTo(cons, k - 1);
    }
  }

  lemma ExtrasAppend(a: seq<Constraint>, b: seq<Constraint>)
    ensures Extras(a + b) == Extras(a) + Extras(b)
  {
    ExtrasPrefix(a, b, |a|);
    ExtrasSuffix(a, b, |b|);
  }

  /** Counting within `a` does not look at what follows it. */
  lemma {:induction false} ExtrasPrefix(a: seq<Constraint>, b: seq<Constraint>, i: nat)
    requires i <= |a|
    ensures ExtrasUpTo(a + b, i) == ExtrasUpTo(a, i)
  {
    if i > 0 {
      ExtrasPrefix(a, b, i - 1);
      assert (a + b)[i - 1] == a[i - 1];
    }
  }

  /** Counting past `a` adds the count within `b`. */
  lemma {:induction false} ExtrasSuffix(a: seq<Constraint>, b: seq<Constraint>, j: nat)
    requires j <= |b|
    ensures ExtrasUpTo(a + b, |a| + j) == ExtrasUpTo(a, |a|) + ExtrasUpTo(b, j)
  {
    if j > 0 {
      ExtrasSuffix(a, b, j - 1);
      assert (a + b)[|a| + j - 1] == b[j - 1];
    } else {
      ExtrasPrefix(a, b, |a|);
    }
  }

  lemma {:induction false} PlainOpts(c: int, i: int, opts: seq<Task>, k: nat)
    requires k <= |opts|
    ensures Extras(VS.OptsCons(c, i, opts, k)) == 0
  {
    if k > 0 {
      PlainOpts(c, i, opts, k - 1);
      PlainMeans(VS.OptionCons(c, i, k - 1, opts[k - 1]));
      ExtrasAppend(VS.OptsCons(c, i, opts, k - 1), VS.OptionCons(c, i, k - 1, opts[k - 1]));
    }
  }

  lemma PlainSlotCons(c: int, i: int, opts: seq<Task>, activity: Option<Task>)
    requires opts != [] && (|opts| > 1 || activity.Some?)
    ensures Extras(SlotCons(c, i, opts, activity)) == 0
  {
    var rest := if |opts| > 1 then VS.OptsCons(c, i, opts, |opts|) + [ExactlyOne(Lits(c, i, |opts|))]
                else [Rule(V(Floor(c, i)), EQ, K(activity.value.roomFloor))];
    assert SlotCons(c, i, opts, activity) == VS.AfterPrevious(c, i) + rest;
    PlainMeans(VS.AfterPrevious(c, i));
    if |opts| > 1 {
      PlainOpts(c, i, opts, |opts|);
      PlainMeans([ExactlyOne(Lits(c, i, |opts|))]);
      ExtrasAppend(VS.OptsCons(c, i, opts, |opts|), [ExactlyOne(Lits(c, i, |opts|))]);
    } else {
      PlainMeans(rest);
    }
    ExtrasAppend(VS.AfterPrevious(c, i), rest);
  }

  // What defining the variables appends, slot by slot.

  /** The loop variable `activity` after slots `0 .. n - 1`: the last option of the latest slot
      with several options, else what it was before. */
  function ActivityAfter(activity: Option<Task>, sched: seq<seq<Task>>, n: nat): Option<Task>
    requires n <= |sched|
  {
    if n == 0 then activity
    else if |sched[n - 1]| > 1 then Some(sched[n - 1][|sched[n - 1]| - 1])
    else ActivityAfter(activity, sched, n - 1)
  }

  /** The constraints `cons` grows to over slots `0 .. n - 1` of client `c` (a slot that raises
      adds none). */
  function SchedCons(cons: seq<Constraint>, activity: Option<Task>, c: int, sched: seq<seq<Task>>, n: nat): seq<Constraint>
    requires n <= |sched|
  {
    FoldSlots(cons, SlotConsFn(), activity, c, sched, n)
  }

  /** `cons` followed by what `slot` gives for each of slots `0 .. n - 1`, with the `activity`
      each of them sees. */
  function FoldSlots(cons: seq<Constraint>, slot: (int, int, seq<Task>, Option<Task>) -> seq<Constraint>,
                     activity: Option<Task>, c: int, sched: seq<seq<Task>>, n: nat): seq<Constraint>
    requires n <= |sched|
  {
    if n == 0 then cons
    else FoldSlots(cons, slot, activity, c, sched, n - 1) + slot(c, n - 1, sched[n - 1], ActivityAfter(activity, sched, n - 1))
  }

  /** The constraints of a slot that does not raise, none for one that does. */
  function SlotConsOr(c: int, i: int, opts: seq<Task>, activity: Option<Task>): seq<Constraint> {
    if opts != [] && (|opts| > 1 || activity.Some?) then SlotCons(c, i, opts, activity) else []
  }

  /** `SlotConsOr` as a value, so that unfolding the loop over the slots does not unfold every slot. */
  function SlotConsFn(): (int, int, seq<Task>, Option<Task>) -> seq<Constraint> {
    (c, i, opts, activity) => SlotConsOr(c, i, opts, activity)
  }

  /** The loop variable `activity` after clients `0 .. n - 1`: it carries over from client to client. */
  function ClientsActivity(activity: Option<Task>, scheds: seq<seq<seq<Task>>>, n: nat): Option<Task>
    requires n <= |scheds|
  {
    if n == 0 then activity else ActivityAfter(ClientsActivity(activity, scheds, n - 1), scheds[n - 1], |scheds[n - 1]|)
  }

  /** The constraints `cons` grows to over clients `0 .. n - 1`. */
  function ClientsCons(cons: seq<Constraint>, activity: Option<Task>, scheds: seq<seq<seq<Task>>>, n: nat): seq<Constraint>
    requires n <= |scheds|
  {
    if n == 0 then cons
    else SchedCons(ClientsCons(cons, activity, scheds, n - 1), ClientsActivity(activity, scheds, n - 1), n - 1, scheds[n - 1], |scheds[n - 1]|)
  }

  /** What slots `0 .. n - 1` leave behind: the constraints at `SchedCons`, `activity` at
      `ActivityAfter`, and the last ends untouched. */
  predicate SchedLeaves(d: Defining, c: int, sched: seq<seq<Task>>, n: nat, r: Defining)
    requires n <= |sched|
  {
    r.b.cons == SchedCons(d.b.cons, d.activity, c, sched, n) && r.activity == ActivityAfter(d.activity, sched, n)
    && r.b.lastEnds == d.b.lastEnds
  }

  /** What slot `i` does when it does not raise. */
  predicate SlotLeaves(prev: Defining, c: int, i: int, opts: seq<Task>, horizon: int, floors: int, r: Defining) {
    opts != [] && (|opts| > 1 || prev.activity.Some?)
    && r.b.decls == prev.b.decls + SlotDecls(c, i, opts, horizon, floors)
    && r.b.cons == prev.b.cons + SlotCons(c, i, opts, prev.activity)
    && r.activity == (if |opts| > 1 then Some(opts[|opts| - 1]) else prev.activity)
    && r.b.lastEnds == prev.b.lastEnds
  }

  /** A slot that does not raise adds its own constraints to those before it. */
  lemma SchedConsSlot(cons: seq<Constraint>, activity: Option<Task>, c: int, sched: seq<seq<Task>>, n: nat, before: Option<Task>)
    requires 0 < n <= |sched| && ActivityAfter(activity, sched, n - 1) == before
    requires sched[n - 1] != [] && (|sched[n - 1]| > 1 || before.Some?)
    ensures SchedCons(cons, activity, c, sched, n) ==
      SchedCons(cons, activity, c, sched, n - 1) + SlotCons(c, n - 1, sched[n - 1], before)
  {
    SchedConsNext(cons, activity, c, sched, n);
  }

  /** Slots add no circuit and no objective, so the count of those stays what it was. */
  lemma PlainSchedCons(cons: seq<Constraint>, activity: Option<Task>, c: int, sched: seq<seq<Task>>, n: nat)
    requires n <= |sched|
    ensures Extras(SchedCons(cons, activity, c, sched, n)) == Extras(cons)
  {
    PlainSlotsCons(activity, c, sched, n);
    PlainFold(cons, SlotConsFn(), activity, c, sched, n);
  }

  /** None of slots `0 .. n - 1` adds a circuit or an objective. */
  ghost predicate PlainSlots(slot: (int, int, seq<Task>, Option<Task>) -> seq<Constraint>, activity: Option<Task>, c: int,
                             sched: seq<seq<Task>>, n: nat)
    requires n <= |sched|
  {
    n == 0 || (PlainSlots(slot, activity, c, sched, n - 1) && Extras(slot(c, n - 1, sched[n - 1], ActivityAfter(activity, sched, n - 1))) == 0)
  }

  lemma {:induction false} PlainSlotsCons(activity: Option<Task>, c: int, sched: seq<seq<Task>>, n: nat)
    requires n <= |sched|
    ensures PlainSlots(SlotConsFn(), activity, c, sched, n)
  {
    if n > 0 {
      PlainSlotsCons(activity, c, sched, n - 1);
      var opts, after := sched[n - 1], ActivityAfter(activity, sched, n - 1);
      PlainSlotConsFn(c, n - 1, opts, after);
    }
  }

  /** Slots that add no circuit and no objective keep the count of those. */
  lemma {:induction false} PlainFold(cons: seq<Constraint>, slot: (int, int, seq<Task>, Option<Task>) -> seq<Constraint>,
                                     activity: Option<Task>, c: int, sched: seq<seq<Task>>, n: nat)
    requires n <= |sched| && PlainSlots(slot, activity, c, sched, n)
    ensures Extras(FoldSlots(cons, slot, activity, c, sched, n)) == Extras(cons)
  {
    if n > 0 {
      PlainFold(cons, slot, activity, c, sched, n - 1);
      ExtrasPlainSuffix(FoldSlots(cons, slot, activity, c, sched, n - 1), slot(c, n - 1, sched[n - 1], ActivityAfter(activity, sched, n - 1)),
                        FoldSlots(cons, slot, activity, c, sched, n));
    }
  }

  lemma SchedConsNext(cons: seq<Constraint>, activity: Option<Task>, c: int, sched: seq<seq<Task>>, n: nat)
    requires 0 < n <= |sched|
    ensures SchedCons(cons, activity, c, sched, n) ==
      SchedCons(cons, activity, c, sched, n - 1) + SlotConsFn()(c, n - 1, sched[n - 1], ActivityAfter(activity, sched, n - 1))
  {
  }

  lemma ExtrasPlainSuffix(a: seq<Constraint>, b: seq<Constraint>, whole: seq<Constraint>)
    requires whole == a + b && Extras(b) == 0
    ensures Extras(whole) == Extras(a)
  {
    ExtrasAppend(a, b);
  }

  lemma PlainSlotConsFn(c: int, i: int, opts: seq<Task>, activity: Option<Task>)
    ensures Extras(SlotConsFn()(c, i, opts, activity)) == 0
  {
    if opts != [] && (|opts| > 1 || activity.Some?) {
      PlainSlotCons(c, i, opts, activity);
    }
    assert SlotConsFn()(c, i, opts, activity) == SlotConsOr(c, i, opts, activity);
  }

  /** Defining the variables of clients `0 .. n - 1` adds no circuit and no objective. */
  lemma {:induction false} PlainClientsCons(cons: seq<Constraint>, activity: Option<Task>, scheds: seq<seq<seq<Task>>>, n: nat)
    requires n <= |scheds|
    ensures Extras(ClientsCons(cons, activity, scheds, n)) == Extras(cons)
  {
    if n > 0 {
      PlainClientsCons(cons, activity, scheds, n - 1);
      PlainSchedCons(ClientsCons(cons, activity, scheds, n - 1), ClientsActivity(activity, scheds, n - 1), n - 1, scheds[n - 1], |scheds[n - 1]|);
    }
  }

  // Where both generations agree.

  predicate Multi(sched: seq<seq<Task>>) {
    forall i :: 0 <= i < |sched| ==> |sched[i]| > 1
  }

  /** A client whose every slot has several options gets the same declarations and constraints
      from both generations of `__define_variables`. */
  lemma SchedMultiAgrees(d: Defining, c: int, sched: seq<seq<Task>>, n: nat, horizon: int, floors: int)
    requires n <= |sched| && Multi(sched)
    ensures VS.FilledUpTo(sched, n)
    ensures Sched(d, c, sched, n, horizon, floors).Ok?
    ensures Sched(d, c, sched, n, horizon, floors).value.b.decls == d.b.decls + VS.SchedDecls(c, sched, n, horizon, floors)
    ensures Sched(d, c, sched, n, horizon, floors).value.b.cons == d.b.cons + VS.SchedCons(c, sched, n)
  {
    MultiCons(d.b.cons, d.activity, c, sched, n);
  }

  /** With several options in every slot, the legacy constraints are the current ones. */
  lemma {:induction false} MultiCons(cons: seq<Constraint>, activity: Option<Task>, c: int, sched: seq<seq<Task>>, n: nat)
    requires n <= |sched| && Multi(sched)
    ensures VS.FilledUpTo(sched, n) && SchedCons(cons, activity, c, sched, n) == cons + VS.SchedCons(c, sched, n)
  {
    if n > 0 {
      MultiCons(cons, activity, c, sched, n - 1);
      assert |sched[n - 1]| > 1;
      SchedConsSlot(cons, activity, c, sched, n, ActivityAfter(activity, sched, n - 1));
      AppendAssoc(cons, VS.SchedCons(c, sched, n - 1), VS.SlotCons(c, n - 1, sched[n - 1]));
    }
  }

  // The stale `activity` (solver.py:211).

  /** The as-written branch: after a first slot with rooms on floors 1 and 2, a second slot whose
      only room is on floor 1 is pinned to floor 2, so no solution places that slot on the floor
      of its only option. */
  lemma StaleFloorMisplaces(horizon: int, floors: int, a: Assignment)
    ensures var t1, t2, t3 := SS.Task(10, 1, 1, 1), SS.Task(10, 1, 2, 2), SS.Task(10, 2, 3, 1);
      var r := DefineVariables(EmptyBuild, [[[t1, t2], [t3]]], horizon, floors);
      r.Ok? && Rule(V(Floor(0, 1)), EQ, K(2)) in r.value.cons &&
      ((forall x :: x in r.value.cons ==> Holds(x, a)) ==> !VS.TakesOption(a, 0, 1, [t3]))
  {
    var t1, t2, t3 := SS.Task(10, 1, 1, 1), SS.Task(10, 1, 2, 2), SS.Task(10, 2, 3, 1);
    var sched := [[t1, t2], [t3]];
    var d0 := Defining(EmptyBuild, None);
    assert Sched(d0, 0, sched, 0, horizon, floors) == Ok(d0);
    var d1 := Sched(d0, 0, sched, 1, horizon, floors).value;
    assert d1.activity == Some(t2);
    var d2 := Sched(d0, 0, sched, 2, horizon, floors).value;
    var rule := Rule(V(Floor(0, 1)), EQ, K(2));
    assert d2.b.cons == d1.b.cons + VS.AfterPrevious(0, 1) + [rule];
    assert rule in d2.b.cons;
    assert Clients(d0, [sched], 0, horizon, floors) == Ok(d0);
    assert Clients(d0, [sched], 1, horizon, floors) == Client(d0, 0, sched, horizon, floors);
    var r := DefineVariables(EmptyBuild, [sched], horizon, floors);
    assert r.value.cons == d2.b.cons;
    PinnedElsewhere(r.value.cons, a, t3);
  }

  /** A solution of constraints that pin slot 1 of client 0 to floor 2 does not place that slot
      on the floor of an option on floor 1. */
  lemma PinnedElsewhere(cons: seq<Constraint>, a: Assignment, t: Task)
    requires Rule(V(Floor(0, 1)), EQ, K(2)) in cons && t.roomFloor == 1
    ensures (forall x :: x in cons ==> Holds(x, a)) ==> !VS.TakesOption(a, 0, 1, [t])
  {
    if forall x :: x in cons ==> Holds(x, a) {
      assert Holds(Rule(V(Floor(0, 1)), EQ, K(2)), a);
      EvalVar(Floor(0, 1), a);
    }
  }

  /** The as-written branch: a first slot with a single option reads `activity` before anything
      bound it. */
  lemma UnboundOnFirstSlot(t: Task, rest: seq<seq<Task>>, horizon: int, floors: int)
    ensures DefineVariables(EmptyBuild, [[[t]] + rest], horizon, floors) == Err(UnboundLocalError)
  {
    var sched := [[t]] + rest;
    var d0 := Defining(EmptyBuild, None);
    assert Sched(d0, 0, sched, 0, horizon, floors) == Ok(d0);
    SchedErr(d0, 0, sched, 1, |sched|, horizon, floors);
    assert Clients(d0, [sched], 0, horizon, floors) == Ok(d0);
  }
}
