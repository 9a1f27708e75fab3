/** What `__define_variables` of the current scheduler (`src/utils/solver.py`) emits for every
    slot of every client, and how it fills the solver's variable indexes. */
module VariableSpec {
  import opened Wrappers
  import opened PyDict
  import opened PyList
  import opened CpModel
  import opened ScheduleSpec

  /** The solver's variable indexes that later phases read. The per-slot dicts keyed by
      `(client, slot)` (start, end, interval, floor of a slot) and those keyed by the
      `(client, slot, slot + 1)` transfer pair hold exactly the variables named `Start(c, i)`,
      `TrLit(c, i, i + 1)` and so on, so they are represented by those names. */
  datatype VarMaps = VarMaps(
    perRoom: Dict<int, seq<Var>>,                // __time_interval_vars_per_room
    perClient: Dict<int, seq<Var>>,              // __time_interval_vars_per_client
    boolVars: Dict<(int, int), seq<Var>>,        // __activity_bool_vars
    clientRooms: Dict<(int, int, int), seq<Var>>, // __client_activity_rooms
    slotRooms: Dict<(int, int, int, int), Var>,  // __activity_index_room_bool_vars
    starts: Dict<(int, int), seq<Var>>,          // __activity_start_time_int_vars
    ends: Dict<(int, int), seq<Var>>,            // __activity_end_time_int_vars
    intervals: Dict<(int, int), seq<Var>>,       // __activity_time_interval_vars
    floors: Dict<(int, int), seq<Var>>,          // __activity_floor_bool_vars
    roomLits: Dict<(int, int, int), seq<Var>>,   // __activity_room_bool_vars
    transfers: Dict<(int, int, int), Var>)       // __transfer_time_interval_vars

  /** The model built so far: declarations, constraints, the indexes and
      `__last_activity_end_time_int_vars`. */
  datatype Build = Build(decls: seq<Decl>, cons: seq<Constraint>, maps: VarMaps, lastEnds: seq<Option<Var>>)

  const NoMaps := VarMaps([], [], [], [], [], [], [], [], [], [], [])

  /** The model of a new solver. */
  const EmptyBuild := Build([], [], NoMaps, [])

  /** The smallest and largest duration among a slot's options. */
  function MinDuration(opts: seq<Task>): int
    requires opts != []
  {
    if |opts| == 1 then opts[0].duration
    else var m := MinDuration(opts[1..]); if opts[0].duration <= m then opts[0].duration else m
  }

  function MaxDuration(opts: seq<Task>): int
    requires opts != []
  {
    if |opts| == 1 then opts[0].duration
    else var m := MaxDuration(opts[1..]); if opts[0].duration >= m then opts[0].duration else m
  }

  /** The bounds hold every option's duration, and both are the duration of some option. */
  lemma {:induction false} MinMaxDuration(opts: seq<Task>)
    requires opts != []
    ensures forall t :: t in opts ==> MinDuration(opts) <= t.duration <= MaxDuration(opts)
    ensures exists t :: t in opts && MinDuration(opts) == t.duration
    ensures exists t :: t in opts && MaxDuration(opts) == t.duration
  {
    assert opts[0] in opts;
    if |opts| > 1 {
      MinMaxDuration(opts[1..]);
      assert forall t :: t in opts ==> t == opts[0] || t in opts[1..];
      var lo :| lo in opts[1..] && MinDuration(opts[1..]) == lo.duration;
      var hi :| hi in opts[1..] && MaxDuration(opts[1..]) == hi.duration;
      assert lo in opts && hi in opts;
    }
  }

  /** The five variables every slot gets, with the duration bounded by its options. */
  function SlotDecls(c: int, i: int, opts: seq<Task>, horizon: int, floors: int): seq<Decl>
    requires opts != []
  {
    [ IntVar(Start(c, i), 0, horizon),
      IntVar(Duration(c, i), MinDuration(opts), MaxDuration(opts)),
      IntVar(End(c, i), 0, horizon),
      IntervalVar(Interval(c, i), Start(c, i), V(Duration(c, i)), End(c, i), None),
      IntVar(Floor(c, i), 1, floors) ]
  }

  /** A slot starts no earlier than the previous slot of the same client ends. */
  function AfterPrevious(c: int, i: int): seq<Constraint> {
    if i > 0 then [Rule(V(Start(c, i)), GE, V(End(c, i - 1)))] else []
  }

  function OptionDecls(c: int, i: int, k: int, t: Task, horizon: int, floors: int): seq<Decl> {
    [ IntVar(OptStart(c, i, k), 0, horizon),
      IntVar(OptEnd(c, i, k), 0, horizon),
      BoolVar(OptLit(c, i, k)),
      IntervalVar(OptInterval(c, i, k), OptStart(c, i, k), K(t.duration), OptEnd(c, i, k), Some(OptLit(c, i, k))),
      IntVar(OptFloor(c, i, k), 0, floors) ]
  }

  /** When option `k` is chosen, the slot takes its start, duration, end and room floor. */
  function OptionCons(c: int, i: int, k: int, t: Task): seq<Constraint> {
    var l := Pos(OptLit(c, i, k));
    [ RuleIf(V(Start(c, i)), EQ, V(OptStart(c, i, k)), l),
      RuleIf(V(Duration(c, i)), EQ, K(t.duration), l),
      RuleIf(V(End(c, i)), EQ, V(OptEnd(c, i, k)), l),
      RuleIf(V(OptFloor(c, i, k)), EQ, K(t.roomFloor), l),
      RuleIf(V(Floor(c, i)), EQ, V(OptFloor(c, i, k)), l) ]
  }

  function OptionMaps(m: VarMaps, c: int, i: int, k: int, t: Task): VarMaps {
    m.(perRoom := Append(m.perRoom, t.roomId, OptInterval(c, i, k)),
       perClient := Append(m.perClient, c, OptInterval(c, i, k)),
       slotRooms := Put(m.slotRooms, (c, t.id, i, t.roomId), OptLit(c, i, k)),
       boolVars := Append(m.boolVars, (c, t.id), OptLit(c, i, k)),
       starts := Append(m.starts, (c, t.id), OptStart(c, i, k)),
       ends := Append(m.ends, (c, t.id), OptEnd(c, i, k)),
       intervals := Append(m.intervals, (c, t.id), OptInterval(c, i, k)),
       floors := Append(m.floors, (c, t.id), OptFloor(c, i, k)),
       roomLits := Append(m.roomLits, (t.roomId, i, t.id), OptLit(c, i, k)),
       clientRooms := Append(m.clientRooms, (c, t.id, t.roomId), OptLit(c, i, k)))
  }

  /** The declarations of options `0 .. k - 1` of a multi-option slot. */
  function OptsDecls(c: int, i: int, opts: seq<Task>, k: nat, horizon: int, floors: int): seq<Decl>
    requires k <= |opts|
  {
    if k == 0 then [] else OptsDecls(c, i, opts, k - 1, horizon, floors) + OptionDecls(c, i, k - 1, opts[k - 1], horizon, floors)
  }

  /** The constraints of options `0 .. k - 1` of a multi-option slot. */
  function OptsCons(c: int, i: int, opts: seq<Task>, k: nat): seq<Constraint>
    requires k <= |opts|
  {
    if k == 0 then [] else OptsCons(c, i, opts, k - 1) + OptionCons(c, i, k - 1, opts[k - 1])
  }

  /** The indexes after registering options `0 .. k - 1` of a multi-option slot. */
  function OptsMaps(m: VarMaps, c: int, i: int, opts: seq<Task>, k: nat): VarMaps
    requires k <= |opts|
  {
    if k == 0 then m else OptionMaps(OptsMaps(m, c, i, opts, k - 1), c, i, k - 1, opts[k - 1])
  }

  /** Registering option `k` after options `0 .. k - 1`. */
  lemma OptsStep(m: VarMaps, c: int, i: int, opts: seq<Task>, k: nat, horizon: int, floors: int)
    requires k < |opts|
    ensures OptsDecls(c, i, opts, k + 1, horizon, floors) == OptsDecls(c, i, opts, k, horizon, floors) + OptionDecls(c, i, k, opts[k], horizon, floors)
    ensures OptsCons(c, i, opts, k + 1) == OptsCons(c, i, opts, k) + OptionCons(c, i, k, opts[k])
    ensures OptsMaps(m, c, i, opts, k + 1) == OptionMaps(OptsMaps(m, c, i, opts, k), c, i, k, opts[k])
  {
  }

  /** A single-option slot registers the slot's own variables, and `NewConstant(1)` as its
      room literal; in `__activity_room_bool_vars` it is filed under slot 0, whatever its
      position. */
  function SingleMaps(m: VarMaps, c: int, i: int, t: Task): VarMaps {
    m.(starts := Append(m.starts, (c, t.id), Start(c, i)),
       ends := Append(m.ends, (c, t.id), End(c, i)),
       intervals := Append(m.intervals, (c, t.id), Interval(c, i)),
       floors := Append(m.floors, (c, t.id), Floor(c, i)),
       roomLits := Append(m.roomLits, (t.roomId, 0, t.id), One),
       perRoom := Append(m.perRoom, t.roomId, Interval(c, i)),
       perClient := Append(m.perClient, c, Interval(c, i)),
       slotRooms := Put(m.slotRooms, (c, t.id, i, t.roomId), One),
       clientRooms := Append(m.clientRooms, (c, t.id, t.roomId), One),
       boolVars := Append(m.boolVars, (c, t.id), One))
  }

  /** The four `NewConstant(1)` calls of a single-option slot. */
  const SingleDecls: seq<Decl> := [Constant(One, 1), Constant(One, 1), Constant(One, 1), Constant(One, 1)]

  /** Everything one slot declares. */
  function SlotAllDecls(c: int, i: int, opts: seq<Task>, horizon: int, floors: int): seq<Decl>
    requires opts != []
  {
    SlotDecls(c, i, opts, horizon, floors) +
    if |opts| > 1 then OptsDecls(c, i, opts, |opts|, horizon, floors) else SingleDecls
  }

  /** The constraints one slot adds: after the previous slot, and either "exactly one option,
      which sets the slot's start, duration, end and floor" or "the floor of the only room". */
  function SlotCons(c: int, i: int, opts: seq<Task>): seq<Constraint>
    requires opts != []
  {
    AfterPrevious(c, i) +
    if |opts| > 1 then OptsCons(c, i, opts, |opts|) + [ExactlyOne(Lits(c, i, |opts|))]
    else [Rule(V(Floor(c, i)), EQ, K(opts[0].roomFloor))]
  }

  function SlotMaps(m: VarMaps, c: int, i: int, opts: seq<Task>): VarMaps
    requires opts != []
  {
    if |opts| > 1 then OptsMaps(m, c, i, opts, |opts|) else SingleMaps(m, c, i, opts[0])
  }

  /** Every slot has at least one option (otherwise `activities[0]` raises IndexError). */
  predicate Filled(sched: seq<seq<Task>>) {
    FilledUpTo(sched, |sched|)
  }

  predicate AllFilled(scheds: seq<seq<seq<Task>>>) {
    forall c :: 0 <= c < |scheds| ==> Filled(scheds[c])
  }

  /** The first `n` slots have an option each. */
  predicate FilledUpTo(sched: seq<seq<Task>>, n: nat)
    requires n <= |sched|
  {
    forall i :: 0 <= i < n ==> sched[i] != []
  }

  /** The first `n` clients have all their slots filled. */
  predicate AllFilledUpTo(scheds: seq<seq<seq<Task>>>, n: nat)
    requires n <= |scheds|
  {
    forall c :: 0 <= c < n ==> Filled(scheds[c])
  }

  function SchedDecls(c: int, sched: seq<seq<Task>>, n: nat, horizon: int, floors: int): seq<Decl>
    requires n <= |sched| && FilledUpTo(sched, n)
  {
    if n == 0 then [] else SchedDecls(c, sched, n - 1, horizon, floors) + SlotAllDecls(c, n - 1, sched[n - 1], horizon, floors)
  }

  function SchedCons(c: int, sched: seq<seq<Task>>, n: nat): seq<Constraint>
    requires n <= |sched| && FilledUpTo(sched, n)
  {
    if n == 0 then [] else SchedCons(c, sched, n - 1) + SlotCons(c, n - 1, sched[n - 1])
  }

  function SchedMaps(m: VarMaps, c: int, sched: seq<seq<Task>>, n: nat): VarMaps
    requires n <= |sched| && FilledUpTo(sched, n)
  {
    if n == 0 then m else SlotMaps(SchedMaps(m, c, sched, n - 1), c, n - 1, sched[n - 1])
  }

  /** The end of the client's last slot, `None` for a client without slots. */
  function LastEnd(c: int, sched: seq<seq<Task>>): Option<Var> {
    if sched == [] then None else Some(End(c, |sched| - 1))
  }

  function ClientsDecls(scheds: seq<seq<seq<Task>>>, n: nat, horizon: int, floors: int): seq<Decl>
    requires n <= |scheds| && AllFilledUpTo(scheds, n)
  {
    if n == 0 then [] else ClientsDecls(scheds, n - 1, horizon, floors) + SchedDecls(n - 1, scheds[n - 1], |scheds[n - 1]|, horizon, floors)
  }

  function ClientsCons(scheds: seq<seq<seq<Task>>>, n: nat): seq<Constraint>
    requires n <= |scheds| && AllFilledUpTo(scheds, n)
  {
    if n == 0 then [] else ClientsCons(scheds, n - 1) + SchedCons(n - 1, scheds[n - 1], |scheds[n - 1]|)
  }

  function ClientsMaps(m: VarMaps, scheds: seq<seq<seq<Task>>>, n: nat): VarMaps
    requires n <= |scheds| && AllFilledUpTo(scheds, n)
  {
    if n == 0 then m else SchedMaps(ClientsMaps(m, scheds, n - 1), n - 1, scheds[n - 1], |scheds[n - 1]|)
  }

  /** `__last_activity_end_time_int_vars` gains, per client in order, the end of its last slot. */
  function ClientsLastEnds(scheds: seq<seq<seq<Task>>>, n: nat): (r: seq<Option<Var>>)
    requires n <= |scheds|
    ensures |r| == n && forall c :: 0 <= c < n ==> r[c] == LastEnd(c, scheds[c])
  {
    if n == 0 then [] else ClientsLastEnds(scheds, n - 1) + [LastEnd(n - 1, scheds[n - 1])]
  }

  /** Client `n` after clients `0 .. n - 1`. */
  lemma ClientsStep(m: VarMaps, scheds: seq<seq<seq<Task>>>, n: nat, horizon: int, floors: int)
    requires n < |scheds| && AllFilledUpTo(scheds, n + 1)
    ensures ClientsDecls(scheds, n + 1, horizon, floors) == ClientsDecls(scheds, n, horizon, floors) + SchedDecls(n, scheds[n], |scheds[n]|, horizon, floors)
    ensures ClientsCons(scheds, n + 1) == ClientsCons(scheds, n) + SchedCons(n, scheds[n], |scheds[n]|)
    ensures ClientsMaps(m, scheds, n + 1) == SchedMaps(ClientsMaps(m, scheds, n), n, scheds[n], |scheds[n]|)
  {
    assert AllFilledUpTo(scheds, n);
  }

  /** A model holding clients `0 .. n - 1`, extended by client `n`, holds clients `0 .. n`. */
  lemma ClientsExtend(m0: Build, b: Build, b': Build, scheds: seq<seq<seq<Task>>>, n: nat, horizon: int, floors: int)
    requires n < |scheds| && AllFilledUpTo(scheds, n) && Filled(scheds[n])
    requires b.decls == m0.decls + ClientsDecls(scheds, n, horizon, floors)
    requires b.cons == m0.cons + ClientsCons(scheds, n)
    requires b.maps == ClientsMaps(m0.maps, scheds, n) && b.lastEnds == m0.lastEnds + ClientsLastEnds(scheds, n)
    requires b'.decls == b.decls + SchedDecls(n, scheds[n], |scheds[n]|, horizon, floors)
    requires b'.cons == b.cons + SchedCons(n, scheds[n], |scheds[n]|)
    requires b'.maps == SchedMaps(b.maps, n, scheds[n], |scheds[n]|)
    requires b'.lastEnds == b.lastEnds + [LastEnd(n, scheds[n])]
    ensures AllFilledUpTo(scheds, n + 1)
    ensures b'.decls == m0.decls + ClientsDecls(scheds, n + 1, horizon, floors)
    ensures b'.cons == m0.cons + ClientsCons(scheds, n + 1)
    ensures b'.maps == ClientsMaps(m0.maps, scheds, n + 1)
    ensures b'.lastEnds == m0.lastEnds + ClientsLastEnds(scheds, n + 1)
  {
    AppendAssoc(m0.lastEnds, ClientsLastEnds(scheds, n), [LastEnd(n, scheds[n])]);
    assert AllFilledUpTo(scheds, n + 1);
    ClientsStep(m0.maps, scheds, n, horizon, floors);
    AppendAssoc(m0.decls, ClientsDecls(scheds, n, horizon, floors), SchedDecls(n, scheds[n], |scheds[n]|, horizon, floors));
    AppendAssoc(m0.cons, ClientsCons(scheds, n), SchedCons(n, scheds[n], |scheds[n]|));
  }

  /** `__define_variables` on a model built so far: IndexError when some slot has no option. */
  function DefineVariables(b: Build, scheds: seq<seq<seq<Task>>>, horizon: int, floors: int): (r: Result<Build>)
    ensures r.Err? <==> exists c, i :: 0 <= c < |scheds| && 0 <= i < |scheds[c]| && scheds[c][i] == []
  {
    if AllFilled(scheds) then
      Ok(Build(b.decls + ClientsDecls(scheds, |scheds|, horizon, floors),
               b.cons + ClientsCons(scheds, |scheds|),
               ClientsMaps(b.maps, scheds, |scheds|),
               b.lastEnds + ClientsLastEnds(scheds, |scheds|)))
    else Err(IndexError)
  }

  // Every slot's constraints are in the model.

  lemma {:induction false} SchedConsHas(c: int, sched: seq<seq<Task>>, n: nat, i: int)
    requires n <= |sched| && FilledUpTo(sched, n) && 0 <= i < n
    ensures forall x :: x in SlotCons(c, i, sched[i]) ==> x in SchedCons(c, sched, n)
  {
    if i < n - 1 { SchedConsHas(c, sched, n - 1, i); }
  }

  lemma {:induction false} ClientsConsHas(scheds: seq<seq<seq<Task>>>, n: nat, c: int, i: int)
    requires n <= |scheds| && AllFilledUpTo(scheds, n) && 0 <= c < n && 0 <= i < |scheds[c]|
    ensures forall x :: x in SlotCons(c, i, scheds[c][i]) ==> x in ClientsCons(scheds, n)
  {
    var prev, last := ClientsCons(scheds, n - 1), SchedCons(n - 1, scheds[n - 1], |scheds[n - 1]|);
    assert ClientsCons(scheds, n) == prev + last;
    if c < n - 1 {
      ClientsConsHas(scheds, n - 1, c, i);
    } else {
      SchedConsHas(c, scheds[c], |scheds[c]|, i);
    }
  }

  /** Defining the variables adds the constraints of every slot of every client to the model. */
  lemma DefinedSlotCons(b: Build, scheds: seq<seq<seq<Task>>>, horizon: int, floors: int, c: int, i: int)
    requires DefineVariables(b, scheds, horizon, floors).Ok?
    requires 0 <= c < |scheds| && 0 <= i < |scheds[c]|
    ensures scheds[c][i] != []
    ensures forall x :: x in SlotCons(c, i, scheds[c][i]) ==> x in DefineVariables(b, scheds, horizon, floors).value.cons
  {
    ClientsConsHas(scheds, |scheds|, c, i);
  }

  // What the constraints of one slot mean.

  lemma {:induction false} OptsConsHas(c: int, i: int, opts: seq<Task>, n: nat, k: int)
    requires n <= |opts| && 0 <= k < n
    ensures forall x :: x in OptionCons(c, i, k, opts[k]) ==> x in OptsCons(c, i, opts, n)
  {
    if k < n - 1 { OptsConsHas(c, i, opts, n - 1, k); }
  }

  /** In a solution of a multi-option slot's constraints exactly one option is chosen, and the
      slot takes that option's start, end, duration and room floor. */
  lemma ChosenOption(c: int, i: int, opts: seq<Task>, a: Assignment) returns (k: int)
    requires |opts| > 1 && forall x :: x in SlotCons(c, i, opts) ==> Holds(x, a)
    ensures 0 <= k < |opts| && a(OptLit(c, i, k)) != 0
    ensures forall k' :: 0 <= k' < |opts| && k' != k ==> a(OptLit(c, i, k')) == 0
    ensures a(Start(c, i)) == a(OptStart(c, i, k)) && a(End(c, i)) == a(OptEnd(c, i, k))
    ensures a(Duration(c, i)) == opts[k].duration && a(Floor(c, i)) == opts[k].roomFloor
  {
    var lits := Lits(c, i, |opts|);
    assert ExactlyOne(lits) in SlotCons(c, i, opts);
    k := ExactlyOneWitness(lits, a);
    OptsConsHas(c, i, opts, |opts|, k);
    var l := Pos(OptLit(c, i, k));
    assert LitHolds(l, a);
    assert forall e :: e in [l] ==> LitHolds(e, a);
    EvalVar(Start(c, i), a); EvalVar(OptStart(c, i, k), a);
    EvalVar(End(c, i), a); EvalVar(OptEnd(c, i, k), a);
    EvalVar(Duration(c, i), a); EvalVar(Floor(c, i), a); EvalVar(OptFloor(c, i, k), a);
    assert Holds(RuleIf(V(Start(c, i)), EQ, V(OptStart(c, i, k)), l), a);
    assert Holds(RuleIf(V(Duration(c, i)), EQ, K(opts[k].duration), l), a);
    assert Holds(RuleIf(V(End(c, i)), EQ, V(OptEnd(c, i, k)), l), a);
    assert Holds(RuleIf(V(OptFloor(c, i, k)), EQ, K(opts[k].roomFloor), l), a);
    assert Holds(RuleIf(V(Floor(c, i)), EQ, V(OptFloor(c, i, k)), l), a);
  }

  /** The slot's duration and floor are those of one of its options. */
  predicate TakesOption(a: Assignment, c: int, i: int, opts: seq<Task>) {
    exists k :: 0 <= k < |opts| && a(Duration(c, i)) == opts[k].duration && a(Floor(c, i)) == opts[k].roomFloor
  }

  /** In a solution of a slot's declarations and constraints the slot lasts the duration of one
      of its options and sits on that option's floor, and it starts no earlier than the previous
      slot ends. */
  lemma SlotMeaning(c: int, i: int, opts: seq<Task>, horizon: int, floors: int, a: Assignment)
    requires opts != []
    requires forall d :: d in SlotAllDecls(c, i, opts, horizon, floors) ==> DeclHolds(d, a)
    requires forall x :: x in SlotCons(c, i, opts) ==> Holds(x, a)
    ensures TakesOption(a, c, i, opts)
    ensures a(End(c, i)) == a(Start(c, i)) + a(Duration(c, i))
    ensures 0 <= a(Start(c, i)) && a(End(c, i)) <= horizon
    ensures i > 0 ==> a(Start(c, i)) >= a(End(c, i - 1))
  {
    EvalVar(Start(c, i), a); EvalVar(End(c, i - 1), a); EvalVar(Floor(c, i), a); EvalVar(Duration(c, i), a);
    var ds := SlotDecls(c, i, opts, horizon, floors);
    assert ds[1] in SlotAllDecls(c, i, opts, horizon, floors);
    assert ds[0] in SlotAllDecls(c, i, opts, horizon, floors);
    assert ds[2] in SlotAllDecls(c, i, opts, horizon, floors);
    assert ds[3] in SlotAllDecls(c, i, opts, horizon, floors);
    if i > 0 {
      assert Holds(Rule(V(Start(c, i)), GE, V(End(c, i - 1))), a);
    }
    if |opts| > 1 {
      var k := ChosenOption(c, i, opts, a);
    } else {
      assert Holds(Rule(V(Floor(c, i)), EQ, K(opts[0].roomFloor)), a);
    }
  }
}
