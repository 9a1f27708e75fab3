/** What `__define_variables` of the API-driven scheduler (`src/utils/solver_v2.py`) declares and
    constrains for every slot of every client, and how it fills the variable indexes the later
    phases read.  The indexes are keyed as the source keys them, by client and activity id, so a
    later slot of a client with the same id (two MRI slots, once renamed) replaces the earlier
    one there, while the per-activity lists keep both. */
module ApiVariables {
  import opened Wrappers
  import opened PyDict
  import opened Records
  import opened CpModel
  import opened ApiSetup
  import opened ApiClients

  /** The indexes `starts`, `ends`, `floors`, `orders`, `rooms`, `starts_per_activity` and
      `ends_per_activity`. */
  datatype Index = Index(
    starts: Dict<(int, PyVal), Var>,
    ends: Dict<(int, PyVal), Var>,
    floors: Dict<(int, PyVal), Var>,
    orders: Dict<(int, PyVal), Var>,
    rooms: Dict<(int, PyVal, PyVal), Var>,
    startsPer: Dict<PyVal, seq<Var>>,
    endsPer: Dict<PyVal, seq<Var>>)

  /** The CP-SAT model built so far, the indexes and `ends_per_client`. */
  datatype Model = Model(decls: seq<Decl>, cons: seq<Constraint>, index: Index, endsPerClient: seq<Option<Var>>)

  const EmptyIndex := Index([], [], [], [], [], [], [])

  /** The model of a new solver. */
  const EmptyModel := Model([], [], EmptyIndex, [])

  // One slot.

  /** The smallest and the largest duration of a slot's rooms: a TypeError unless every duration
      is a number (`min`, `max` and `NewIntVar` reject anything else). */
  function DurationBounds(opts: seq<Task>): (r: Result<(int, int)>)
    requires opts != []
    ensures r.Ok? <==> forall k :: 0 <= k < |opts| ==> Num(opts[k].duration).Some?
    ensures r.Err? ==> r.error == TypeError
    ensures r.Ok? ==> forall k :: 0 <= k < |opts| ==> r.value.0 <= Num(opts[k].duration).value <= r.value.1
    ensures r.Ok? ==> exists k :: 0 <= k < |opts| && r.value.0 == Num(opts[k].duration).value
    ensures r.Ok? ==> exists k :: 0 <= k < |opts| && r.value.1 == Num(opts[k].duration).value
  {
    var n := |opts|;
    if n == 1 then
      match Num(opts[0].duration)
      case Some(d) => Ok((d, d))
      case None => Err(TypeError)
    else
      var init := opts[..n - 1];
      assert forall k :: 0 <= k < n - 1 ==> init[k] == opts[k];
      var b :- DurationBounds(init);
      match Num(opts[n - 1].duration)
      case Some(d) => Ok((if d < b.0 then d else b.0, if d > b.1 then d else b.1))
      case None => Err(TypeError)
  }

  /** The start, duration, end, interval, floor and order variables of slot `i` of client `c`,
      whose schedule has `len` slots. */
  function SlotDecls(c: int, i: int, lo: int, hi: int, len: int, horizon: int, floors: int): seq<Decl> {
    [ IntVar(Start(c, i), 0, horizon),
      IntVar(Duration(c, i), lo, hi),
      IntVar(End(c, i), 0, horizon),
      IntervalVar(Interval(c, i), Start(c, i), V(Duration(c, i)), End(c, i), None),
      IntVar(Floor(c, i), 0, floors),
      IntVar(Order(c, i), 0, len - 1) ]
  }

  /** The first slot of the first client starts at 0; the first slot of any later client
      starts after the first slot of the client before it that has slots. */
  function FirstRule(c: int, prev: Option<Var>): Constraint {
    match prev
    case None => Rule(V(Start(c, 0)), EQ, K(0))
    case Some(p) => Rule(V(Start(c, 0)), GT, V(p))
  }

  /** Start and end on the interval grid, then the first-slot rule for slot 0. */
  function SlotHeadCons(c: int, i: int, prev: Option<Var>, interval: int): seq<Constraint> {
    [ModuloEquality(0, Start(c, i), interval), ModuloEquality(0, End(c, i), interval)] +
    (if i == 0 then [FirstRule(c, prev)] else [])
  }

  /** The slot's variables filed under `(c, id)` and appended under `id`. */
  function SlotIndex(x: Index, c: int, i: int, id: PyVal): Index {
    x.(starts := Put(x.starts, (c, id), Start(c, i)),
       ends := Put(x.ends, (c, id), End(c, i)),
       floors := Put(x.floors, (c, id), Floor(c, i)),
       orders := Put(x.orders, (c, id), Order(c, i)),
       startsPer := Append(x.startsPer, id, Start(c, i)),
       endsPer := Append(x.endsPer, id, End(c, i)))
  }

  /** Room `k` of a multi-room slot: an optional interval of the room's duration. */
  function OptionDecls(c: int, i: int, k: int, duration: int, horizon: int, floors: int): seq<Decl> {
    [ IntVar(OptStart(c, i, k), 0, horizon),
      IntVar(OptEnd(c, i, k), 0, horizon),
      BoolVar(OptLit(c, i, k)),
      IntervalVar(OptInterval(c, i, k), OptStart(c, i, k), K(duration), OptEnd(c, i, k), Some(OptLit(c, i, k))),
      IntVar(OptFloor(c, i, k), 0, floors) ]
  }

  /** When room `k` is chosen the slot takes its start, end, duration and floor. */
  function OptionCons(c: int, i: int, k: int, duration: int, floor: int): seq<Constraint> {
    var l := Pos(OptLit(c, i, k));
    [ RuleIf(V(OptStart(c, i, k)), EQ, V(Start(c, i)), l),
      RuleIf(V(OptEnd(c, i, k)), EQ, V(End(c, i)), l),
      RuleIf(K(duration), EQ, V(Duration(c, i)), l),
      RuleIf(V(OptFloor(c, i, k)), EQ, K(floor), l),
      RuleIf(V(OptFloor(c, i, k)), EQ, V(Floor(c, i)), l) ]
  }

  /** Rooms `0 .. n - 1` of a multi-room slot whose first activity has id `id`; a room id that
      cannot be hashed raises a TypeError. */
  function OptionsOf(m: Model, c: int, i: int, id: PyVal, opts: seq<Task>, n: nat, horizon: int, floors: int): (r: Result<Model>)
    requires n <= |opts|
    ensures r.Ok? ==> r.value.endsPerClient == m.endsPerClient && |m.cons| <= |r.value.cons| && r.value.cons[..|m.cons|] == m.cons
    ensures r.Ok? ==> r.value.index == m.index.(rooms := r.value.index.rooms)
  {
    if n == 0 then Ok(m)
    else
      var p :- OptionsOf(m, c, i, id, opts, n - 1, horizon, floors);
      var t := opts[n - 1];
      match Num(t.duration)
      case None => Err(TypeError)
      case Some(d) =>
        if !Hashable(t.roomId) then Err(TypeError)
        else
          assert (p.cons + OptionCons(c, i, n - 1, d, t.roomFloor))[..|m.cons|] == m.cons;
          Ok(Model(p.decls + OptionDecls(c, i, n - 1, d, horizon, floors),
                   p.cons + OptionCons(c, i, n - 1, d, t.roomFloor),
                   p.index.(rooms := Put(p.index.rooms, (c, id, t.roomId), OptLit(c, i, n - 1))),
                   p.endsPerClient))
  }

  /** Slot `i` of client `c` (a schedule of `len` slots): an IndexError when it has no room, a
      TypeError for a duration that is not a number, unset settings or an id that cannot be
      hashed; otherwise its variables and head constraints, then either one optional interval
      per room with exactly one chosen, or the constant room literal and the room's floor. */
  function SlotStep(m: Model, c: int, i: int, opts: seq<Task>, len: int, prev: Option<Var>, s: Option<Settings>, floors: int): (r: Result<Model>)
    ensures r.Ok? ==> opts != [] && s.Some? && r.value.endsPerClient == m.endsPerClient
    ensures r.Ok? ==> |m.cons| <= |r.value.cons| && r.value.cons[..|m.cons|] == m.cons
  {
    if opts == [] then Err(IndexError)
    else
      var b :- DurationBounds(opts);
      if s.None? then Err(TypeError)
      else
        var id := opts[0].id;
        if !Hashable(id) then Err(TypeError)
        else
          var m1 := Model(m.decls + SlotDecls(c, i, b.0, b.1, len, s.value.horizon, floors),
                          m.cons + SlotHeadCons(c, i, prev, s.value.interval),
                          SlotIndex(m.index, c, i, id), m.endsPerClient);
          assert m1.cons[..|m.cons|] == m.cons;
          if |opts| > 1 then
            var m2 :- OptionsOf(m1, c, i, id, opts, |opts|, s.value.horizon, floors);
            assert (m2.cons + [ExactlyOne(Lits(c, i, |opts|))])[..|m.cons|] == m.cons;
            Ok(m2.(cons := m2.cons + [ExactlyOne(Lits(c, i, |opts|))]))
          else if !Hashable(opts[0].roomId) then Err(TypeError)
          else
            assert (m1.cons + [Rule(V(Floor(c, i)), EQ, K(opts[0].roomFloor))])[..|m.cons|] == m.cons;
            Ok(m1.(decls := m1.decls + [Constant(One, 1)],
                   cons := m1.cons + [Rule(V(Floor(c, i)), EQ, K(opts[0].roomFloor))],
                   index := m1.index.(rooms := Put(m1.index.rooms, (c, id, opts[0].roomId), One))))
  }

  /** A defined slot is filed under its client and first activity id in `starts`, `ends`,
      `floors` and `orders`, and appended to that id's lists in `starts_per_activity` and
      `ends_per_activity`, whose other lists stay as they were. */
  lemma SlotFiled(m: Model, c: int, i: int, opts: seq<Task>, len: int, prev: Option<Var>, s: Option<Settings>, floors: int, r: Model, k: PyVal)
    requires SlotStep(m, c, i, opts, len, prev, s, floors) == Ok(r)
    ensures Get(r.index.starts, (c, opts[0].id)) == Some(Start(c, i)) && Get(r.index.ends, (c, opts[0].id)) == Some(End(c, i))
    ensures Get(r.index.floors, (c, opts[0].id)) == Some(Floor(c, i)) && Get(r.index.orders, (c, opts[0].id)) == Some(Order(c, i))
    ensures GetList(r.index.startsPer, k) == GetList(m.index.startsPer, k) + (if k == opts[0].id then [Start(c, i)] else [])
    ensures GetList(r.index.endsPer, k) == GetList(m.index.endsPer, k) + (if k == opts[0].id then [End(c, i)] else [])
  {
    var x := m.index;
    var id := opts[0].id;
    assert r.index.(rooms := x.rooms) == SlotIndex(x, c, i, id);
    GetPutSame(x.starts, (c, id), Start(c, i));
    GetPutSame(x.ends, (c, id), End(c, i));
    GetPutSame(x.floors, (c, id), Floor(c, i));
    GetPutSame(x.orders, (c, id), Order(c, i));
    AppendGetList(x.startsPer, id, Start(c, i), k);
    AppendGetList(x.endsPer, id, End(c, i), k);
  }

  // What the constraints say.

  /** The constraints of slot `i` of client `c` (with `nOpts` rooms) that the properties below
      rest on. */
  predicate SlotRules(cons: seq<Constraint>, c: int, i: int, nOpts: int, prev: Option<Var>, interval: int) {
    && ModuloEquality(0, Start(c, i), interval) in cons
    && ModuloEquality(0, End(c, i), interval) in cons
    && (i == 0 ==> FirstRule(c, prev) in cons)
    && (nOpts > 1 ==> ExactlyOne(Lits(c, i, nOpts)) in cons)
  }

  /** `b` begins with `a`. */
  predicate Extends(b: seq<Constraint>, a: seq<Constraint>) {
    |a| <= |b| && b[..|a|] == a
  }

  lemma ExtendsTrans(a: seq<Constraint>, b: seq<Constraint>, d: seq<Constraint>)
    requires Extends(b, a) && Extends(d, b)
    ensures Extends(d, a)
  {
    assert d[..|b|][..|a|] == d[..|a|];
  }

  lemma SlotRulesGrow(a: seq<Constraint>, b: seq<Constraint>, c: int, i: int, nOpts: int, prev: Option<Var>, interval: int)
    requires SlotRules(a, c, i, nOpts, prev, interval) && Extends(b, a)
    ensures SlotRules(b, c, i, nOpts, prev, interval)
  {
    assert forall x :: x in a ==> x in b by {
      forall x | x in a ensures x in b {
        var j :| 0 <= j < |a| && a[j] == x;
        assert b[j] == x;
      }
    }
  }

  /** A defined slot has its rules. */
  lemma SlotHasRules(m: Model, c: int, i: int, opts: seq<Task>, len: int, prev: Option<Var>, s: Option<Settings>, floors: int, r: Model)
    requires SlotStep(m, c, i, opts, len, prev, s, floors) == Ok(r)
    ensures SlotRules(r.cons, c, i, |opts|, prev, s.value.interval)
  {
    var b := DurationBounds(opts).value;
    var id := opts[0].id;
    var m1 := Model(m.decls + SlotDecls(c, i, b.0, b.1, len, s.value.horizon, floors),
                    m.cons + SlotHeadCons(c, i, prev, s.value.interval),
                    SlotIndex(m.index, c, i, id), m.endsPerClient);
    var head := SlotHeadCons(c, i, prev, s.value.interval);
    assert m1.cons[|m.cons|] == head[0] && m1.cons[|m.cons| + 1] == head[1];
    assert i == 0 ==> m1.cons[|m.cons| + 2] == head[2];
    assert SlotRules(m1.cons, c, i, 1, prev, s.value.interval);
    if |opts| > 1 {
      var m2 := OptionsOf(m1, c, i, id, opts, |opts|, s.value.horizon, floors).value;
      SlotRulesGrow(m1.cons, m2.cons, c, i, 1, prev, s.value.interval);
      SlotRulesGrow(m2.cons, r.cons, c, i, 1, prev, s.value.interval);
      assert r.cons[|m2.cons|] == ExactlyOne(Lits(c, i, |opts|));
    } else {
      SlotRulesGrow(m1.cons, r.cons, c, i, 1, prev, s.value.interval);
    }
  }

  /** The rules of slots `0 .. n - 1` of client `c`. */
  predicate ClientRules(cons: seq<Constraint>, c: int, sched: seq<seq<Task>>, n: int, prev: Option<Var>, interval: int)
    requires n <= |sched|
  {
    forall i :: 0 <= i < n ==> SlotRules(cons, c, i, |sched[i]|, prev, interval)
  }

  lemma ClientRulesGrow(a: seq<Constraint>, b: seq<Constraint>, c: int, sched: seq<seq<Task>>, n: int, prev: Option<Var>, interval: int)
    requires n <= |sched| && ClientRules(a, c, sched, n, prev, interval) && Extends(b, a)
    ensures ClientRules(b, c, sched, n, prev, interval)
  {
    forall i | 0 <= i < n ensures SlotRules(b, c, i, |sched[i]|, prev, interval) {
      SlotRulesGrow(a, b, c, i, |sched[i]|, prev, interval);
    }
  }

  // Clients.

  /** Slots `0 .. n - 1` of client `c`: each keeps its grid, first-slot and one-room rules. */
  function ClientSlots(m: Model, c: int, sched: seq<seq<Task>>, n: nat, prev: Option<Var>, s: Option<Settings>, floors: int): (r: Result<Model>)
    requires n <= |sched|
    decreases n
    ensures r.Ok? ==> r.value.endsPerClient == m.endsPerClient && Extends(r.value.cons, m.cons)
    ensures r.Ok? && n > 0 ==> s.Some? && ClientRules(r.value.cons, c, sched, n, prev, s.value.interval)
  {
    if n == 0 then Ok(m)
    else
      var p :- ClientSlots(m, c, sched, n - 1, prev, s, floors);
      var q :- SlotStep(p, c, n - 1, sched[n - 1], |sched|, prev, s, floors);
      ClientSlotsStep(m, p, q, c, sched, n, prev, s, floors);
      Ok(q)
  }

  /** Slot `n - 1` adds its rules and keeps those of the slots before it. */
  lemma ClientSlotsStep(m: Model, p: Model, q: Model, c: int, sched: seq<seq<Task>>, n: nat, prev: Option<Var>, s: Option<Settings>, floors: int)
    requires 0 < n <= |sched| && Extends(p.cons, m.cons)
    requires n > 1 ==> s.Some? && ClientRules(p.cons, c, sched, n - 1, prev, s.value.interval)
    requires SlotStep(p, c, n - 1, sched[n - 1], |sched|, prev, s, floors) == Ok(q)
    ensures s.Some? && Extends(q.cons, m.cons) && ClientRules(q.cons, c, sched, n, prev, s.value.interval)
  {
    SlotHasRules(p, c, n - 1, sched[n - 1], |sched|, prev, s, floors, q);
    ExtendsTrans(m.cons, p.cons, q.cons);
    if n > 1 {
      ClientRulesGrow(p.cons, q.cons, c, sched, n - 1, prev, s.value.interval);
    }
  }

  /** The end of a client's last slot, recorded in `ends_per_client`. */
  function LastEnd(c: int, sched: seq<seq<Task>>): Option<Var> {
    if sched == [] then None else Some(End(c, |sched| - 1))
  }

  /** The first start of the nearest client before `c` that has slots. */
  function PrevFirst(scheds: seq<seq<seq<Task>>>, c: int): (r: Option<Var>)
    requires 0 <= c <= |scheds|
    ensures r.Some? ==> exists p :: 0 <= p < c && scheds[p] != [] && r == Some(Start(p, 0))
  {
    if c == 0 then None
    else if scheds[c - 1] != [] then Some(Start(c - 1, 0))
    else PrevFirst(scheds, c - 1)
  }

  /** Client `c`: its slots, then the end of its last slot. */
  function ClientStep(m: Model, c: int, sched: seq<seq<Task>>, prev: Option<Var>, s: Option<Settings>, floors: int): (r: Result<Model>)
    ensures r.Ok? ==> r.value.endsPerClient == m.endsPerClient + [LastEnd(c, sched)] && Extends(r.value.cons, m.cons)
    ensures r.Ok? && sched != [] ==> s.Some? && ClientRules(r.value.cons, c, sched, |sched|, prev, s.value.interval)
  {
    var p :- ClientSlots(m, c, sched, |sched|, prev, s, floors);
    Ok(p.(endsPerClient := p.endsPerClient + [LastEnd(c, sched)]))
  }

  /** The rules of every slot of clients `0 .. n - 1`. */
  predicate ClientsRules(cons: seq<Constraint>, scheds: seq<seq<seq<Task>>>, n: int, interval: int)
    requires 0 <= n <= |scheds|
  {
    forall c :: 0 <= c < n ==> ClientRules(cons, c, scheds[c], |scheds[c]|, PrevFirst(scheds, c), interval)
  }

  lemma ClientsRulesGrow(a: seq<Constraint>, b: seq<Constraint>, scheds: seq<seq<seq<Task>>>, n: int, interval: int)
    requires 0 <= n <= |scheds| && ClientsRules(a, scheds, n, interval) && Extends(b, a)
    ensures ClientsRules(b, scheds, n, interval)
  {
    forall c | 0 <= c < n ensures ClientRules(b, c, scheds[c], |scheds[c]|, PrevFirst(scheds, c), interval) {
      ClientRulesGrow(a, b, c, scheds[c], |scheds[c]|, PrevFirst(scheds, c), interval);
    }
  }

  /** Clients `0 .. n - 1`, one `ends_per_client` entry each: once settings are set, every slot
      keeps its rules, the first-slot rule pointing at the nearest earlier client with slots. */
  function Clients(m: Model, scheds: seq<seq<seq<Task>>>, n: nat, s: Option<Settings>, floors: int): (r: Result<Model>)
    requires n <= |scheds|
    decreases n
    ensures r.Ok? ==> |r.value.endsPerClient| == |m.endsPerClient| + n && Extends(r.value.cons, m.cons)
    ensures r.Ok? && s.Some? ==> ClientsRules(r.value.cons, scheds, n, s.value.interval)
    ensures r.Ok? && s.None? ==> forall c :: 0 <= c < n ==> scheds[c] == []
  {
    if n == 0 then Ok(m)
    else
      var p :- Clients(m, scheds, n - 1, s, floors);
      var q :- ClientStep(p, n - 1, scheds[n - 1], PrevFirst(scheds, n - 1), s, floors);
      ClientsStep(m, p, q, scheds, n, s);
      Ok(q)
  }

  /** Client `n - 1` adds the rules of its slots and keeps those of the clients before it. */
  lemma ClientsStep(m: Model, p: Model, q: Model, scheds: seq<seq<seq<Task>>>, n: nat, s: Option<Settings>)
    requires 0 < n <= |scheds| && Extends(p.cons, m.cons) && Extends(q.cons, p.cons)
    requires s.Some? ==> ClientsRules(p.cons, scheds, n - 1, s.value.interval)
    requires s.None? ==> forall c :: 0 <= c < n - 1 ==> scheds[c] == []
    requires scheds[n - 1] != [] ==>
      s.Some? && ClientRules(q.cons, n - 1, scheds[n - 1], |scheds[n - 1]|, PrevFirst(scheds, n - 1), s.value.interval)
    ensures Extends(q.cons, m.cons)
    ensures s.Some? ==> ClientsRules(q.cons, scheds, n, s.value.interval)
    ensures s.None? ==> forall c :: 0 <= c < n ==> scheds[c] == []
  {
    ExtendsTrans(m.cons, p.cons, q.cons);
    if s.Some? {
      var interval := s.value.interval;
      forall c | 0 <= c < n ensures ClientRules(q.cons, c, scheds[c], |scheds[c]|, PrevFirst(scheds, c), interval) {
        if c < n - 1 {
          ClientRulesGrow(p.cons, q.cons, c, scheds[c], |scheds[c]|, PrevFirst(scheds, c), interval);
        }
      }
    }
  }

  /** `__define_variables`: an AssertionError without schedules, otherwise every client. */
  function DefineVars(m: Model, scheds: seq<seq<seq<Task>>>, s: Option<Settings>, floors: int): (r: Result<Model>)
    ensures scheds == [] ==> r == Err(AssertionError("Invalid schedules"))
    ensures r.Ok? ==> |r.value.endsPerClient| == |m.endsPerClient| + |scheds| > 0 && Extends(r.value.cons, m.cons)
    ensures r.Ok? && s.Some? ==> ClientsRules(r.value.cons, scheds, |scheds|, s.value.interval)
    ensures r.Ok? && s.None? ==> forall c :: 0 <= c < |scheds| ==> scheds[c] == []
  {
    if scheds == [] then Err(AssertionError("Invalid schedules"))
    else Clients(m, scheds, |scheds|, s, floors)
  }

  /** A multiple of `m` leaves no remainder. */
  lemma MultipleMod(x: int, m: int, q: int)
    requires m > 0 && x == m * q
    ensures x % m == 0
  {
    var d := q - x / m;
    assert m * d == x % m;
  }

  /** C++ `%` is zero exactly when Python's is. */
  lemma TruncModZero(x: int, m: int)
    requires m > 0
    ensures TruncMod(x, m) == 0 <==> x % m == 0
  {
    if x < 0 {
      if (-x) % m == 0 {
        MultipleMod(x, m, -((-x) / m));
      }
      if x % m == 0 {
        MultipleMod(-x, m, -(x / m));
      }
    }
  }

  /** What the rules of one slot say about a solution. */
  lemma SlotMeaning(decls: seq<Decl>, cons: seq<Constraint>, a: Assignment, c: int, i: int, nOpts: int, prev: Option<Var>, interval: int)
    requires Solution(decls, cons, a) && SlotRules(cons, c, i, nOpts, prev, interval)
    ensures interval > 0 && a(Start(c, i)) % interval == 0 && a(End(c, i)) % interval == 0
    ensures nOpts > 1 ==> CountTrue(Lits(c, i, nOpts), a) == 1
    ensures i == 0 && prev == None ==> a(Start(c, 0)) == 0
    ensures i == 0 && prev.Some? ==> a(Start(c, 0)) > a(prev.value)
  {
    assert Holds(ModuloEquality(0, Start(c, i), interval), a);
    assert Holds(ModuloEquality(0, End(c, i), interval), a);
    TruncModZero(a(Start(c, i)), interval);
    TruncModZero(a(End(c, i)), interval);
    if nOpts > 1 {
      assert Holds(ExactlyOne(Lits(c, i, nOpts)), a);
    }
    if i == 0 {
      assert Holds(FirstRule(c, prev), a);
      EvalVar(Start(c, 0), a);
      if prev.Some? {
        EvalVar(prev.value, a);
      }
    }
  }

  /** In every solution of the defined model each slot starts and ends on the interval grid, a
      multi-room slot takes exactly one of its rooms, the first client's first slot starts at 0
      and every later client's first slot starts after that of the nearest earlier client with
      slots. */
  lemma DefinedMeaning(m: Model, scheds: seq<seq<seq<Task>>>, s: Option<Settings>, floors: int, r: Model, a: Assignment, c: int, i: int)
    requires DefineVars(m, scheds, s, floors) == Ok(r) && Solution(r.decls, r.cons, a)
    requires 0 <= c < |scheds| && 0 <= i < |scheds[c]|
    ensures s.Some? && s.value.interval > 0
    ensures a(Start(c, i)) % s.value.interval == 0 && a(End(c, i)) % s.value.interval == 0
    ensures |scheds[c][i]| > 1 ==> CountTrue(Lits(c, i, |scheds[c][i]|), a) == 1
    ensures i == 0 && PrevFirst(scheds, c) == None ==> a(Start(c, 0)) == 0
    ensures i == 0 && PrevFirst(scheds, c).Some? ==> a(Start(c, 0)) > a(PrevFirst(scheds, c).value)
  {
    assert ClientRules(r.cons, c, scheds[c], |scheds[c]|, PrevFirst(scheds, c), s.value.interval);
    SlotMeaning(r.decls, r.cons, a, c, i, |scheds[c][i]|, PrevFirst(scheds, c), s.value.interval);
  }
}
