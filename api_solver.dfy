/** The API-driven scheduler, `Solver` in `src/utils/solver_v2.py`: its setters, which turn the
    JSON objects they are given into records and the indexes the phases read, and `generate`,
    which runs the phases, hands the model to the solver and reads the schedules back. */
module ApiSolver {
  import opened Wrappers
  import opened PyDict
  import opened Records
  import opened CpModel
  import opened Sorting
  import opened ApiSetup
  import opened ApiClients
  import opened ApiVariables
  import opened ApiRules
  import opened ApiGenerate
  import Serializer

  /** What the phases of `generate` make of the solver's state before solving:
      `__initialize_variables`, `__define_variables`, the interpreted general rules,
      `__apply_activity_constraints` and `__define_objective`, whose sum of `gaps` is empty: only
      the transfer constraint appends to `gaps`, and it is not part of this model. */
  function Built(x: Expansion, rooms: Option<RoomsMap>, sa: PyVal, assessments: seq<PyVal>, m: Model,
                 s: Option<Settings>, clock: string -> Option<(nat, nat, nat)>): Result<(Expansion, Model)>
  {
    var y :- Expand(x, rooms, sa, assessments);
    var d :- DefineVars(m, y.schedules, s, y.numFloors);
    var general :- GeneralRules(d.index, |y.schedules|);
    var activity :- ActivityRules(assessments, d.index, |y.schedules|, s, clock);
    if |d.endsPerClient| == 0 then Err(AssertionError("Invalid number of last activity end times"))
    else Ok((y, d.(cons := d.cons + general + activity + [Minimize(SumOf([]))])))
  }

  /** Where the phases of `generate` leave the solver: the indexes, schedules and floor count,
      the model, and the exception that stopped them, if any.  A phase that completes writes its
      results to the solver before the next one runs, and nothing undoes them when a later phase
      raises. */
  datatype Stage = Stage(x: Expansion, m: Model, failure: Option<Error>)

  /** The phases after the initialisation, on the model: the variables, the general rules, the
      activity rules and the objective, each adding to the model the previous one left.  A
      failing variables phase leaves the model as it was; once the variables are defined, the
      model keeps them and the constraints added before the phase that raised. */
  function Constrained(m: Model, y: Expansion, assessments: seq<PyVal>, s: Option<Settings>,
                       clock: string -> Option<(nat, nat, nat)>): (r: (Model, Option<Error>))
    ensures DefineVars(m, y.schedules, s, y.numFloors).Err? ==> r == (m, Some(DefineVars(m, y.schedules, s, y.numFloors).error))
    ensures DefineVars(m, y.schedules, s, y.numFloors).Ok? ==>
      var d := DefineVars(m, y.schedules, s, y.numFloors).value;
      r.0.decls == d.decls && r.0.index == d.index && r.0.endsPerClient == d.endsPerClient && d.cons <= r.0.cons
  {
    match DefineVars(m, y.schedules, s, y.numFloors)
    case Err(e) => (m, Some(e))
    case Ok(d) =>
      match GeneralRules(d.index, |y.schedules|)
      case Err(e) => (d, Some(e))
      case Ok(general) =>
        var g := d.(cons := d.cons + general);
        match ActivityRules(assessments, d.index, |y.schedules|, s, clock)
        case Err(e) => (g, Some(e))
        case Ok(activity) =>
          var h := g.(cons := g.cons + activity);
          if |d.endsPerClient| == 0 then (h, Some(AssertionError("Invalid number of last activity end times")))
          else (h.(cons := h.cons + [Minimize(SumOf([]))]), None)
  }

  /** The phases of `generate` run one after the other on the solver's fields: a failing
      initialisation leaves everything as it was; once it completes, its indexes, schedules and
      floor count stay whatever the later phases do, and the model is what they leave
      (`Constrained`). */
  function Staged(x: Expansion, rooms: Option<RoomsMap>, sa: PyVal, assessments: seq<PyVal>, m: Model,
                  s: Option<Settings>, clock: string -> Option<(nat, nat, nat)>): (r: Stage)
    ensures Expand(x, rooms, sa, assessments).Err? ==> r == Stage(x, m, Some(Expand(x, rooms, sa, assessments).error))
    ensures Expand(x, rooms, sa, assessments).Ok? ==> r.x == Expand(x, rooms, sa, assessments).value
  {
    match Expand(x, rooms, sa, assessments)
    case Err(e) => Stage(x, m, Some(e))
    case Ok(y) =>
      var c := Constrained(m, y, assessments, s, clock);
      Stage(y, c.0, c.1)
  }

  lemma SolutionParts(decls: seq<Decl>, p: seq<Constraint>, q: seq<Constraint>, r: seq<Constraint>, o: Constraint, a: Assignment)
    requires Solution(decls, p + q + r + [o], a)
    ensures Solution(decls, p, a) && AllHold(q, a) && AllHold(r, a)
  {
    var all := p + q + r + [o];
    forall c | c in p ensures Holds(c, a) {
      assert c in all;
    }
    forall k | 0 <= k < |q| ensures Holds(q[k], a) {
      assert all[|p| + k] == q[k];
    }
    forall k | 0 <= k < |r| ensures Holds(r[k], a) {
      assert all[|p| + |q| + k] == r[k];
    }
  }

  /** The phases run on the solver's fields end without an exception exactly when the build
      succeeds, with the build's result; otherwise they end with the build's exception. */
  lemma StagedBuilt(x: Expansion, rooms: Option<RoomsMap>, sa: PyVal, assessments: seq<PyVal>, m: Model,
                    s: Option<Settings>, clock: string -> Option<(nat, nat, nat)>)
    ensures var r := Staged(x, rooms, sa, assessments, m, s, clock);
      && (r.failure.None? <==> Built(x, rooms, sa, assessments, m, s, clock).Ok?)
      && (r.failure.None? ==> Built(x, rooms, sa, assessments, m, s, clock) == Ok((r.x, r.m)))
      && (r.failure.Some? ==> Built(x, rooms, sa, assessments, m, s, clock) == Err(r.failure.value))
  {
  }

  /** The phases of a build that succeeds, one by one. */
  lemma BuiltParts(x: Expansion, rooms: Option<RoomsMap>, sa: PyVal, assessments: seq<PyVal>, m: Model,
                   s: Option<Settings>, clock: string -> Option<(nat, nat, nat)>, y: Expansion, built: Model)
    requires Built(x, rooms, sa, assessments, m, s, clock) == Ok((y, built))
    ensures Expand(x, rooms, sa, assessments) == Ok(y)
    ensures DefineVars(m, y.schedules, s, y.numFloors).Ok?
    ensures var d := DefineVars(m, y.schedules, s, y.numFloors).value;
      && GeneralRules(d.index, |y.schedules|).Ok? && ActivityRules(assessments, d.index, |y.schedules|, s, clock).Ok?
      && built == d.(cons := d.cons + GeneralRules(d.index, |y.schedules|).value +
                             ActivityRules(assessments, d.index, |y.schedules|, s, clock).value + [Minimize(SumOf([]))])
  {
  }

  /** In every solution of the built model each slot keeps the rules it was defined with (see
      `DefinedMeaning`), every client's check-in shares its room with its lunch and its checkout,
      the MRI slots are spread apart, and every activity condition of every assessment holds for
      every client. */
  lemma BuiltMeaning(x: Expansion, rooms: Option<RoomsMap>, sa: PyVal, assessments: seq<PyVal>, m: Model,
                     s: Option<Settings>, clock: string -> Option<(nat, nat, nat)>, y: Expansion, built: Model, a: Assignment)
    requires Built(x, rooms, sa, assessments, m, s, clock) == Ok((y, built)) && Solution(built.decls, built.cons, a)
    ensures Expand(x, rooms, sa, assessments) == Ok(y)
    ensures DefineVars(m, y.schedules, s, y.numFloors).Ok?
    ensures var d := DefineVars(m, y.schedules, s, y.numFloors).value;
      d.index == built.index && Solution(d.decls, d.cons, a)
    ensures forall c :: 0 <= c < |y.schedules| ==> ClientPaired(built.index.rooms, c, a)
    ensures Spread(GetList(built.index.startsPer, Mri), GetList(built.index.endsPer, Mri), a)
    ensures forall j :: 0 <= j < |assessments| ==> Satisfied(assessments[j], built.index, |y.schedules|, s, clock, a)
  {
    BuiltParts(x, rooms, sa, assessments, m, s, clock, y, built);
    var d := DefineVars(m, y.schedules, s, y.numFloors).value;
    var general := GeneralRules(d.index, |y.schedules|).value;
    var activity := ActivityRules(assessments, d.index, |y.schedules|, s, clock).value;
    SolutionParts(d.decls, d.cons, general, activity, Minimize(SumOf([])), a);
    GeneralRulesMeaning(d.index, |y.schedules|, a);
    ActivityRulesMeaning(assessments, d.index, |y.schedules|, s, clock, a);
  }

  /** `[activity for activity in ds]` after `activity.pop('time_allocations')`. */
  function Popped(ds: seq<Dict<string, PyVal>>): (r: seq<Dict<string, PyVal>>)
    ensures |r| == |ds| && forall i :: 0 <= i < |ds| ==> r[i] == Without(ds[i], "time_allocations")
  {
    seq(|ds|, i requires 0 <= i < |ds| => Without(ds[i], "time_allocations"))
  }

  lemma AllocationsSnoc(ds: seq<Dict<string, PyVal>>, i: int, tas: seq<PyVal>, ta: PyVal)
    requires 0 <= i < |ds| && Allocations(ds[..i]) == Ok(tas) && Item(ds[i], "time_allocations") == Ok(ta)
    ensures Allocations(ds[..i + 1]) == Ok(tas + [ta])
  {
    assert ds[..i + 1][..i] == ds[..i];
  }

  lemma {:induction false} AllocationsFails(ds: seq<Dict<string, PyVal>>, i: int)
    requires 0 <= i < |ds| && Allocations(ds[..i]).Ok? && Item(ds[i], "time_allocations").Err?
    ensures Allocations(ds) == Err(KeyError)
  {
    if i < |ds| - 1 {
      assert ds[..|ds| - 1][..i] == ds[..i];
      AllocationsFails(ds[..|ds| - 1], i);
    } else {
      assert ds[..|ds| - 1] == ds[..i];
    }
  }

  lemma PlacementsSnoc(xs: seq<PyVal>, i: int, ps: seq<(PyVal, PyVal)>, p: (PyVal, PyVal))
    requires 0 <= i < |xs| && Placements(xs[..i]) == Ok(ps) && Placement(xs[i]) == Ok(p)
    ensures Placements(xs[..i + 1]) == Ok(ps + [p])
  {
    assert xs[..i + 1][..i] == xs[..i];
  }

  /** The grouping stops with the error of its first failing resource. */
  lemma {:induction false} PlacementsFails(xs: seq<PyVal>, i: int)
    requires 0 <= i < |xs| && Placements(xs[..i]).Ok? && Placement(xs[i]).Err?
    ensures Placements(xs) == Err(Placement(xs[i]).error)
  {
    if i < |xs| - 1 {
      assert xs[..|xs| - 1][..i] == xs[..i];
      PlacementsFails(xs[..|xs| - 1], i);
    } else {
      assert xs[..|xs| - 1] == xs[..i];
    }
  }

  /** The state the grouping loop leaves when resource `j` fails: the resources before it
      placed and grouped, `j` itself recording its key when only the key could not be hashed,
      the rest untouched. */
  ghost predicate StoppedAt(xs: seq<PyVal>, j: int, res: seq<PyVal>, rooms: RoomsMap) {
    && 0 <= j < |xs| && |res| == |xs| && Placements(xs[..j]).Ok?
    && rooms == AppendAll([], Placements(xs[..j]).value)
    && res[..j] == Placed(Placements(xs[..j]).value) && res[j + 1..] == xs[j + 1..]
    && (res[j] == xs[j] || (ApiSetup.RoomKey(xs[j]).Ok? && SetData(xs[j], "room", ApiSetup.RoomKey(xs[j]).value) == Ok(res[j])))
  }

  lemma StoppedHere(xs: seq<PyVal>, i: int, ps: seq<(PyVal, PyVal)>, x: PyVal)
    requires 0 <= i < |xs| && Placements(xs[..i]) == Ok(ps)
    requires x == xs[i] || (ApiSetup.RoomKey(xs[i]).Ok? && SetData(xs[i], "room", ApiSetup.RoomKey(xs[i]).value) == Ok(x))
    ensures StoppedAt(xs, i, (Placed(ps) + xs[i..])[i := x], AppendAll([], ps))
  {
    var res := (Placed(ps) + xs[i..])[i := x];
    assert res[..i] == Placed(ps);
    assert res[i + 1..] == xs[i + 1..];
  }

  /** Resource `i` fails before anything is recorded for it. */
  lemma StoppedBefore(xs: seq<PyVal>, i: int, ps: seq<(PyVal, PyVal)>)
    requires 0 <= i < |xs| && Placements(xs[..i]) == Ok(ps)
    ensures StoppedAt(xs, i, Placed(ps) + xs[i..], AppendAll([], ps))
  {
    StoppedHere(xs, i, ps, xs[i]);
    assert (Placed(ps) + xs[i..])[i := xs[i]] == Placed(ps) + xs[i..];
  }

  lemma PlacedSnoc(ps: seq<(PyVal, PyVal)>, p: (PyVal, PyVal), rest: seq<PyVal>)
    requires rest != []
    ensures (Placed(ps) + rest)[|ps| := p.1] == Placed(ps + [p]) + rest[1..]
  {
  }

  lemma AllEntriesSnoc(acts: seq<PyVal>, j: int, es: seq<((PyVal, string), Entry)>, more: seq<((PyVal, string), Entry)>)
    requires 0 <= j < |acts| && AllEntries(acts[..j]) == Ok(es) && ActivityEntries(acts[j]) == Ok(more)
    ensures AllEntries(acts[..j + 1]) == Ok(es + more)
  {
    assert acts[..j + 1][..j] == acts[..j];
  }

  /** The index stops with the error of its first failing activity. */
  lemma {:induction false} AllEntriesFails(acts: seq<PyVal>, j: int)
    requires 0 <= j < |acts| && AllEntries(acts[..j]).Ok? && ActivityEntries(acts[j]).Err?
    ensures AllEntries(acts) == Err(ActivityEntries(acts[j]).error)
  {
    if j < |acts| - 1 {
      assert acts[..|acts| - 1][..j] == acts[..j];
      AllEntriesFails(acts[..|acts| - 1], j);
    } else {
      assert acts[..|acts| - 1] == acts[..j];
    }
  }

  lemma {:induction false} AppendAllConcat<K, V>(d: Dict<K, seq<V>>, p: seq<(K, V)>, q: seq<(K, V)>)
    ensures AppendAll(d, p + q) == AppendAll(AppendAll(d, p), q)
    decreases |q|
  {
    if q != [] {
      var q' := q[..|q| - 1];
      assert (p + q)[..|p + q| - 1] == p + q';
      AppendAllConcat(d, p, q');
    } else {
      assert p + q == p;
    }
  }

  lemma ActivityRowsSnoc(x: Index, client: int, ps: seq<(PyVal, int)>, a: Assignment, i: int, rows: seq<Row>, row: Row)
    requires 0 <= i < |ps| && ActivityRows(x, client, ps[..i], a) == Ok(rows) && ActivityRow(x, client, ps[i], a) == Ok(row)
    ensures ActivityRows(x, client, ps[..i + 1], a) == Ok(rows + [row])
  {
    assert ps[..i + 1][..i] == ps[..i];
  }

  /** A client's rows stop with the error of its first failing activity. */
  lemma {:induction false} ActivityRowsFails(x: Index, client: int, ps: seq<(PyVal, int)>, a: Assignment, i: int)
    requires 0 <= i < |ps| && ActivityRows(x, client, ps[..i], a).Ok? && ActivityRow(x, client, ps[i], a).Err?
    ensures ActivityRows(x, client, ps, a) == Err(ActivityRow(x, client, ps[i], a).error)
  {
    if i < |ps| - 1 {
      assert ps[..|ps| - 1][..i] == ps[..i];
      ActivityRowsFails(x, client, ps[..|ps| - 1], a, i);
    } else {
      assert ps[..|ps| - 1] == ps[..i];
    }
  }

  lemma {:induction false} TransferRowsFails(t: Transfers, client: int, a: Assignment, k: nat, n: nat)
    requires k < n <= |t.starts| && TransferRows(t, client, a, k).Ok? && TransferStep(t, client, t.starts[k], a).Err?
    ensures TransferRows(t, client, a, n) == Err(KeyError)
    decreases n
  {
    if n > k + 1 {
      TransferRowsFails(t, client, a, k, n - 1);
    }
  }

  lemma TransferRowsSnoc(t: Transfers, client: int, a: Assignment, k: nat, trs: seq<Row>, more: seq<Row>)
    requires k < |t.starts| && TransferRows(t, client, a, k) == Ok(trs) && TransferStep(t, client, t.starts[k], a) == Ok(more)
    ensures TransferRows(t, client, a, k + 1) == Ok(trs + more)
  {
  }

  lemma ClientRowsOf(x: Index, t: Transfers, client: int, a: Assignment, rows: Result<seq<Row>>, trs: Result<seq<Row>>)
    requires rows == ActivityRows(x, client, OrderedStarts(x, client, a), a)
    requires rows.Ok? ==> trs == TransferRows(t, client, a, |t.starts|)
    ensures rows.Err? ==> ClientRows(x, t, client, a) == Err(rows.error)
    ensures rows.Ok? && trs.Err? ==> ClientRows(x, t, client, a) == Err(trs.error)
    ensures rows.Ok? && trs.Ok? ==> ClientRows(x, t, client, a) == Ok(SortBy(rows.value + trs.value, RowStart, IntLe))
  {
  }

  /** The loop over a client's activities, ordered by start: the room of the first set room
      literal (a StopIteration without one), the floor and the end. */
  method ActivityRowsOf(x: Index, client: int, acts: seq<(PyVal, int)>, a: Assignment) returns (r: Result<seq<Row>>)
    ensures r == ActivityRows(x, client, acts, a)
  {
    var rows: seq<Row> := [];
    var i := 0;
    while i < |acts|
      invariant 0 <= i <= |acts| && ActivityRows(x, client, acts[..i], a) == Ok(rows)
    {
      var id := acts[i].0;
      var room := RoomChosen(x.rooms, client, id, a);
      var floor := Look(x.floors, client, id);
      var end := Look(x.ends, client, id);
      if room.Err? || floor.Err? || end.Err? {
        ActivityRowsFails(x, client, acts, a, i);
        return Err(ActivityRow(x, client, acts[i], a).error);
      }
      var row := Row(id, room.value, PInt(a(floor.value)), acts[i].1, a(end.value));
      ActivityRowsSnoc(x, client, acts, a, i, rows, row);
      rows := rows + [row];
      i := i + 1;
    }
    assert acts[..i] == acts;
    r := Ok(rows);
  }

  /** The loop over `transfer_starts`: a Transfer row for every transfer of the client whose
      precedence and floor literals are set. */
  method TransferRowsOf(t: Transfers, client: int, a: Assignment) returns (r: Result<seq<Row>>)
    ensures r == TransferRows(t, client, a, |t.starts|)
  {
    var trs: seq<Row> := [];
    var k := 0;
    while k < |t.starts|
      invariant 0 <= k <= |t.starts| && TransferRows(t, client, a, k) == Ok(trs)
    {
      var key := t.starts[k].0;
      var prec := Lookup(t.precedences, key);
      var floor := Lookup(t.floors, key);
      var end := Lookup(t.ends, key);
      var more: seq<Row> := [];
      if prec.Err? || (a(prec.value) != 0 && floor.Err?) || (a(prec.value) != 0 && a(floor.value) != 0 && key.0 == client && end.Err?) {
        TransferRowsFails(t, client, a, k, |t.starts|);
        return Err(KeyError);
      }
      if a(prec.value) != 0 && a(floor.value) != 0 && key.0 == client {
        more := [TransferRow(a(t.starts[k].1), a(end.value))];
      }
      TransferRowsSnoc(t, client, a, k, trs, more);
      trs := trs + more;
      k := k + 1;
    }
    r := Ok(trs);
  }

  /** The schedule of one client as `generate` builds it: the sorted starts, a row per activity,
      then the Transfer rows, sorted by start. */
  method ClientSchedule(x: Index, t: Transfers, client: int, a: Assignment) returns (r: Result<seq<Row>>)
    ensures r == ClientRows(x, t, client, a)
  {
    var rows := ActivityRowsOf(x, client, OrderedStarts(x, client, a), a);
    if rows.Err? {
      ClientRowsOf(x, t, client, a, rows, rows);
      return Err(rows.error);
    }
    var trs := TransferRowsOf(t, client, a);
    ClientRowsOf(x, t, client, a, rows, trs);
    if trs.Err? {
      return Err(trs.error);
    }
    r := Ok(SortBy(rows.value + trs.value, RowStart, IntLe));
  }

  lemma ExtractSnoc(x: Index, t: Transfers, c: nat, a: Assignment, rows: seq<Row>)
    requires Extract(x, t, c, a).Ok? && ClientRows(x, t, c, a) == Ok(rows)
    ensures Extract(x, t, c + 1, a) == Ok(Extract(x, t, c, a).value + [rows])
  {
    CollectSnoc(RowsOf(x, t, a), c, rows);
  }

  /** The inner loop of the index: `m[key].append(entry)` for every entry in order. */
  method AppendEntries<K(==), V>(m: Dict<K, seq<V>>, es: seq<(K, V)>) returns (r: Dict<K, seq<V>>)
    ensures r == AppendAll(m, es)
  {
    r := m;
    var k := 0;
    while k < |es|
      invariant 0 <= k <= |es| && r == AppendAll(m, es[..k])
    {
      assert es[..k + 1][..k] == es[..k];
      r := Append(r, es[k].0, es[k].1);
      k := k + 1;
    }
    assert es[..k] == es;
  }

  /** The loop over the clients stops with the error of its first failing client. */
  lemma ExtractFails(x: Index, t: Transfers, c: nat, n: nat, a: Assignment, e: Error)
    requires c < n && Extract(x, t, c, a).Ok? && ClientRows(x, t, c, a) == Err(e)
    ensures Extract(x, t, n, a) == Err(e)
  {
    CollectFails(RowsOf(x, t, a), c, n, e);
  }

  /** Popping the allocation of dict `i` extends the popped prefix by one. */
  lemma PoppedStep(ds: seq<Dict<string, PyVal>>, i: int, rests: seq<Dict<string, PyVal>>)
    requires 0 <= i < |ds| && rests == Popped(ds[..i]) + ds[i..]
    ensures rests[i := Without(ds[i], "time_allocations")] == Popped(ds[..i + 1]) + ds[i + 1..]
  {
    var w := Without(ds[i], "time_allocations");
    var after := rests[i := w];
    var want := Popped(ds[..i + 1]) + ds[i + 1..];
    assert |Popped(ds[..i + 1])| == i + 1;
    forall j | 0 <= j < |ds|
      ensures after[j] == want[j]
    {
      if j < i {
        assert rests[j] == Popped(ds[..i])[j];
      }
    }
  }

  /** `ds[i]` is the first dict without a `time_allocations` key. */
  predicate FirstWithout(ds: seq<Dict<string, PyVal>>, i: int) {
    && 0 <= i < |ds| && Get(ds[i], "time_allocations").None?
    && forall j :: 0 <= j < i ==> Get(ds[j], "time_allocations").Some?
  }

  /** `[activity.pop('time_allocations') for activity in activities]`: the allocations, and the
      caller's dicts as the loop leaves them, up to the first without an allocation. */
  method PopAllocations(ds: seq<Dict<string, PyVal>>) returns (tas: Result<seq<PyVal>>, rests: seq<Dict<string, PyVal>>)
    ensures tas == Allocations(ds)
    ensures tas.Ok? ==> rests == Popped(ds)
    ensures tas.Err? ==> exists i :: FirstWithout(ds, i) && rests == Popped(ds[..i]) + ds[i..]
  {
    rests := ds;
    var popped: seq<PyVal> := [];
    var i := 0;
    assert ds[..0] == [] && Popped([]) == [] && ds[0..] == ds;
    while i < |ds|
      invariant 0 <= i <= |ds| && Allocations(ds[..i]) == Ok(popped)
      invariant rests == Popped(ds[..i]) + ds[i..]
    {
      var ta := Item(ds[i], "time_allocations");
      if ta.Err? {
        AllocationsFails(ds, i);
        assert FirstWithout(ds, i) by {
          forall j | 0 <= j < i ensures Get(ds[j], "time_allocations").Some? {
            assert ds[..i][j] == ds[j];
          }
        }
        return Err(KeyError), rests;
      }
      AllocationsSnoc(ds, i, popped, ta.value);
      PoppedStep(ds, i, rests);
      rests := rests[i := Without(ds[i], "time_allocations")];
      popped := popped + [ta.value];
      i := i + 1;
    }
    assert ds[..i] == ds;
    tas := Ok(popped);
  }

  /** The seven time fields of the API scheduler, `__time_start` to `__horizon`, None until the
      `scenario_action` setter assigns them. */
  datatype TimeFields = TimeFields(timeStart: Option<int>, timeEnd: Option<int>, interval: Option<int>,
                                   maxGap: Option<int>, transfer: Option<int>, simultaneous: PyVal,
                                   horizon: Option<int>)

  /** The settings the phases read from the time fields, present once every one is set. */
  function Complete(t: TimeFields): Option<Settings> {
    if t.timeStart.Some? && t.timeEnd.Some? && t.interval.Some? && t.maxGap.Some? && t.transfer.Some? && t.horizon.Some?
    then Some(Settings(t.timeStart.value, t.timeEnd.value, t.interval.value, t.maxGap.value, t.transfer.value,
                       t.simultaneous, t.horizon.value))
    else None
  }

  /** The assignments of the `scenario_action` setter to the time fields `t`, in the source's
      order, and the exception that stops them: the start, the end and the interval once the
      arrival time parses, the gap and the transfer time once `max_gap` is a number, the
      transfers flag and the horizon last.  The setter succeeds exactly when `SettingsOf` does,
      leaving those settings; an exception leaves the fields not yet assigned as they were. */
  function AssignTimes(t: TimeFields, sa: PyVal, clock: string -> Option<(nat, nat, nat)>): (r: (TimeFields, Option<Error>))
    ensures r.1.None? <==> SettingsOf(sa, clock).Ok?
    ensures r.1.None? ==> Complete(r.0) == Some(SettingsOf(sa, clock).value)
    ensures r.1.Some? ==>
      SettingsOf(sa, clock) == Err(r.1.value) && r.0.simultaneous == t.simultaneous && r.0.horizon == t.horizon
    ensures Serializer.ArrivalSecs(sa, clock).Err? ==> r.0 == t
    ensures Serializer.ArrivalSecs(sa, clock).Ok? ==>
      r.0.timeStart == Some(Serializer.ArrivalSecs(sa, clock).value) && r.0.timeEnd == Some(82800) && r.0.interval == Some(5)
    ensures Serializer.ArrivalSecs(sa, clock).Ok? && GetAttr(sa, "max_gap").Ok? && Num(GetAttr(sa, "max_gap").value).Some? ==>
      r.0.maxGap == Num(GetAttr(sa, "max_gap").value) && r.0.transfer == Some(5)
    ensures Serializer.ArrivalSecs(sa, clock).Ok? && !(GetAttr(sa, "max_gap").Ok? && Num(GetAttr(sa, "max_gap").value).Some?) ==>
      r.0.maxGap == t.maxGap && r.0.transfer == t.transfer
  {
    match Serializer.ArrivalSecs(sa, clock)
    case Err(e) => (t, Some(e))
    case Ok(start) =>
      var t1 := t.(timeStart := Some(start), timeEnd := Some(23 * 3600), interval := Some(300 / 60));
      match GetAttr(sa, "max_gap")
      case Err(e) => (t1, Some(e))
      case Ok(gap) =>
        if Num(gap).None? then (t1, Some(TypeError))
        else
          var t2 := t1.(maxGap := Some(Num(gap).value), transfer := Some(300 / 60));
          match GetAttr(sa, "allow_simultaneous_transfers")
          case Err(e) => (t2, Some(e))
          case Ok(flag) => (t2.(simultaneous := flag, horizon := Some((23 * 3600 - start) / 60)), None)
  }

  class Solver {
    /** `__scenario_action`, None until set. */
    var scenarioAction: PyVal
    /** `__time_start`, `__time_end`, `__time_max_interval`, `__time_max_gap`, `__time_transfer`,
        `__simultaneous_transfers` and `__horizon`, which the `scenario_action` setter assigns in
        this order; all None until it runs. */
    var timeStart: Option<int>
    var timeEnd: Option<int>
    var interval: Option<int>
    var maxGap: Option<int>
    var transfer: Option<int>
    var simultaneous: PyVal
    var horizon: Option<int>
    var resources: Option<seq<PyVal>>
    /** `__rooms_map`, which does not exist until the `resources` setter runs. */
    var roomsMap: Option<RoomsMap>
    var activities: Option<seq<PyVal>>
    /** `__activities_map`, which does not exist until the `activities` setter runs. */
    var activitiesMap: Option<ActivitiesMap>
    var assessments: Option<seq<PyVal>>
    var generalConditions: Option<seq<PyVal>>
    var schedules: seq<seq<seq<Task>>>
    var numFloors: int
    /** The CP-SAT model with the variable indexes and `ends_per_client`. */
    var model: Model
    /** `__generated_schedules`, which does not exist until `generate` gets a solution. */
    var generated: Option<seq<seq<Row>>>

    constructor()
      ensures scenarioAction == PNone && resources == None && roomsMap == None
      ensures timeStart == timeEnd == interval == maxGap == transfer == horizon == None && simultaneous == PNone
      ensures activities == None && activitiesMap == None && assessments == None && generalConditions == None
      ensures schedules == [] && numFloors == 0 && model == EmptyModel && generated == None
    {
      scenarioAction := PNone;
      timeStart, timeEnd, interval, maxGap, transfer, simultaneous, horizon := None, None, None, None, None, PNone, None;
      resources := None;
      roomsMap := None;
      activities := None;
      activitiesMap := None;
      assessments := None;
      generalConditions := None;
      schedules := [];
      numFloors := 0;
      model := EmptyModel;
      generated := None;
    }

    /** The seven time fields. */
    function Times(): TimeFields
      reads this`timeStart, this`timeEnd, this`interval, this`maxGap, this`transfer, this`simultaneous, this`horizon
    {
      TimeFields(timeStart, timeEnd, interval, maxGap, transfer, simultaneous, horizon)
    }

    /** The time settings the phases read. */
    function TimeSettings(): Option<Settings>
      reads this`timeStart, this`timeEnd, this`interval, this`maxGap, this`transfer, this`simultaneous, this`horizon
    {
      Complete(Times())
    }

    /** The `scenario_action` setter.  `obj` is the caller's dict, which loses its `data` entry
        (`rest` is what the caller is left with).  The scenario action is stored before the
        arrival time is parsed; the time fields are then assigned one after the other
        (`AssignTimes`), so an exception leaves those assigned before it. */
    method SetScenarioAction(obj: Dict<string, PyVal>, clock: string -> Option<(nat, nat, nat)>) returns (failure: Option<Error>, rest: Dict<string, PyVal>)
      modifies this`scenarioAction, this`timeStart, this`timeEnd, this`interval, this`maxGap, this`transfer,
               this`simultaneous, this`horizon
      ensures failure.None? <==> ScenarioSetup(obj, clock).Ok?
      ensures failure.None? ==> TimeSettings().Some? && ScenarioSetup(obj, clock) == Ok((rest, scenarioAction, TimeSettings().value))
      ensures Get(obj, "data").None? ==> failure == Some(KeyError) && rest == obj && unchanged(this)
      ensures Get(obj, "data").Some? ==> rest == Without(obj, "data")
      ensures Get(obj, "data").Some? ==>
        var sa := ScenarioOf(rest, Get(obj, "data").value);
        && (sa.Err? ==> failure == Some(sa.error) && unchanged(this))
        && (sa.Ok? ==> scenarioAction == sa.value && (Times(), failure) == AssignTimes(old(Times()), sa.value, clock))
    {
      var data := Item(obj, "data");
      if data.Err? {
        return Some(KeyError), obj;
      }
      rest := Without(obj, "data");
      var sa := ScenarioOf(rest, data.value);
      if sa.Err? {
        return Some(sa.error), rest;
      }
      scenarioAction := sa.value;
      failure := SetTimes(sa.value, clock);
    }

    /** The time fields of the `scenario_action` setter, assigned in the source's order from the
        scenario action `sa`. */
    method SetTimes(sa: PyVal, clock: string -> Option<(nat, nat, nat)>) returns (failure: Option<Error>)
      modifies this`timeStart, this`timeEnd, this`interval, this`maxGap, this`transfer, this`simultaneous, this`horizon
      ensures (Times(), failure) == AssignTimes(old(Times()), sa, clock)
    {
      var start := Serializer.ArrivalSecs(sa, clock);
      if start.Err? {
        return Some(start.error);
      }
      timeStart, timeEnd, interval := Some(start.value), Some(23 * 3600), Some(300 / 60);
      var gap := GetAttr(sa, "max_gap");
      if gap.Err? {
        return Some(gap.error);
      }
      if Num(gap.value).None? {
        return Some(TypeError);
      }
      maxGap, transfer := Some(Num(gap.value).value), Some(300 / 60);
      var flag := GetAttr(sa, "allow_simultaneous_transfers");
      if flag.Err? {
        return Some(flag.error);
      }
      simultaneous := flag.value;
      horizon := Some((23 * 3600 - start.value) / 60);
      failure := None;
    }

    /** The `resources` setter: the records, then the grouping loop. */
    method SetResources(rs: seq<PyVal>) returns (failure: Option<Error>)
      modifies this`resources, this`roomsMap
      ensures SplatAll(ResourceClass(), rs).Err? ==>
        failure == Some(SplatAll(ResourceClass(), rs).error) && resources == old(resources) && roomsMap == old(roomsMap)
      ensures SplatAll(ResourceClass(), rs).Ok? ==>
        var xs := SplatAll(ResourceClass(), rs).value;
        && (failure.None? <==> Placements(xs).Ok?)
        && (failure.None? ==> resources == Some(Placed(Placements(xs).value)) && roomsMap == Some(AppendAll([], Placements(xs).value)))
        && (failure.Some? ==>
              && Placements(xs) == Err(failure.value) && resources.Some? && roomsMap.Some?
              && exists j :: StoppedAt(xs, j, resources.value, roomsMap.value))
    {
      var objs := SplatAll(ResourceClass(), rs);
      if objs.Err? {
        return Some(objs.error);
      }
      failure := GroupResources(objs.value);
    }

    /** The grouping loop: every resource records its room key in `data['room']` and joins that
        key's group, in input order; a resource that fails stops the loop (see `StoppedAt`). */
    method GroupResources(xs: seq<PyVal>) returns (failure: Option<Error>)
      modifies this`resources, this`roomsMap
      ensures failure.None? <==> Placements(xs).Ok?
      ensures failure.None? ==> resources == Some(Placed(Placements(xs).value)) && roomsMap == Some(AppendAll([], Placements(xs).value))
      ensures failure.Some? ==>
        && Placements(xs) == Err(failure.value) && resources.Some? && roomsMap.Some?
        && exists j :: StoppedAt(xs, j, resources.value, roomsMap.value)
    {
      resources := Some(xs);
      roomsMap := Some([]);
      var ps: seq<(PyVal, PyVal)> := [];
      var i := 0;
      assert xs[..0] == [] && Placed(ps) + xs[0..] == xs;
      while i < |xs|
        invariant 0 <= i <= |xs| && Placements(xs[..i]) == Ok(ps)
        invariant resources == Some(Placed(ps) + xs[i..])
        invariant roomsMap == Some(AppendAll([], ps))
      {
        var key := ApiSetup.RoomKey(xs[i]);
        var placed := if key.Ok? then SetData(xs[i], "room", key.value) else Err(key.error);
        if placed.Err? {
          PlacementsFails(xs, i);
          StoppedBefore(xs, i, ps);
          assert StoppedAt(xs, i, resources.value, roomsMap.value);
          return Some(placed.error);
        }
        PlacedSnoc(ps, (key.value, placed.value), xs[i..]);
        resources := Some(resources.value[i := placed.value]);
        if !Hashable(key.value) {
          PlacementsFails(xs, i);
          StoppedHere(xs, i, ps, placed.value);
          assert StoppedAt(xs, i, resources.value, roomsMap.value);
          return Some(TypeError);
        }
        PlacementsSnoc(xs, i, ps, (key.value, placed.value));
        roomsMap := Some(Append(roomsMap.value, key.value, placed.value));
        ps := ps + [(key.value, placed.value)];
        i := i + 1;
      }
      assert xs[..i] == xs && Placements(xs) == Ok(ps);
      assert Placed(ps) + xs[i..] == Placed(ps);
      failure := None;
    }

    /** The `activities` setter: every caller's dict loses its `time_allocations` (the loop stops
        at the first without one, the dicts before it already changed), the records are built,
        then every allocation of every activity is appended to the index under the activity's
        id and the allocation's name. */
    method SetActivities(ds: seq<Dict<string, PyVal>>) returns (failure: Option<Error>, rests: seq<Dict<string, PyVal>>)
      modifies this`activities, this`activitiesMap
      ensures Allocations(ds).Err? ==>
        && failure == Some(KeyError) && activities == old(activities) && activitiesMap == old(activitiesMap)
        && exists i :: 0 <= i < |ds| && Get(ds[i], "time_allocations").None? && rests == Popped(ds[..i]) + ds[i..]
      ensures Allocations(ds).Ok? ==> rests == Popped(ds)
      ensures Allocations(ds).Ok? ==>
        var built := ActivitiesOf(ActivityClass(), TimeAllocationClass(), Popped(ds), Allocations(ds).value);
        && (built.Err? ==> failure == Some(built.error) && activities == old(activities) && activitiesMap == old(activitiesMap))
        && (built.Ok? ==> activities == Some(built.value) && (failure.None? <==> AllEntries(built.value).Ok?))
        && (built.Ok? && failure.None? ==> activitiesMap == Some(AppendAll([], AllEntries(built.value).value)))
        && (built.Ok? && failure.Some? ==>
              && AllEntries(built.value) == Err(failure.value)
              && exists j :: 0 <= j < |built.value| && AllEntries(built.value[..j]).Ok? &&
                   activitiesMap == Some(AppendAll([], AllEntries(built.value[..j]).value)))
    {
      var tas;
      tas, rests := PopAllocations(ds);
      if tas.Err? {
        return Some(KeyError), rests;
      }
      var built := ActivitiesOf(ActivityClass(), TimeAllocationClass(), rests, tas.value);
      if built.Err? {
        return Some(built.error), rests;
      }
      activities := Some(built.value);
      failure := IndexActivities(built.value);
    }

    /** The loop that fills `__activities_map`, a fresh index, from the activities; the first
        activity that fails stops it, the index holding the entries of those before. */
    method IndexActivities(acts: seq<PyVal>) returns (failure: Option<Error>)
      modifies this`activitiesMap
      ensures failure.None? <==> AllEntries(acts).Ok?
      ensures failure.None? ==> activitiesMap == Some(AppendAll([], AllEntries(acts).value))
      ensures failure.Some? ==>
        && AllEntries(acts) == Err(failure.value)
        && exists j :: 0 <= j < |acts| && AllEntries(acts[..j]).Ok? && activitiesMap == Some(AppendAll([], AllEntries(acts[..j]).value))
    {
      activitiesMap := Some([]);
      assert acts[..0] == [];
      var j := 0;
      while j < |acts|
        invariant 0 <= j <= |acts| && AllEntries(acts[..j]).Ok?
        invariant activitiesMap == Some(AppendAll([], AllEntries(acts[..j]).value))
      {
        var es := ActivityEntries(acts[j]);
        if es.Err? {
          AllEntriesFails(acts, j);
          return Some(es.error);
        }
        ghost var before := AllEntries(acts[..j]).value;
        var m := AppendEntries(activitiesMap.value, es.value);
        AppendAllConcat([], before, es.value);
        AllEntriesSnoc(acts, j, before, es.value);
        activitiesMap := Some(m);
        j := j + 1;
      }
      assert acts[..j] == acts;
      failure := None;
    }

    /** The `assessments` setter: the records, in input order. */
    method SetAssessments(xs: seq<PyVal>) returns (failure: Option<Error>)
      modifies this`assessments
      ensures failure.None? <==> SplatAll(AssessmentClass(), xs).Ok?
      ensures failure.None? ==> assessments == Some(SplatAll(AssessmentClass(), xs).value)
      ensures failure.Some? ==> failure == Some(SplatAll(AssessmentClass(), xs).error) && assessments == old(assessments)
    {
      var objs := SplatAll(AssessmentClass(), xs);
      if objs.Err? {
        return Some(objs.error);
      }
      assessments := Some(objs.value);
      failure := None;
    }

    /** The `general_conditions` setter. */
    method SetGeneralConditions(xs: seq<PyVal>) returns (failure: Option<Error>)
      modifies this`generalConditions
      ensures failure.None? <==> SplatAll(GeneralConditionClass(), xs).Ok?
      ensures failure.None? ==> generalConditions == Some(SplatAll(GeneralConditionClass(), xs).value)
      ensures failure.Some? ==> failure == Some(SplatAll(GeneralConditionClass(), xs).error) && generalConditions == old(generalConditions)
    {
      var objs := SplatAll(GeneralConditionClass(), xs);
      if objs.Err? {
        return Some(objs.error);
      }
      generalConditions := Some(objs.value);
      failure := None;
    }

    /** The `room_conditions` getter: it returns the activities. */
    function RoomConditions(): Option<seq<PyVal>>
      reads this
    {
      activities
    }

    /** The `room_conditions` setter: it replaces the assessments with `Condition` records, and
        the getter still reads the activities. */
    method SetRoomConditions(xs: seq<PyVal>) returns (failure: Option<Error>)
      modifies this`assessments
      ensures failure.None? <==> SplatAll(SmConditionClass(), xs).Ok?
      ensures failure.None? ==> assessments == Some(SplatAll(SmConditionClass(), xs).value)
      ensures failure.Some? ==> failure == Some(SplatAll(SmConditionClass(), xs).error) && assessments == old(assessments)
      ensures RoomConditions() == activities
    {
      var objs := SplatAll(SmConditionClass(), xs);
      if objs.Err? {
        return Some(objs.error);
      }
      assessments := Some(objs.value);
      failure := None;
    }

    /** The phases of `generate` before the solver runs: an AssertionError without assessments,
        otherwise the build (see `Build`). */
    method Prepare(clock: string -> Option<(nat, nat, nat)>) returns (failure: Option<Error>)
      modifies this`activitiesMap, this`schedules, this`numFloors, this`model
      ensures assessments.None? ==>
        failure == Some(AssertionError("Invalid assessments")) &&
        activitiesMap == old(activitiesMap) && schedules == old(schedules) && numFloors == old(numFloors) && model == old(model)
      ensures assessments.Some? ==>
        Staged(Expansion(old(activitiesMap), old(schedules), old(numFloors)), roomsMap, scenarioAction,
               assessments.value, old(model), TimeSettings(), clock) ==
        Stage(Expansion(activitiesMap, schedules, numFloors), model, failure)
    {
      if assessments.None? {
        return Some(AssertionError("Invalid assessments"));
      }
      failure := Build(clock);
    }

    /** The phases proper, `__initialize_variables` to `__define_objective`, each writing its
        results to the fields before the next one runs: the indexes, the schedules and the floor
        count after the initialisation, the model after every later phase.  A phase that raises
        leaves the fields as the phases before it left them (see `Staged`); when none raises the
        fields hold the build (see `BuiltMeaning`). */
    method Build(clock: string -> Option<(nat, nat, nat)>) returns (failure: Option<Error>)
      requires assessments.Some?
      modifies this`activitiesMap, this`schedules, this`numFloors, this`model
      ensures Staged(Expansion(old(activitiesMap), old(schedules), old(numFloors)), roomsMap, scenarioAction,
                     assessments.value, old(model), TimeSettings(), clock) ==
        Stage(Expansion(activitiesMap, schedules, numFloors), model, failure)
    {
      var y := Expand(Expansion(activitiesMap, schedules, numFloors), roomsMap, scenarioAction, assessments.value);
      if y.Err? {
        return Some(y.error);
      }
      activitiesMap, schedules, numFloors := y.value.amap, y.value.schedules, y.value.numFloors;
      failure := Constrain(y.value, clock);
    }

    /** The phases after the initialisation, `__define_variables` to `__define_objective`, each
        writing the model it leaves before the next one runs. */
    method Constrain(y: Expansion, clock: string -> Option<(nat, nat, nat)>) returns (failure: Option<Error>)
      requires assessments.Some?
      modifies this`model
      ensures (model, failure) == Constrained(old(model), y, assessments.value, TimeSettings(), clock)
    {
      var s := TimeSettings();
      var d := DefineVars(model, y.schedules, s, y.numFloors);
      if d.Err? {
        return Some(d.error);
      }
      model := d.value;
      var general := GeneralRules(d.value.index, |y.schedules|);
      if general.Err? {
        return Some(general.error);
      }
      model := d.value.(cons := d.value.cons + general.value);
      var activity := ActivityRules(assessments.value, d.value.index, |y.schedules|, s, clock);
      if activity.Err? {
        return Some(activity.error);
      }
      model := model.(cons := model.cons + activity.value);
      if |d.value.endsPerClient| == 0 {
        return Some(AssertionError("Invalid number of last activity end times"));
      }
      model := model.(cons := model.cons + [Minimize(SumOf([]))]);
      failure := None;
    }

    /** The loop of `generate` over the clients, once the solver found `a`: the schedules start
        afresh and every client's is appended in turn, the first client whose rows fail stopping
        the loop with the schedules of the clients before it. */
    method ReadSchedules(a: Assignment, transfers: Transfers) returns (r: Result<seq<seq<Row>>>)
      modifies this`generated
      ensures r == Extract(model.index, transfers, |schedules|, a)
      ensures r.Ok? ==> generated == Some(r.value)
      ensures r.Err? ==>
        exists c :: 0 <= c < |schedules| && Extract(model.index, transfers, c, a).Ok? &&
          ClientRows(model.index, transfers, c, a) == Err(r.error) &&
          generated == Some(Extract(model.index, transfers, c, a).value)
    {
      generated := Some([]);
      var c := 0;
      while c < |schedules|
        invariant 0 <= c <= |schedules| && Extract(model.index, transfers, c, a).Ok?
        invariant generated == Some(Extract(model.index, transfers, c, a).value)
      {
        var rows := ClientSchedule(model.index, transfers, c, a);
        if rows.Err? {
          ExtractFails(model.index, transfers, c, |schedules|, a, rows.error);
          assert Extract(model.index, transfers, c, a).Ok? && ClientRows(model.index, transfers, c, a) == Err(rows.error);
          return Err(rows.error);
        }
        ExtractSnoc(model.index, transfers, c, a, rows.value);
        generated := Some(generated.value + [rows.value]);
        c := c + 1;
      }
      r := Ok(generated.value);
    }

    /** What `generate` does once the model is built: `solve`, the CP-SAT solver, then a
        ValueError unless it found a solution, otherwise the schedules (`ReadSchedules`). */
    method SolveAndRead(solve: Model -> (Status, Assignment), transfers: Transfers) returns (r: Result<seq<seq<Row>>>)
      modifies this`generated
      ensures !Solved(solve(model).0) ==> r == Err(ValueError("Cannot generate schedule")) && generated == old(generated)
      ensures Solved(solve(model).0) ==> r == Extract(model.index, transfers, |schedules|, solve(model).1)
      ensures Solved(solve(model).0) && r.Ok? ==> generated == Some(r.value)
    {
      var (status, a) := solve(model);
      if !Solved(status) {
        return Err(ValueError("Cannot generate schedule"));
      }
      r := ReadSchedules(a, transfers);
    }

    /** `generate`: the phases (`Prepare`), whose failure leaves the fields as the completed
        phases left them, then `SolveAndRead`. */
    method Generate(clock: string -> Option<(nat, nat, nat)>, solve: Model -> (Status, Assignment), transfers: Transfers)
      returns (r: Result<seq<seq<Row>>>)
      modifies this`activitiesMap, this`schedules, this`numFloors, this`model, this`generated
      ensures assessments.None? ==> r == Err(AssertionError("Invalid assessments"))
      ensures assessments.None? ==> model == old(model) && schedules == old(schedules) && generated == old(generated)
      ensures assessments.Some? ==>
        var b := Staged(Expansion(old(activitiesMap), old(schedules), old(numFloors)), roomsMap, scenarioAction,
                        assessments.value, old(model), TimeSettings(), clock);
        && b.x == Expansion(activitiesMap, schedules, numFloors) && b.m == model
        && (b.failure.Some? ==> r == Err(b.failure.value) && generated == old(generated))
        && (b.failure.None? && !Solved(solve(model).0) ==> r == Err(ValueError("Cannot generate schedule")) && generated == old(generated))
        && (b.failure.None? && Solved(solve(model).0) ==> r == Extract(model.index, transfers, |schedules|, solve(model).1))
        && (b.failure.None? && Solved(solve(model).0) && r.Ok? ==> generated == Some(r.value))
    {
      var failure := Prepare(clock);
      if failure.Some? {
        return Err(failure.value);
      }
      r := SolveAndRead(solve, transfers);
    }
  }
}
