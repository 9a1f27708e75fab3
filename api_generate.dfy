/** What `generate` of the API-driven scheduler (`src/utils/solver_v2.py`) reads back from a
    solved model: per client, a row per activity filed under the client in `starts` (in the order
    of their start values), with the room of its first chosen literal and its floor and end, then
    a Transfer row per transfer whose precedence and floor literals are both set, all sorted by
    start.  The solver's values are an assignment of the model's variables. */
module ApiGenerate {
  import opened Wrappers
  import opened PyDict
  import opened Records
  import opened CpModel
  import opened Sorting
  import opened ApiVariables
  import opened ApiRules

  /** The statuses after which `generate` reads the solution. */
  predicate Solved(s: Status) {
    s == Optimal || s == Feasible
  }

  /** One row of a generated schedule, `[activity_id, room, floor, start, end]`. */
  datatype Row = Row(activity: PyVal, room: PyVal, floor: PyVal, start: int, end: int)

  /** The row of a transfer: `['Transfer', 'None', 'None', start, end]`. */
  function TransferRow(start: int, end: int): Row {
    Row(PStr("Transfer"), PStr("None"), PStr("None"), start, end)
  }

  /** The dicts `__apply_transfer_constraint` fills, all keyed by `(client, slot, other slot)`. */
  datatype Transfers = Transfers(
    starts: Dict<(int, int, int), Var>,
    ends: Dict<(int, int, int), Var>,
    precedences: Dict<(int, int, int), Var>,
    floors: Dict<(int, int, int), Var>)

  /** `d[k]`: a KeyError when the key is missing. */
  function Lookup<K(==), V>(d: Dict<K, V>, k: K): (r: Result<V>)
    ensures r.Ok? <==> Get(d, k).Some?
    ensures r.Ok? ==> Get(d, k) == Some(r.value)
    ensures r.Err? ==> r.error == KeyError
  {
    match Get(d, k)
    case Some(v) => Ok(v)
    case None => Err(KeyError)
  }

  function RowStart(r: Row): int { r.start }

  function PairStart(p: (PyVal, int)): int { p.1 }

  /** The activity and start of a row. */
  function RowKey(r: Row): (PyVal, int) { (r.activity, r.start) }

  predicate IntLe(x: int, y: int) { x <= y }

  lemma IntLePreorder()
    ensures TotalPreorder(IntLe)
  {
  }

  // The activities of a client.

  /** `[(key[1], Value(v)) for key, v in starts.items() if key[0] == client]`. */
  function StartsOf(starts: Dict<(int, PyVal), Var>, client: int, a: Assignment): (r: seq<(PyVal, int)>)
    ensures |r| <= |starts|
  {
    if starts == [] then []
    else
      var e := starts[|starts| - 1];
      StartsOf(starts[..|starts| - 1], client, a) + if e.0.0 == client then [(e.0.1, a(e.1))] else []
  }

  /** The pairs are the activities filed under the client, each with its start's value. */
  lemma {:induction false} StartsOfMembers(starts: Dict<(int, PyVal), Var>, client: int, a: Assignment, p: (PyVal, int))
    ensures p in StartsOf(starts, client, a) <==>
      exists k :: 0 <= k < |starts| && starts[k].0 == (client, p.0) && p.1 == a(starts[k].1)
  {
    if starts != [] {
      var init := starts[..|starts| - 1];
      var e := starts[|starts| - 1];
      StartsOfMembers(init, client, a, p);
      if p in StartsOf(init, client, a) {
        var k :| 0 <= k < |init| && init[k].0 == (client, p.0) && p.1 == a(init[k].1);
        assert starts[k] == init[k];
      } else if p != (e.0.1, a(e.1)) || e.0.0 != client {
        forall k | 0 <= k < |starts| && starts[k].0 == (client, p.0) ensures p.1 != a(starts[k].1) {
          if k < |init| {
            assert starts[k] == init[k];
          }
        }
      }
    }
  }

  /** Literal `k` of `rooms` belongs to the client's activity `id` and is set. */
  predicate Picks(rooms: Dict<(int, PyVal, PyVal), Var>, client: int, id: PyVal, a: Assignment, k: int) {
    0 <= k < |rooms| && rooms[k].0.0 == client && rooms[k].0.1 == id && a(rooms[k].1) != 0
  }

  /** `next(key[2] for key, v in rooms.items() if key[0] == client and key[1] == id and Value(v))`. */
  function RoomChosen(rooms: Dict<(int, PyVal, PyVal), Var>, client: int, id: PyVal, a: Assignment): (r: Result<PyVal>)
    ensures r.Err? ==> r.error == StopIteration
  {
    if rooms == [] then Err(StopIteration)
    else if rooms[0].0.0 == client && rooms[0].0.1 == id && a(rooms[0].1) != 0 then Ok(rooms[0].0.2)
    else RoomChosen(rooms[1..], client, id, a)
  }

  /** The room is that of the first set literal of the activity; there is none exactly when the
      search raises StopIteration. */
  lemma {:induction false} RoomChosenSpec(rooms: Dict<(int, PyVal, PyVal), Var>, client: int, id: PyVal, a: Assignment)
    ensures RoomChosen(rooms, client, id, a).Err? <==> forall k :: !Picks(rooms, client, id, a, k)
    ensures RoomChosen(rooms, client, id, a).Ok? ==> exists k ::
      && Picks(rooms, client, id, a, k) && rooms[k].0.2 == RoomChosen(rooms, client, id, a).value
      && forall j :: 0 <= j < k ==> !Picks(rooms, client, id, a, j)
  {
    if rooms != [] && !Picks(rooms, client, id, a, 0) {
      var tail := rooms[1..];
      RoomChosenSpec(tail, client, id, a);
      forall k ensures Picks(rooms, client, id, a, k + 1) == Picks(tail, client, id, a, k) {
        if 0 <= k < |tail| {
          assert rooms[k + 1] == tail[k];
        }
      }
      if RoomChosen(tail, client, id, a).Ok? {
        var k :| Picks(tail, client, id, a, k) && tail[k].0.2 == RoomChosen(tail, client, id, a).value
          && forall j :: 0 <= j < k ==> !Picks(tail, client, id, a, j);
        assert Picks(rooms, client, id, a, k + 1);
        forall j | 0 <= j < k + 1 ensures !Picks(rooms, client, id, a, j) {
          if j > 0 {
            assert !Picks(tail, client, id, a, j - 1);
          }
        }
      } else {
        forall k ensures !Picks(rooms, client, id, a, k) {
          if k > 0 {
            assert !Picks(tail, client, id, a, k - 1);
          }
        }
      }
    }
  }

  /** The row of one activity: the room first, then `floors[(client, id)]` and
      `ends[(client, id)]`. */
  function ActivityRow(x: Index, client: int, p: (PyVal, int), a: Assignment): (r: Result<Row>)
    ensures r.Ok? ==> RowKey(r.value) == p
  {
    var room :- RoomChosen(x.rooms, client, p.0, a);
    var floor :- Look(x.floors, client, p.0);
    var end :- Look(x.ends, client, p.0);
    Ok(Row(p.0, room, PInt(a(floor)), p.1, a(end)))
  }

  /** The rows of the activities `ps`, in order: the first that fails stops the loop. */
  function ActivityRows(x: Index, client: int, ps: seq<(PyVal, int)>, a: Assignment): (r: Result<seq<Row>>)
    ensures r.Ok? ==> |r.value| == |ps| && forall i :: 0 <= i < |ps| ==> ActivityRow(x, client, ps[i], a) == Ok(r.value[i])
    ensures r.Ok? ==> KeysOf(r.value, RowKey) == ps
  {
    if ps == [] then Ok([])
    else
      var init :- ActivityRows(x, client, ps[..|ps| - 1], a);
      var last :- ActivityRow(x, client, ps[|ps| - 1], a);
      KeysOfConcat(init, [last], RowKey);
      Ok(init + [last])
  }

  // Transfers.

  /** Transfer `k` of the dicts belongs to the client and its precedence and floor literals
      are both set. */
  predicate Transferred(t: Transfers, client: int, a: Assignment, k: int) {
    && 0 <= k < |t.starts|
    && var key := t.starts[k].0;
       && Get(t.precedences, key).Some? && a(Get(t.precedences, key).value) != 0
       && Get(t.floors, key).Some? && a(Get(t.floors, key).value) != 0
       && key.0 == client
  }

  /** One transfer: `Value(transfer_precedences[key]) and Value(transfer_floors[key]) and
      key[0] == client_id`, evaluated left to right, so a key missing from one of the dicts
      raises a KeyError whatever client the transfer belongs to. */
  function TransferStep(t: Transfers, client: int, e: ((int, int, int), Var), a: Assignment): (r: Result<seq<Row>>)
    ensures r.Err? ==> r.error == KeyError
    ensures r.Ok? ==> |r.value| <= 1
  {
    var prec :- Lookup(t.precedences, e.0);
    if a(prec) == 0 then Ok([])
    else
      var floor :- Lookup(t.floors, e.0);
      if a(floor) == 0 || e.0.0 != client then Ok([])
      else
        var end :- Lookup(t.ends, e.0);
        Ok([TransferRow(a(e.1), a(end))])
  }

  /** The Transfer rows of the first `n` transfers, in the order of `transfer_starts`. */
  function TransferRows(t: Transfers, client: int, a: Assignment, n: nat): (r: Result<seq<Row>>)
    requires n <= |t.starts|
    ensures r.Err? ==> r.error == KeyError
  {
    if n == 0 then Ok([])
    else
      var init :- TransferRows(t, client, a, n - 1);
      var last :- TransferStep(t, client, t.starts[n - 1], a);
      Ok(init + last)
  }

  /** A Transfer row of the client's schedule comes from exactly a transfer whose two literals
      are set: its start and end are that transfer's. */
  lemma {:induction false} TransferRowsExact(t: Transfers, client: int, a: Assignment, n: nat, row: Row)
    requires n <= |t.starts| && TransferRows(t, client, a, n).Ok?
    ensures forall k :: 0 <= k < n && Transferred(t, client, a, k) ==> Get(t.ends, t.starts[k].0).Some?
    ensures row in TransferRows(t, client, a, n).value <==>
      exists k :: 0 <= k < n && Transferred(t, client, a, k) &&
        row == TransferRow(a(t.starts[k].1), a(Get(t.ends, t.starts[k].0).value))
    decreases n
  {
    if n > 0 {
      TransferRowsExact(t, client, a, n - 1, row);
      var e := t.starts[n - 1];
      var last := TransferStep(t, client, e, a).value;
      assert TransferRows(t, client, a, n).value == TransferRows(t, client, a, n - 1).value + last;
      if Transferred(t, client, a, n - 1) {
        assert last == [TransferRow(a(e.1), a(Get(t.ends, e.0).value))];
      } else {
        assert last == [];
      }
    }
  }

  // A client's schedule.

  /** The client's activities ordered by start, as `activities.sort` leaves them. */
  function OrderedStarts(x: Index, client: int, a: Assignment): (r: seq<(PyVal, int)>)
    ensures multiset(r) == multiset(StartsOf(x.starts, client, a))
    ensures SortedBy(r, PairStart, IntLe)
  {
    IntLePreorder();
    SortBySorted(StartsOf(x.starts, client, a), PairStart, IntLe);
    SortBy(StartsOf(x.starts, client, a), PairStart, IntLe)
  }

  /** The schedule of one client: its activity rows, then its Transfer rows, sorted by start. */
  function ClientRows(x: Index, t: Transfers, client: int, a: Assignment): (r: Result<seq<Row>>)
  {
    var rows :- ActivityRows(x, client, OrderedStarts(x, client, a), a);
    var trs :- TransferRows(t, client, a, |t.starts|);
    Ok(SortBy(rows + trs, RowStart, IntLe))
  }

  /** A client's schedule is sorted by start and is a permutation of its activity rows and its
      Transfer rows; the activity rows carry the client's activities with their starts, one row
      each. */
  lemma ClientRowsSpec(x: Index, t: Transfers, client: int, a: Assignment)
    requires ClientRows(x, t, client, a).Ok?
    ensures ActivityRows(x, client, OrderedStarts(x, client, a), a).Ok? && TransferRows(t, client, a, |t.starts|).Ok?
    ensures var r := ClientRows(x, t, client, a).value;
      var rows := ActivityRows(x, client, OrderedStarts(x, client, a), a).value;
      && SortedBy(r, RowStart, IntLe)
      && multiset(r) == multiset(rows + TransferRows(t, client, a, |t.starts|).value)
      && multiset(KeysOf(rows, RowKey)) == multiset(StartsOf(x.starts, client, a))
  {
    var rows := ActivityRows(x, client, OrderedStarts(x, client, a), a).value;
    var trs := TransferRows(t, client, a, |t.starts|).value;
    IntLePreorder();
    SortBySorted(rows + trs, RowStart, IntLe);
  }

  /** A client's schedule fails with a StopIteration exactly when one of its activities has no
      set room literal, as far as the activities before it got their rows. */
  lemma {:induction false} ActivityRowsStop(x: Index, client: int, ps: seq<(PyVal, int)>, a: Assignment, i: int)
    requires 0 <= i < |ps| && forall k :: !Picks(x.rooms, client, ps[i].0, a, k)
    requires forall j :: 0 <= j < i ==> ActivityRow(x, client, ps[j], a).Ok?
    ensures ActivityRows(x, client, ps, a) == Err(StopIteration)
  {
    RoomChosenSpec(x.rooms, client, ps[i].0, a);
    var init := ps[..|ps| - 1];
    if i < |ps| - 1 {
      ActivityRowsStop(x, client, init, a, i);
    } else {
      ActivityRowsOk(x, client, init, a);
    }
  }

  lemma {:induction false} ActivityRowsOk(x: Index, client: int, ps: seq<(PyVal, int)>, a: Assignment)
    requires forall j :: 0 <= j < |ps| ==> ActivityRow(x, client, ps[j], a).Ok?
    ensures ActivityRows(x, client, ps, a).Ok?
  {
    if ps != [] {
      ActivityRowsOk(x, client, ps[..|ps| - 1], a);
    }
  }

  // All clients.

  /** The results of `f(0) .. f(n - 1)` collected in order; the first that fails stops the loop. */
  function Collect<T>(f: nat -> Result<T>, n: nat): (r: Result<seq<T>>)
    ensures r.Ok? ==> |r.value| == n
  {
    if n == 0 then Ok([])
    else
      var init :- Collect(f, n - 1);
      var last :- f(n - 1);
      Ok(init + [last])
  }

  lemma {:induction false} CollectAt<T>(f: nat -> Result<T>, n: nat, rs: seq<T>, c: int)
    requires Collect(f, n) == Ok(rs) && 0 <= c < n
    ensures f(c) == Ok(rs[c])
    decreases n
  {
    var init := Collect(f, n - 1).value;
    assert rs == init + [f(n - 1).value];
    if c < n - 1 {
      CollectAt(f, n - 1, init, c);
    }
  }

  lemma CollectSnoc<T>(f: nat -> Result<T>, c: nat, v: T)
    requires Collect(f, c).Ok? && f(c) == Ok(v)
    ensures Collect(f, c + 1) == Ok(Collect(f, c).value + [v])
  {
  }

  lemma {:induction false} CollectFails<T>(f: nat -> Result<T>, c: nat, n: nat, e: Error)
    requires c < n && Collect(f, c).Ok? && f(c) == Err(e)
    ensures Collect(f, n) == Err(e)
    decreases n
  {
    if n > c + 1 {
      CollectFails(f, c, n - 1, e);
    }
  }

  /** One client's rows as a function of the client. */
  function RowsOf(x: Index, t: Transfers, a: Assignment): nat -> Result<seq<Row>> {
    client => ClientRows(x, t, client, a)
  }

  /** The schedules of clients `0 .. n - 1`; the first client that fails stops the loop. */
  function Extract(x: Index, t: Transfers, n: nat, a: Assignment): (r: Result<seq<seq<Row>>>)
    ensures r.Ok? ==> |r.value| == n
  {
    Collect(RowsOf(x, t, a), n)
  }

  /** Every client up to `n` has its own schedule in the result, at its own position. */
  lemma ExtractAt(x: Index, t: Transfers, n: nat, a: Assignment, rs: seq<seq<Row>>, c: int)
    requires Extract(x, t, n, a) == Ok(rs) && 0 <= c < n
    ensures ClientRows(x, t, c, a) == Ok(rs[c])
  {
    CollectAt(RowsOf(x, t, a), n, rs, c);
  }
}
