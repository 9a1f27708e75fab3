/** What `generate` of the earlier scheduler (the top-level `solver.py`) does once its model is
    built: it solves the model and, when the solver reports OPTIMAL, collects every client's
    transfers and activities to print them, then returns the status.  The CP-SAT search is a
    `solve` parameter giving the status and the values of the variables.

    As written, the collection raises KeyError at the first client that has a slot: its
    `previous_activity_index` starts at None and is never reassigned, so `not
    previous_activity_index` holds at every slot and the floor literal is read under
    `(client, None, slot)`, a key no transfer is filed under.  `ClientRows` is the loop as
    evidently intended: the index follows the slots and the transfer into every slot after the
    first is read under `(client, slot - 1, slot)`. */
module LegacyReadBack {
  import opened Wrappers
  import opened PyDict
  import opened CpModel
  import opened Models
  import opened LegacyVariables
  import LR = LegacyRules
  import LS = LegacySchedule
  import GS = GeneralSpec

  /** One entry of a client's printed list: `('t', start)` for a transfer, `(activity.id, start)`
      for a slot. */
  datatype Entry = Transfer(start: int) | Visit(activity: int, start: int)

  /** The transfer into slot `i` from slot `prev`: `__room_floor_bool_vars[(c, prev, i)]` and, when
      it is set, `__transfer_start_time_int_vars` under the same key.  Both are filed beside
      `__transfer_time_interval_vars` (solver.py:260, 276-278), so the keys of `transfers` are
      theirs, holding `TrLit` and `TrStart`; a key whose middle entry is None is never among
      them. */
  function TransferRead(m: Maps, a: Assignment, c: int, prev: Option<int>, i: int): Result<seq<Entry>> {
    if prev.None? || Get(m.transfers, (c, prev.value, i)).None? then Err(KeyError)
    else if a(TrLit(c, prev.value, i)) != 0 then Ok([Transfer(a(TrStart(c, prev.value, i)))])
    else Ok([])
  }

  /** Slot `i`'s entry: the first option whose room literal
      `__activity_index_room_bool_vars[(c, i, room_id)]` is set, with the slot's start, then
      `break`; none set gives no entry, and a room literal that is not filed raises KeyError. */
  function SlotRead(m: Maps, a: Assignment, c: int, i: int, opts: seq<Task>): Result<seq<Entry>> {
    if opts == [] then Ok([])
    else match Get(m.slotRooms, (c, i, opts[0].roomId))
      case None => Err(KeyError)
      case Some(lit) =>
        if a(lit) != 0 then Ok([Visit(opts[0].id, a(Start(c, i)))]) else SlotRead(m, a, c, i, opts[1..])
  }

  /** Slots `0 .. n - 1` of client `c` as written, with `previous_activity_index` holding
      `previous` throughout (the source sets it to None and never reassigns it): while it is falsy
      (None or 0) the floor literal is read under `(c, previous, i)` before every slot. */
  function ClientRowsAsWritten(m: Maps, a: Assignment, c: int, sched: seq<seq<Task>>, n: nat, previous: Option<int>): Result<seq<Entry>>
    requires n <= |sched|
  {
    if n == 0 then Ok([])
    else
      var before :- ClientRowsAsWritten(m, a, c, sched, n - 1, previous);
      var t :- if previous.None? || previous == Some(0) then TransferRead(m, a, c, previous, n - 1) else Ok([]);
      var v :- SlotRead(m, a, c, n - 1, sched[n - 1]);
      Ok(before + t + v)
  }

  /** Slots `0 .. n - 1` of client `c` as evidently intended: `previous_activity_index` is the
      slot before, and the transfer into a slot is read once there is one. */
  function ClientRows(m: Maps, a: Assignment, c: int, sched: seq<seq<Task>>, n: nat): Result<seq<Entry>>
    requires n <= |sched|
  {
    if n == 0 then Ok([])
    else
      var before :- ClientRows(m, a, c, sched, n - 1);
      var t :- if n == 1 then Ok([]) else TransferRead(m, a, c, Some(n - 2), n - 1);
      var v :- SlotRead(m, a, c, n - 1, sched[n - 1]);
      Ok(before + t + v)
  }

  /** The lists of clients `0 .. n - 1`, as written or as intended; the first client that raises
      stops the loop. */
  function Collected(m: Maps, a: Assignment, scheds: seq<seq<seq<Task>>>, n: nat, asWritten: bool): Result<seq<seq<Entry>>>
    requires n <= |scheds|
  {
    if n == 0 then Ok([])
    else
      var before :- Collected(m, a, scheds, n - 1, asWritten);
      var rows :- if asWritten then ClientRowsAsWritten(m, a, n - 1, scheds[n - 1], |scheds[n - 1]|, None)
                  else ClientRows(m, a, n - 1, scheds[n - 1], |scheds[n - 1]|);
      Ok(before + [rows])
  }

  /** `generate` from the solver call on: any status but OPTIMAL is returned as it is; after
      OPTIMAL every client's list is collected (and printed) before the status is returned. */
  function Finished(b: Build, scheds: seq<seq<seq<Task>>>, solve: Build -> (Status, Assignment), asWritten: bool): Result<Status> {
    if solve(b).0 != Optimal then Ok(solve(b).0)
    else
      var lists :- Collected(b.maps, solve(b).1, scheds, |scheds|, asWritten);
      Ok(Optimal)
  }

  // The loop as written.

  /** As written, a client's first slot already raises KeyError. */
  lemma {:induction false} ClientRowsAsWrittenFail(m: Maps, a: Assignment, c: int, sched: seq<seq<Task>>, n: nat)
    requires 0 < n <= |sched|
    ensures ClientRowsAsWritten(m, a, c, sched, n, None) == Err(KeyError)
  {
    if n > 1 {
      ClientRowsAsWrittenFail(m, a, c, sched, n - 1);
    }
  }

  /** As written, the collection fails exactly when some client has a slot, and then with
      KeyError. */
  lemma {:induction false} CollectedAsWritten(m: Maps, a: Assignment, scheds: seq<seq<seq<Task>>>, n: nat)
    requires n <= |scheds|
    ensures Collected(m, a, scheds, n, true).Err? <==> exists c :: 0 <= c < n && |scheds[c]| > 0
    ensures Collected(m, a, scheds, n, true).Err? ==> Collected(m, a, scheds, n, true).error == KeyError
  {
    if n > 0 {
      CollectedAsWritten(m, a, scheds, n - 1);
      if Collected(m, a, scheds, n - 1, true).Ok? {
        if |scheds[n - 1]| > 0 {
          ClientRowsAsWrittenFail(m, a, n - 1, scheds[n - 1], |scheds[n - 1]|);
        } else {
          assert forall c :: 0 <= c < n && |scheds[c]| > 0 ==> c < n - 1;
        }
      } else {
        var c :| 0 <= c < n - 1 && |scheds[c]| > 0;
        assert 0 <= c < n && |scheds[c]| > 0;
      }
    }
  }

  /** `generate` as written: a status other than OPTIMAL is returned; after OPTIMAL it raises
      KeyError exactly when some client has a slot, and returns OPTIMAL otherwise. */
  lemma FinishedAsWritten(b: Build, scheds: seq<seq<seq<Task>>>, solve: Build -> (Status, Assignment))
    ensures solve(b).0 != Optimal ==> Finished(b, scheds, solve, true) == Ok(solve(b).0)
    ensures solve(b).0 == Optimal ==>
      Finished(b, scheds, solve, true) == if exists c :: 0 <= c < |scheds| && |scheds[c]| > 0 then Err(KeyError) else Ok(Optimal)
  {
    CollectedAsWritten(b.maps, solve(b).1, scheds, |scheds|);
  }

  /** The first slot that raises decides a client's outcome. */
  lemma {:induction false} ClientRowsAsWrittenErr(m: Maps, a: Assignment, c: int, sched: seq<seq<Task>>, k: nat, n: nat, previous: Option<int>)
    requires k <= n <= |sched| && ClientRowsAsWritten(m, a, c, sched, k, previous).Err?
    ensures ClientRowsAsWritten(m, a, c, sched, n, previous) == ClientRowsAsWritten(m, a, c, sched, k, previous)
    decreases n - k
  {
    if k < n {
      ClientRowsAsWrittenErr(m, a, c, sched, k, n - 1, previous);
    }
  }

  /** The first client that raises decides the outcome of the collection. */
  lemma {:induction false} CollectedErr(m: Maps, a: Assignment, scheds: seq<seq<seq<Task>>>, k: nat, n: nat, asWritten: bool)
    requires k <= n <= |scheds| && Collected(m, a, scheds, k, asWritten).Err?
    ensures Collected(m, a, scheds, n, asWritten) == Collected(m, a, scheds, k, asWritten)
    decreases n - k
  {
    if k < n {
      CollectedErr(m, a, scheds, k, n - 1, asWritten);
    }
  }

  // What the model files, for the loop as intended.

  /** The transfer between slots `i` and `i + 1` of client `c` is filed. */
  predicate PairFiled(m: Maps, c: int, i: int) {
    Get(m.transfers, (c, i, i + 1)).Some?
  }

  /** The room literal of every option of slot `i` of client `c` is filed. */
  predicate RoomsFiled(m: Maps, c: int, i: int, opts: seq<Task>) {
    forall t :: t in opts ==> Get(m.slotRooms, (c, i, t.roomId)).Some?
  }

  /** Every key filed in `m` is still filed in `m'`. */
  ghost predicate Keeps(m: Maps, m': Maps) {
    && (forall k :: Get(m.slotRooms, k).Some? ==> Get(m'.slotRooms, k).Some?)
    && (forall k :: Get(m.transfers, k).Some? ==> Get(m'.transfers, k).Some?)
  }

  /** Filing a room literal keeps every key. */
  lemma RoomPut(m: Maps, m': Maps, k: (int, int, int), v: Var)
    requires m'.slotRooms == Put(m.slotRooms, k, v) && m'.transfers == m.transfers
    ensures Keeps(m, m') && Get(m'.slotRooms, k).Some?
  {
    GetPutSame(m.slotRooms, k, v);
    forall k' | Get(m.slotRooms, k').Some?
      ensures Get(m'.slotRooms, k').Some?
    {
      if k' != k {
        GetPutOther(m.slotRooms, k, v, k');
      }
    }
  }

  /** Filing a transfer keeps every key. */
  lemma TransferPut(m: Maps, m': Maps, k: (int, int, int), v: Var)
    requires m'.transfers == Put(m.transfers, k, v) && m'.slotRooms == m.slotRooms
    ensures Keeps(m, m') && Get(m'.transfers, k).Some?
  {
    GetPutSame(m.transfers, k, v);
    forall k' | Get(m.transfers, k').Some?
      ensures Get(m'.transfers, k').Some?
    {
      if k' != k {
        GetPutOther(m.transfers, k, v, k');
      }
    }
  }

  lemma KeepsTrans(m: Maps, m': Maps, m'': Maps)
    requires Keeps(m, m') && Keeps(m', m'')
    ensures Keeps(m, m'')
  {
  }

  /** A room literal or transfer filed in `m` stays filed in what keeps `m`. */
  lemma KeepsFiled(m: Maps, m': Maps)
    requires Keeps(m, m')
    ensures forall c, i, opts :: RoomsFiled(m, c, i, opts) ==> RoomsFiled(m', c, i, opts)
    ensures forall c, i :: PairFiled(m, c, i) ==> PairFiled(m', c, i)
  {
  }

  lemma KeepsPair(m: Maps, m': Maps, c: int, i: int)
    requires Keeps(m, m') && PairFiled(m, c, i)
    ensures PairFiled(m', c, i)
  {
  }

  lemma KeepsRooms(m: Maps, m': Maps, c: int, i: int, opts: seq<Task>)
    requires Keeps(m, m') && RoomsFiled(m, c, i, opts)
    ensures RoomsFiled(m', c, i, opts)
  {
  }

  /** Every slot of clients `0 .. n - 1` has its room literals filed, and every two consecutive
      slots their transfer. */
  predicate Filed(m: Maps, scheds: seq<seq<seq<Task>>>, n: nat)
    requires n <= |scheds|
  {
    && (forall c, i :: 0 <= c < n && 0 <= i < |scheds[c]| ==> RoomsFiled(m, c, i, scheds[c][i]))
    && (forall c, i :: 0 <= c < n && 0 <= i && i + 1 < |scheds[c]| ==> PairFiled(m, c, i))
  }

  lemma {:induction false} OptsFiled(m: Maps, c: int, i: int, opts: seq<Task>, k: nat)
    requires k <= |opts|
    ensures Keeps(m, OptsMaps(m, c, i, opts, k)) && RoomsFiled(OptsMaps(m, c, i, opts, k), c, i, opts[..k])
  {
    if k > 0 {
      OptsFiled(m, c, i, opts, k - 1);
      var before := OptsMaps(m, c, i, opts, k - 1);
      var after := OptsMaps(m, c, i, opts, k);
      RoomPut(before, after, (c, i, opts[k - 1].roomId), OptLit(c, i, k - 1));
      KeepsTrans(m, before, after);
      KeepsFiled(before, after);
      assert opts[..k] == opts[..k - 1] + [opts[k - 1]];
    }
  }

  /** A slot files the room literal of each of its options and keeps what was filed. */
  lemma SlotFiled(m: Maps, c: int, i: int, opts: seq<Task>)
    requires opts != []
    ensures Keeps(m, SlotMaps(m, c, i, opts)) && RoomsFiled(SlotMaps(m, c, i, opts), c, i, opts)
  {
    if |opts| > 1 {
      OptsFiled(m, c, i, opts, |opts|);
      assert opts[..|opts|] == opts;
    } else {
      RoomPut(m, SlotMaps(m, c, i, opts), (c, i, opts[0].roomId), One);
    }
  }

  /** Slot `n - 1` files its room literals and keeps what the slots before it filed. */
  lemma SchedMapsStep(m: Maps, c: int, sched: seq<seq<Task>>, n: nat)
    requires 0 < n <= |sched|
    ensures Keeps(SchedMapsOf(m, c, sched, n - 1), SchedMapsOf(m, c, sched, n))
    ensures RoomsFiled(SchedMapsOf(m, c, sched, n), c, n - 1, sched[n - 1])
  {
    if sched[n - 1] != [] {
      SlotFiled(SchedMapsOf(m, c, sched, n - 1), c, n - 1, sched[n - 1]);
    }
  }

  lemma {:induction false} SchedMapsFiled(m: Maps, c: int, sched: seq<seq<Task>>, n: nat)
    requires n <= |sched|
    ensures Keeps(m, SchedMapsOf(m, c, sched, n))
    ensures forall i :: 0 <= i < n ==> RoomsFiled(SchedMapsOf(m, c, sched, n), c, i, sched[i])
  {
    if n > 0 {
      SchedMapsFiled(m, c, sched, n - 1);
      var prev := SchedMapsOf(m, c, sched, n - 1);
      var r := SchedMapsOf(m, c, sched, n);
      SchedMapsStep(m, c, sched, n);
      KeepsTrans(m, prev, r);
      forall i | 0 <= i < n
        ensures RoomsFiled(r, c, i, sched[i])
      {
        if i < n - 1 {
          KeepsRooms(prev, r, c, i, sched[i]);
        }
      }
    }
  }

  lemma {:induction false} ClientsMapsFiled(m: Maps, scheds: seq<seq<seq<Task>>>, n: nat)
    requires n <= |scheds|
    ensures Keeps(m, ClientsMapsOf(m, scheds, n))
    ensures forall c, i :: 0 <= c < n && 0 <= i < |scheds[c]| ==> RoomsFiled(ClientsMapsOf(m, scheds, n), c, i, scheds[c][i])
  {
    if n > 0 {
      ClientsMapsFiled(m, scheds, n - 1);
      var prev := ClientsMapsOf(m, scheds, n - 1);
      var r := ClientsMapsOf(m, scheds, n);
      SchedMapsFiled(prev, n - 1, scheds[n - 1], |scheds[n - 1]|);
      KeepsTrans(m, prev, r);
      forall c, i | 0 <= c < n && 0 <= i < |scheds[c]|
        ensures RoomsFiled(r, c, i, scheds[c][i])
      {
        if c < n - 1 {
          KeepsRooms(prev, r, c, i, scheds[c][i]);
        }
      }
    }
  }

  lemma {:induction false} ClientGapsFiled(b: Build, c: int, k: nat, p: GS.Params)
    ensures var r := LR.ClientGaps(b, c, k, p);
      Keeps(b.maps, r.maps) && forall j :: 0 <= j < k ==> PairFiled(r.maps, c, j)
  {
    if k > 0 {
      ClientGapsFiled(b, c, k - 1, p);
      var before := LR.ClientGaps(b, c, k - 1, p);
      var after := LR.ClientGaps(b, c, k, p);
      TransferPut(before.maps, after.maps, (c, k - 1, k), TrInterval(c, k - 1, k));
      KeepsTrans(b.maps, before.maps, after.maps);
      KeepsFiled(before.maps, after.maps);
      assert PairFiled(after.maps, c, k - 1);
    }
  }

  lemma {:induction false} GapsFiled(b: Build, scheds: seq<seq<seq<Task>>>, p: GS.Params, n: nat)
    requires n <= |scheds|
    ensures var r := LR.Gaps(b, scheds, p, n);
      Keeps(b.maps, r.maps) && forall c, i :: 0 <= c < n && 0 <= i && i + 1 < |scheds[c]| ==> PairFiled(r.maps, c, i)
  {
    if n > 0 {
      GapsFiled(b, scheds, p, n - 1);
      var before := LR.Gaps(b, scheds, p, n - 1);
      ClientGapsFiled(before, n - 1, GS.PairCount(|scheds[n - 1]|), p);
      var after := LR.Gaps(b, scheds, p, n);
      KeepsTrans(b.maps, before.maps, after.maps);
      forall c, i | 0 <= c < n && 0 <= i && i + 1 < |scheds[c]|
        ensures PairFiled(after.maps, c, i)
      {
        if c < n - 1 {
          KeepsPair(before.maps, after.maps, c, i);
        }
      }
    }
  }

  /** The general constraints leave the indexes alone. */
  lemma {:induction false} GeneralKeepsMaps(b: Build, scheds: seq<seq<seq<Task>>>, owners: seq<Option<Assessment>>, p: GS.Params, k: nat)
    requires k <= |scheds| == |owners| && LR.GeneralUpTo(b, scheds, owners, p, k).Ok?
    ensures LR.GeneralUpTo(b, scheds, owners, p, k).value.maps == b.maps
  {
    if k > 0 {
      GeneralKeepsMaps(b, scheds, owners, p, k - 1);
    }
  }

  /** A model built by `generate` files every key the intended loop reads. */
  lemma GeneratedFiled(s0: seq<seq<seq<Task>>>, c0: Dict<int, seq<int>>, b: Build, xs: seq<Assessment>, p: GS.Params, floors: int)
    requires LR.Generated(s0, c0, b, xs, p, floors).Ok?
    ensures var scheds := LS.InitUpTo(s0, c0, xs, |xs|).value.schedules;
      Filed(LR.Generated(s0, c0, b, xs, p, floors).value.maps, scheds, |scheds|)
  {
    var init := LS.InitUpTo(s0, c0, xs, |xs|).value;
    var scheds := init.schedules;
    ClientsMapsFiled(b.maps, scheds, |scheds|);
    var defined := Clients(Defining(b, None), scheds, |scheds|, p.horizon, floors).value.b;
    GapsFiled(defined, scheds, p, |scheds|);
    var gapped := LR.Gaps(defined, scheds, p, |scheds|);
    var owners := LR.Owners(xs, init.clients, |scheds|);
    GeneralKeepsMaps(gapped, scheds, owners, p, |scheds|);
    var r := LR.Generated(s0, c0, b, xs, p, floors).value;
    assert r.maps == gapped.maps;
  }

  // The loop as intended.

  /** In solution `a` the floor literal of the transfer between slots `i` and `i + 1` of client `c`
      is set and the transfer starts at `s`. */
  predicate TransferAt(a: Assignment, c: int, i: int, s: int) {
    a(TrLit(c, i, i + 1)) != 0 && s == a(TrStart(c, i, i + 1))
  }

  /** With the room literals filed, a slot yields at most one entry: the first option whose literal
      is set, at the slot's start. */
  lemma {:induction false} SlotReadFiled(m: Maps, a: Assignment, c: int, i: int, opts: seq<Task>)
    requires RoomsFiled(m, c, i, opts)
    ensures SlotRead(m, a, c, i, opts).Ok? && |SlotRead(m, a, c, i, opts).value| <= 1
    ensures forall e :: e in SlotRead(m, a, c, i, opts).value ==>
      e.Visit? && e.start == a(Start(c, i)) && exists t :: t in opts && t.id == e.activity
  {
    if opts != [] {
      assert opts[0] in opts;
      assert RoomsFiled(m, c, i, opts[1..]) by {
        forall t | t in opts[1..] ensures t in opts { }
      }
      SlotReadFiled(m, a, c, i, opts[1..]);
      forall e | e in SlotRead(m, a, c, i, opts).value
        ensures exists t :: t in opts && t.id == e.activity
      {
        if e.activity != opts[0].id {
          var t :| t in opts[1..] && t.id == e.activity;
          assert t in opts;
        }
      }
    }
  }

  /** The transfer into slot `i` the intended loop lists: none before the first slot, else one
      when the floor literal from slot `i - 1` is set. */
  function TransferInto(a: Assignment, c: int, i: int): seq<Entry> {
    if i <= 0 || a(TrLit(c, i - 1, i)) == 0 then [] else [Transfer(a(TrStart(c, i - 1, i)))]
  }

  lemma ClientRowsLast(m: Maps, a: Assignment, c: int, sched: seq<seq<Task>>, n: nat)
    requires 0 < n <= |sched| && ClientRows(m, a, c, sched, n - 1).Ok?
    requires n == 1 || PairFiled(m, c, n - 2)
    requires SlotRead(m, a, c, n - 1, sched[n - 1]).Ok?
    ensures ClientRows(m, a, c, sched, n) ==
      Ok(ClientRows(m, a, c, sched, n - 1).value + TransferInto(a, c, n - 1) + SlotRead(m, a, c, n - 1, sched[n - 1]).value)
  {
  }

  /** With its keys filed, the intended loop never raises, and it lists a transfer exactly for
      each pair of consecutive slots whose floor literal is set, at that transfer's start. */
  lemma {:induction false} ClientRowsFiled(m: Maps, a: Assignment, c: int, sched: seq<seq<Task>>, n: nat)
    requires n <= |sched|
    requires forall i :: 0 <= i < n ==> RoomsFiled(m, c, i, sched[i])
    requires forall i :: 0 <= i && i + 1 < n ==> PairFiled(m, c, i)
    ensures ClientRows(m, a, c, sched, n).Ok?
    ensures forall s :: Transfer(s) in ClientRows(m, a, c, sched, n).value <==>
      exists i :: 0 <= i && i + 1 < n && TransferAt(a, c, i, s)
  {
    if n > 0 {
      ClientRowsFiled(m, a, c, sched, n - 1);
      SlotReadFiled(m, a, c, n - 1, sched[n - 1]);
      if n > 1 {
        assert PairFiled(m, c, n - 2);
      }
      ClientRowsLast(m, a, c, sched, n);
      TransfersSnoc(a, c, n, ClientRows(m, a, c, sched, n - 1).value, SlotRead(m, a, c, n - 1, sched[n - 1]).value);
    }
  }

  /** The transfers listed up to slot `n - 1`, then the transfer into it and the slot's entry. */
  lemma TransfersSnoc(a: Assignment, c: int, n: nat, before: seq<Entry>, v: seq<Entry>)
    requires n > 0
    requires forall s :: Transfer(s) in before <==> exists i :: 0 <= i && i + 1 < n - 1 && TransferAt(a, c, i, s)
    requires forall e :: e in v ==> e.Visit?
    ensures forall s :: Transfer(s) in before + TransferInto(a, c, n - 1) + v <==>
      exists i :: 0 <= i && i + 1 < n && TransferAt(a, c, i, s)
  {
    var t := TransferInto(a, c, n - 1);
    forall s
      ensures Transfer(s) in before + t + v <==> exists i :: 0 <= i && i + 1 < n && TransferAt(a, c, i, s)
    {
      if Transfer(s) in t {
        assert TransferAt(a, c, n - 2, s);
      }
      if exists i :: 0 <= i && i + 1 < n && TransferAt(a, c, i, s) {
        var i :| 0 <= i && i + 1 < n && TransferAt(a, c, i, s);
        if i + 1 < n - 1 {
          assert Transfer(s) in before;
        } else {
          assert t == [Transfer(s)];
        }
      }
    }
  }

  lemma {:induction false} CollectedFiled(m: Maps, a: Assignment, scheds: seq<seq<seq<Task>>>, n: nat)
    requires n <= |scheds| && Filed(m, scheds, n)
    ensures Collected(m, a, scheds, n, false).Ok? && |Collected(m, a, scheds, n, false).value| == n
  {
    if n > 0 {
      assert Filed(m, scheds, n - 1);
      var c := n - 1;
      assert forall i :: 0 <= i < |scheds[c]| ==> RoomsFiled(m, c, i, scheds[c][i]);
      assert forall i :: 0 <= i && i + 1 < |scheds[c]| ==> PairFiled(m, c, i);
      CollectedFiled(m, a, scheds, n - 1);
      ClientRowsFiled(m, a, c, scheds[c], |scheds[c]|);
    }
  }

  /** `generate` as intended never raises after building: it returns the solver's status, with
      every client's list collected when the status is OPTIMAL. */
  lemma GeneratedFinishes(s0: seq<seq<seq<Task>>>, c0: Dict<int, seq<int>>, b: Build, xs: seq<Assessment>, p: GS.Params, floors: int,
                          solve: Build -> (Status, Assignment))
    requires LR.Generated(s0, c0, b, xs, p, floors).Ok?
    ensures var r := LR.Generated(s0, c0, b, xs, p, floors).value;
      Finished(r, LS.InitUpTo(s0, c0, xs, |xs|).value.schedules, solve, false) == Ok(solve(r).0)
  {
    var r := LR.Generated(s0, c0, b, xs, p, floors).value;
    var scheds := LS.InitUpTo(s0, c0, xs, |xs|).value.schedules;
    GeneratedFiled(s0, c0, b, xs, p, floors);
    CollectedFiled(r.maps, solve(r).1, scheds, |scheds|);
  }
}
