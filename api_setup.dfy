/** What the setters of the API-driven scheduler (`Solver` in `src/utils/solver_v2.py`) make of
    the JSON objects they are given: the scenario action and the time settings derived from it,
    the resources grouped by room, the activities indexed by `(activity id, allocation)`, and
    the assessments.  The setters themselves, which also change their arguments in place, are
    the methods of `ApiSolver.Solver`. */
module ApiSetup {
  import opened Wrappers
  import opened PyDict
  import opened Records
  import opened Serializer

  /** `d[k]` on a dict: a KeyError when the key is missing. */
  function Item(d: Dict<string, PyVal>, k: string): (r: Result<PyVal>)
    ensures r.Ok? <==> Get(d, k).Some?
    ensures r.Ok? ==> r.value == Get(d, k).value
    ensures r.Err? ==> r.error == KeyError
  {
    match Get(d, k)
    case Some(v) => Ok(v)
    case None => Err(KeyError)
  }

  /** `v[k]` with a string `k`: a TypeError unless `v` is a dict. */
  function Subscript(v: PyVal, k: string): (r: Result<PyVal>)
    ensures !v.PDict? ==> r == Err(TypeError)
    ensures v.PDict? ==> r == Item(v.entries, k)
  {
    if v.PDict? then Item(v.entries, k) else Err(TypeError)
  }

  /** `c(**v)`: a TypeError unless `v` is a mapping. */
  function Splat(c: Class, v: PyVal): (r: Result<PyVal>)
    ensures !v.PDict? ==> r == Err(TypeError)
    ensures v.PDict? ==> r == Construct(c, v.entries)
  {
    if v.PDict? then Construct(c, v.entries) else Err(TypeError)
  }

  /** `[c(**v) for v in vs]`. */
  function SplatAll(c: Class, vs: seq<PyVal>): (r: Result<seq<PyVal>>)
    ensures r.Ok? ==> |r.value| == |vs| && forall i :: 0 <= i < |vs| ==> Splat(c, vs[i]) == Ok(r.value[i])
  {
    if vs == [] then Ok([])
    else
      var init :- SplatAll(c, vs[..|vs| - 1]);
      var last :- Splat(c, vs[|vs| - 1]);
      Ok(init + [last])
  }

  /** The comprehension fails with the error of its first failing element. */
  lemma {:induction false} SplatAllFails(c: Class, vs: seq<PyVal>, i: nat)
    requires i < |vs| && Splat(c, vs[i]).Err?
    requires forall j :: 0 <= j < i ==> Splat(c, vs[j]).Ok?
    ensures SplatAll(c, vs) == Err(Splat(c, vs[i]).error)
  {
    var init := vs[..|vs| - 1];
    if i < |vs| - 1 {
      SplatAllFails(c, init, i);
    } else {
      assert SplatAll(c, init).Ok? by {
        SplatAllOk(c, init);
      }
    }
  }

  /** The comprehension succeeds when every element does. */
  lemma {:induction false} SplatAllOk(c: Class, vs: seq<PyVal>)
    requires forall j :: 0 <= j < |vs| ==> Splat(c, vs[j]).Ok?
    ensures SplatAll(c, vs).Ok?
  {
    if vs != [] {
      SplatAllOk(c, vs[..|vs| - 1]);
    }
  }

  // The scenario action.

  /** `m.ScenarioAction(**rest, data=m.ScenarioActionData(out_order_rooms=data['out_of_order_rooms'],
      client_elite=m.ClientElite(**data['client_elite']), client_ultimate=m.ClientUltimate(**data['client_ultimate'])))`
      where `rest` is the object without its popped `data`. */
  function ScenarioOf(rest: Dict<string, PyVal>, data: PyVal): (r: Result<PyVal>)
    ensures r.Ok? ==> r.value.PObj? && r.value.cls == ScenarioActionClass()
  {
    var rooms :- Subscript(data, "out_of_order_rooms");
    var elite :- Subscript(data, "client_elite");
    var eliteObj :- Splat(ClientEliteClass(), elite);
    var ultimate :- Subscript(data, "client_ultimate");
    var ultimateObj :- Splat(ClientUltimateClass(), ultimate);
    var dataObj :- Construct(ScenarioActionDataClass(), [("out_order_rooms", rooms), ("client_elite", eliteObj), ("client_ultimate", ultimateObj)]);
    Construct(ScenarioActionClass(), rest + [("data", dataObj)])
  }

  /** The time settings the `scenario_action` setter derives, all spans in whole minutes. */
  datatype Settings = Settings(timeStart: int, timeEnd: int, interval: int, maxGap: int, transfer: int,
                               simultaneous: PyVal, horizon: int)

  /** `time_start` is the arrival time of day in seconds, `time_end` 23:00, the interval and the
      transfer five minutes, `max_gap` the scenario's value in minutes (a TypeError unless it is
      a number) and the horizon the whole minutes from the start to 23:00. */
  function SettingsOf(sa: PyVal, clock: string -> Option<(nat, nat, nat)>): Result<Settings> {
    var start :- ArrivalSecs(sa, clock);
    var gap :- GetAttr(sa, "max_gap");
    if Num(gap).None? then Err(TypeError)
    else
      var simultaneous :- GetAttr(sa, "allow_simultaneous_transfers");
      Ok(Settings(start, 23 * 3600, 300 / 60, Num(gap).value, 300 / 60, simultaneous, (23 * 3600 - start) / 60))
  }

  /** The settings read the arrival time's hours, minutes and seconds; the horizon is the floor
      of the minutes left until 23:00 (negative for an arrival after 23:00). */
  lemma SettingsSpec(sa: PyVal, clock: string -> Option<(nat, nat, nat)>, s: Settings)
    requires SettingsOf(sa, clock) == Ok(s)
    ensures GetAttr(sa, "first_client_arrival_time").Ok? && GetAttr(sa, "first_client_arrival_time").value.PStr?
    ensures var t := clock(GetAttr(sa, "first_client_arrival_time").value.s);
      t.Some? && s.timeStart == 3600 * t.value.0 + 60 * t.value.1 + t.value.2
    ensures s.timeEnd == 82800 && s.interval == 5 && s.transfer == 5
    ensures Some(s.maxGap) == Num(GetAttr(sa, "max_gap").value)
    ensures s.horizon * 60 <= s.timeEnd - s.timeStart < s.horizon * 60 + 60
  {
  }

  /** What the `scenario_action` setter makes of its argument's entries, once `data` is popped:
      the object without `data`, the scenario action and its settings. */
  function ScenarioSetup(entries: Dict<string, PyVal>, clock: string -> Option<(nat, nat, nat)>): Result<(Dict<string, PyVal>, PyVal, Settings)> {
    var data :- Item(entries, "data");
    var sa :- ScenarioOf(Without(entries, "data"), data);
    var s :- SettingsOf(sa, clock);
    Ok((Without(entries, "data"), sa, s))
  }

  /** Without a `data` entry the setter raises a KeyError; with one, the object loses it. */
  lemma ScenarioPops(entries: Dict<string, PyVal>, clock: string -> Option<(nat, nat, nat)>)
    requires KeysDistinct(entries)
    ensures Get(entries, "data") == None ==> ScenarioSetup(entries, clock) == Err(KeyError)
    ensures ScenarioSetup(entries, clock).Ok? ==> Get(ScenarioSetup(entries, clock).value.0, "data") == None
    ensures ScenarioSetup(entries, clock).Ok? ==>
      forall k :: k != "data" ==> Get(ScenarioSetup(entries, clock).value.0, k) == Get(entries, k)
  {
    WithoutGone(entries, "data");
    forall k | k != "data" ensures Get(Without(entries, "data"), k) == Get(entries, k) {
      GetWithout(entries, "data", k);
    }
  }

  // Resources.

  /** The room key of a resource: 'CLIENT' for a resource of type 'CLIENT', its room type
      otherwise. */
  function RoomKey(o: PyVal): Result<PyVal> {
    var t :- GetAttr(o, "type");
    if t == PStr("CLIENT") then Ok(PStr("CLIENT")) else GetAttr(o, "room_type")
  }

  /** `o.data[k] = v`: a TypeError unless `data` is a dict. */
  function SetData(o: PyVal, k: string, v: PyVal): (r: Result<PyVal>)
    ensures r.Ok? ==> o.PObj? && r.value.PObj? && r.value.cls == o.cls
  {
    var data :- GetAttr(o, "data");
    if !data.PDict? then Err(TypeError)
    else Ok(PObj(o.cls, Put(o.attrs, "data", PDict(Put(data.entries, k, v)))))
  }

  /** The room a resource records in `data['room']`. */
  function RoomOf(o: PyVal): Option<PyVal> {
    match GetAttr(o, "data")
    case Ok(PDict(d)) => Get(d, "room")
    case _ => None
  }

  /** One resource of the grouping loop: its room key and the resource recording it. */
  function Placement(o: PyVal): Result<(PyVal, PyVal)> {
    var key :- RoomKey(o);
    var placed :- SetData(o, "room", key);
    if !Hashable(key) then Err(TypeError) else Ok((key, placed))
  }

  /** The grouping loop over the resources: every resource with its key, in input order. */
  function Placements(rs: seq<PyVal>): (r: Result<seq<(PyVal, PyVal)>>)
    ensures r.Ok? ==> |r.value| == |rs| && forall i :: 0 <= i < |rs| ==> Placement(rs[i]) == Ok(r.value[i])
  {
    if rs == [] then Ok([])
    else
      var init :- Placements(rs[..|rs| - 1]);
      var last :- Placement(rs[|rs| - 1]);
      Ok(init + [last])
  }

  /** The resources as the grouping leaves them. */
  function Placed(ps: seq<(PyVal, PyVal)>): (r: seq<PyVal>)
    ensures |r| == |ps| && forall i :: 0 <= i < |ps| ==> r[i] == ps[i].1
  {
    seq(|ps|, i requires 0 <= i < |ps| => ps[i].1)
  }

  /** A placed resource records its key and differs from the original only in `data['room']`. */
  lemma PlacementRecords(o: PyVal, key: PyVal, placed: PyVal)
    requires Placement(o) == Ok((key, placed))
    ensures RoomOf(placed) == Some(key) && Hashable(key)
    ensures key == (if GetAttr(o, "type") == Ok(PStr("CLIENT")) then PStr("CLIENT") else GetAttr(o, "room_type").value)
    ensures placed.PObj? && o.PObj? && placed.cls == o.cls
    ensures forall k :: k != "data" ==> Get(placed.attrs, k) == Get(o.attrs, k)
  {
    var data := GetAttr(o, "data").value;
    GetPutSame(o.attrs, "data", PDict(Put(data.entries, "room", key)));
    GetPutSame(data.entries, "room", key);
    forall k | k != "data" ensures Get(placed.attrs, k) == Get(o.attrs, k) {
      GetPutOther(o.attrs, "data", PDict(Put(data.entries, "room", key)), k);
    }
  }

  /** Grouping places every resource in exactly the group of the key it records: a group lists,
      in input order, the resources whose `data['room']` is that key. */
  lemma GroupsExact(rs: seq<PyVal>, ps: seq<(PyVal, PyVal)>, k: PyVal, x: PyVal)
    requires Placements(rs) == Ok(ps)
    ensures GetList(AppendAll([], ps), k) == ValuesFor(ps, k)
    ensures x in GetList(AppendAll([], ps), k) <==> x in Placed(ps) && RoomOf(x) == Some(k)
  {
    GetListAppendAll([], ps, k);
    ValuesForIn(ps, k, x);
    if x in Placed(ps) {
      var i :| 0 <= i < |ps| && Placed(ps)[i] == x;
      PlacementRecords(rs[i], ps[i].0, ps[i].1);
      assert (ps[i].0, x) == ps[i];
    }
    if (k, x) in ps {
      var i :| 0 <= i < |ps| && ps[i] == (k, x);
      PlacementRecords(rs[i], ps[i].0, ps[i].1);
      assert Placed(ps)[i] == x;
    }
  }

  // Activities.

  /** What the activity index holds for one allocation of an activity: its id, room type and
      resource type, and the allocation's duration. */
  datatype Entry = Entry(id: PyVal, roomType: PyVal, resourceType: PyVal, duration: PyVal)

  type ActivitiesMap = Dict<(PyVal, string), seq<Entry>>

  /** `[activity.pop('time_allocations') for activity in activities]`, on the values. */
  function Allocations(ds: seq<Dict<string, PyVal>>): (r: Result<seq<PyVal>>)
    ensures r.Ok? ==> |r.value| == |ds| && forall i :: 0 <= i < |ds| ==> Get(ds[i], "time_allocations") == Some(r.value[i])
  {
    if ds == [] then Ok([])
    else
      var init :- Allocations(ds[..|ds| - 1]);
      var last :- Item(ds[|ds| - 1], "time_allocations");
      Ok(init + [last])
  }

  /** `m.Activity(**rest, time_allocations=m.TimeAllocation(**ta))`. */
  function ActivityOf(ac: Class, tc: Class, rest: Dict<string, PyVal>, ta: PyVal): (r: Result<PyVal>)
    ensures r.Ok? ==> r.value.PObj? && r.value.cls == ac
  {
    var taObj :- Splat(tc, ta);
    Construct(ac, rest + [("time_allocations", taObj)])
  }

  /** The activities, built from the objects without their allocations (`ac` is `Activity`,
      `tc` is `TimeAllocation`). */
  function ActivitiesOf(ac: Class, tc: Class, rests: seq<Dict<string, PyVal>>, tas: seq<PyVal>): (r: Result<seq<PyVal>>)
    requires |rests| == |tas|
    ensures r.Ok? ==> |r.value| == |rests| && forall i :: 0 <= i < |rests| ==> ActivityOf(ac, tc, rests[i], tas[i]) == Ok(r.value[i])
  {
    if rests == [] then Ok([])
    else
      var init :- ActivitiesOf(ac, tc, rests[..|rests| - 1], tas[..|tas| - 1]);
      var last :- ActivityOf(ac, tc, rests[|rests| - 1], tas[|tas| - 1]);
      Ok(init + [last])
  }

  /** The index entries of one activity for its first `n` allocations (attributes of its
      `time_allocations`), each keyed by the activity id and the allocation's name. */
  function FieldEntries(id: PyVal, rt: PyVal, res: PyVal, attrs: Dict<string, PyVal>, n: nat): (r: seq<((PyVal, string), Entry)>)
    requires n <= |attrs|
    ensures |r| == n
    ensures forall j :: 0 <= j < n ==> r[j] == ((id, attrs[j].0), Entry(id, rt, res, attrs[j].1))
  {
    if n == 0 then [] else FieldEntries(id, rt, res, attrs, n - 1) + [((id, attrs[n - 1].0), Entry(id, rt, res, attrs[n - 1].1))]
  }

  /** The index entries of one activity: a TypeError for an id that cannot be a key. */
  function ActivityEntries(a: PyVal): Result<seq<((PyVal, string), Entry)>> {
    var id :- GetAttr(a, "activity_id");
    var rt :- GetAttr(a, "room_type");
    var res :- GetAttr(a, "resource_type");
    var ta :- GetAttr(a, "time_allocations");
    if !ta.PObj? then Err(AttributeError)
    else if !Hashable(id) then Err(TypeError)
    else Ok(FieldEntries(id, rt, res, ta.attrs, |ta.attrs|))
  }

  /** The index entries of all activities, in the order the setter appends them. */
  function AllEntries(acts: seq<PyVal>): Result<seq<((PyVal, string), Entry)>> {
    if acts == [] then Ok([])
    else
      var init :- AllEntries(acts[..|acts| - 1]);
      var last :- ActivityEntries(acts[|acts| - 1]);
      Ok(init + last)
  }

  /** Every index entry is keyed by its own id and an allocation of an activity with that id,
      and holds that allocation's duration; every allocation of every activity has one. */
  lemma {:induction false} EntriesExact(acts: seq<PyVal>, es: seq<((PyVal, string), Entry)>)
    requires AllEntries(acts) == Ok(es)
    ensures forall p :: p in es ==> exists i, j :: IsAllocation(acts, i, j, p)
    ensures forall i, j :: 0 <= i < |acts| && AllocationIndex(acts[i], j) ==> exists p :: p in es && IsAllocation(acts, i, j, p)
  {
    if acts != [] {
      var init := acts[..|acts| - 1];
      var a := acts[|acts| - 1];
      var ies := AllEntries(init).value;
      var les := ActivityEntries(a).value;
      EntriesExact(init, ies);
      forall p | p in es ensures exists i, j :: IsAllocation(acts, i, j, p) {
        if p in ies {
          var i, j :| IsAllocation(init, i, j, p);
          assert IsAllocation(acts, i, j, p);
        } else {
          var j :| 0 <= j < |les| && les[j] == p;
          assert IsAllocation(acts, |acts| - 1, j, p);
        }
      }
      forall i, j | 0 <= i < |acts| && AllocationIndex(acts[i], j) ensures exists p :: p in es && IsAllocation(acts, i, j, p) {
        if i < |acts| - 1 {
          assert acts[i] == init[i];
          var p :| p in ies && IsAllocation(init, i, j, p);
          assert IsAllocation(acts, i, j, p);
        } else {
          assert IsAllocation(acts, i, j, les[j]);
        }
      }
    }
  }

  /** `j` is the position of an allocation of activity `a`. */
  predicate AllocationIndex(a: PyVal, j: int) {
    && GetAttr(a, "time_allocations").Ok? && GetAttr(a, "time_allocations").value.PObj?
    && 0 <= j < |GetAttr(a, "time_allocations").value.attrs|
  }

  /** `p` is the entry of allocation `j` of activity `i`: keyed by the activity's id and the
      allocation's name, holding the id, room type, resource type and the allocation's value. */
  predicate IsAllocation(acts: seq<PyVal>, i: int, j: int, p: ((PyVal, string), Entry)) {
    && 0 <= i < |acts| && AllocationIndex(acts[i], j)
    && var a := acts[i];
       var field := GetAttr(a, "time_allocations").value.attrs[j];
       && GetAttr(a, "activity_id") == Ok(p.0.0) && p.1.id == p.0.0
       && p.0.1 == field.0 && p.1.duration == field.1
       && GetAttr(a, "room_type") == Ok(p.1.roomType) && GetAttr(a, "resource_type") == Ok(p.1.resourceType)
  }
}
