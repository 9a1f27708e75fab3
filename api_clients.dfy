/** What `__initialize_variables` of the API-driven scheduler (`src/utils/solver_v2.py`) makes of
    the assessments: one schedule per client of every assessment with clients, each slot listing
    a task per room that one of the slot's activities can take, with the MRI activities renamed
    in the shared activity index on the way. */
module ApiClients {
  import opened Wrappers
  import opened PyDict
  import opened PyList
  import opened Text
  import opened Records
  import opened Serializer
  import opened ApiSetup

  /** `task_type(duration, id, room_id, room_floor)`: one room an activity of a slot can take.
      The floor is the room's location, which `max` has already required to be a number. */
  datatype Task = Task(duration: PyVal, id: PyVal, roomId: PyVal, roomFloor: int)

  /** `__rooms_map`: the resources grouped by room key. */
  type RoomsMap = Dict<PyVal, seq<PyVal>>

  // How many clients an assessment has.

  /** `sum(vs)`: a TypeError unless every value is a number. */
  function SumNums(vs: seq<PyVal>): (r: Result<int>)
    ensures r.Ok? <==> forall j :: 0 <= j < |vs| ==> Num(vs[j]).Some?
    ensures r.Err? ==> r.error == TypeError
  {
    if vs == [] then Ok(0)
    else
      var init := vs[..|vs| - 1];
      assert forall j :: 0 <= j < |init| ==> init[j] == vs[j];
      var n :- SumNums(init);
      match Num(vs[|vs| - 1])
      case Some(k) => Ok(n + k)
      case None => Err(TypeError)
  }

  /** `sum(getattr(scenario_action.data, f'client_{assessment.assessment_name.lower()}').__dict__.values())`:
      an AttributeError for a name that is not a string (it has no `lower`), for a tier the
      scenario does not have, or for a tier that is not a record. */
  function TierCount(sa: PyVal, a: PyVal): (r: Result<int>)
    ensures GetAttr(sa, "data").Ok? && GetAttr(a, "assessment_name").Ok? && !GetAttr(a, "assessment_name").value.PStr? ==>
      r == Err(AttributeError)
  {
    var data :- GetAttr(sa, "data");
    var name :- GetAttr(a, "assessment_name");
    if !name.PStr? then Err(AttributeError)
    else
      var tier :- GetAttr(data, "client_" + LowerStr(name.s));
      if !tier.PObj? then Err(AttributeError)
      else SumNums(Values(tier.attrs))
  }

  /** `for activity_id in assessment.data['activities']`. */
  function ActivityIds(a: PyVal): Result<seq<PyVal>> {
    var data :- GetAttr(a, "data");
    var ids :- Subscript(data, "activities");
    Iter(ids)
  }

  // Reading and renaming the activity index.

  /** The index key of an activity's default allocation. */
  function DefaultKey(aid: PyVal): (PyVal, string) {
    (aid, "default_time")
  }

  /** `'MRI' in id`: a substring test on a string, membership on a list, a key test on a dict,
      and a TypeError on anything else. */
  function HasMri(id: PyVal): Result<bool> {
    match id
    case PStr(s) => Ok(Contains(s, "MRI"))
    case PList(xs) => Ok(PStr("MRI") in xs)
    case PDict(d) => Ok("MRI" in Keys(d))
    case _ => Err(TypeError)
  }

  /** An id the renaming leaves alone: either `'MRI'` itself or one without `'MRI'` in it. */
  predicate Settled(id: PyVal) {
    HasMri(id) == Ok(false) || id == PStr("MRI")
  }

  lemma MriHasMri()
    ensures HasMri(PStr("MRI")) == Ok(true)
  {
    assert "MRI"[..|"MRI"|] == "MRI";
  }

  /** `if 'MRI' in activity['id']: activity['id'] = 'MRI'`. */
  function Renamed(e: Entry): (r: Result<Entry>)
    ensures r.Ok? ==> r.value == e.(id := r.value.id) && Settled(r.value.id)
    ensures r.Ok? ==> (r.value.id == PStr("MRI") <==> HasMri(e.id) == Ok(true))
    ensures r.Ok? && HasMri(e.id) == Ok(false) ==> r.value == e
  {
    MriHasMri();
    var mri :- HasMri(e.id);
    Ok(if mri then e.(id := PStr("MRI")) else e)
  }

  /** Renaming twice renames once: the second pass finds `'MRI'` or no MRI at all. */
  lemma RenamedIdem(e: Entry, r: Entry)
    requires Renamed(e) == Ok(r)
    ensures Renamed(r) == Ok(r)
  {
    MriHasMri();
  }

  /** Every entry of a list renamed, in order. */
  function RenameAll(es: seq<Entry>): (r: Result<seq<Entry>>)
    ensures r.Ok? <==> forall j :: 0 <= j < |es| ==> Renamed(es[j]).Ok?
    ensures r.Ok? ==> |r.value| == |es| && forall j :: 0 <= j < |es| ==> Renamed(es[j]) == Ok(r.value[j])
  {
    if es == [] then Ok([])
    else
      var init := es[..|es| - 1];
      assert forall j :: 0 <= j < |init| ==> init[j] == es[j];
      var rs :- RenameAll(init);
      var last :- Renamed(es[|es| - 1]);
      Ok(rs + [last])
  }

  /** Renaming a renamed list changes nothing. */
  lemma {:induction false} RenameAllIdem(es: seq<Entry>, rs: seq<Entry>)
    requires RenameAll(es) == Ok(rs)
    ensures RenameAll(rs) == Ok(rs)
  {
    forall j | 0 <= j < |rs| ensures Renamed(rs[j]) == Ok(rs[j]) {
      RenamedIdem(es[j], rs[j]);
    }
    var r := RenameAll(rs).value;
    assert r == rs;
  }

  /** `[activity for aid in aids for activity in activities_map[(aid, 'default_time')]]` on the
      defaultdict: every key read is inserted (with an empty list) when missing, and a key that
      cannot be hashed raises a TypeError. */
  function Gather(amap: ActivitiesMap, aids: seq<PyVal>): (r: Result<(ActivitiesMap, seq<Entry>)>)
    ensures r.Ok? <==> forall j :: 0 <= j < |aids| ==> Hashable(aids[j])
    ensures r.Err? ==> r.error == TypeError
  {
    if aids == [] then Ok((amap, []))
    else
      var init := aids[..|aids| - 1];
      assert forall j :: 0 <= j < |init| ==> init[j] == aids[j];
      var p :- Gather(amap, init);
      var key := DefaultKey(aids[|aids| - 1]);
      if !Hashable(aids[|aids| - 1]) then Err(TypeError)
      else Ok((Put(p.0, key, GetList(p.0, key)), p.1 + GetList(p.0, key)))
  }

  /** The lists under the keys of `aids` in the index as it was, concatenated. */
  function Lists(amap: ActivitiesMap, aids: seq<PyVal>): seq<Entry> {
    if aids == [] then [] else Lists(amap, aids[..|aids| - 1]) + GetList(amap, DefaultKey(aids[|aids| - 1]))
  }

  /** Reading a defaultdict leaves every list as it was. */
  lemma GetListTouch(m: ActivitiesMap, key: (PyVal, string), k: (PyVal, string))
    ensures GetList(Put(m, key, GetList(m, key)), k) == GetList(m, k)
  {
    if k == key {
      GetPutSame(m, key, GetList(m, key));
    } else {
      GetPutOther(m, key, GetList(m, key), k);
    }
  }

  /** A list id gathers the activities of each of its ids, concatenated in order, and reading
      them changes no list of the index. */
  lemma {:induction false} GatherSpec(amap: ActivitiesMap, aids: seq<PyVal>, m: ActivitiesMap, es: seq<Entry>)
    requires Gather(amap, aids) == Ok((m, es))
    ensures es == Lists(amap, aids)
    ensures forall k :: GetList(m, k) == GetList(amap, k)
  {
    if aids != [] {
      var init := aids[..|aids| - 1];
      var p := Gather(amap, init).value;
      GatherSpec(amap, init, p.0, p.1);
      var key := DefaultKey(aids[|aids| - 1]);
      forall k ensures GetList(m, k) == GetList(amap, k) {
        GetListTouch(p.0, key, k);
      }
    }
  }

  /** Writing back the renamed entries of every key read: the dicts of the index are the ones
      renamed in place, so each list read ends up renamed. */
  function WriteBack(amap: ActivitiesMap, aids: seq<PyVal>): Result<ActivitiesMap> {
    if aids == [] then Ok(amap)
    else
      var m :- WriteBack(amap, aids[..|aids| - 1]);
      var key := DefaultKey(aids[|aids| - 1]);
      var es :- RenameAll(GetList(m, key));
      Ok(Put(m, key, es))
  }

  /** After the write-back every list read holds settled ids and is its old list renamed; the
      lists of the other keys are untouched. */
  lemma {:induction false} WriteBackSpec(amap: ActivitiesMap, aids: seq<PyVal>, m: ActivitiesMap, k: (PyVal, string))
    requires WriteBack(amap, aids) == Ok(m)
    ensures k in Seq2Keys(aids) ==> RenameAll(GetList(amap, k)) == Ok(GetList(m, k))
    ensures k !in Seq2Keys(aids) ==> GetList(m, k) == GetList(amap, k)
  {
    if aids != [] {
      var init := aids[..|aids| - 1];
      var m0 := WriteBack(amap, init).value;
      var key := DefaultKey(aids[|aids| - 1]);
      var es := RenameAll(GetList(m0, key)).value;
      WriteBackSpec(amap, init, m0, k);
      assert Seq2Keys(aids) == Seq2Keys(init) + [key];
      if k == key {
        GetPutSame(m0, key, es);
        if k in Seq2Keys(init) {
          RenameAllIdem(GetList(amap, k), GetList(m0, k));
        }
      } else {
        GetPutOther(m0, key, es, k);
      }
    }
  }

  /** The index keys of a sequence of ids. */
  function Seq2Keys(aids: seq<PyVal>): (r: seq<(PyVal, string)>)
    ensures |r| == |aids| && forall j :: 0 <= j < |aids| ==> r[j] == DefaultKey(aids[j])
  {
    if aids == [] then [] else Seq2Keys(aids[..|aids| - 1]) + [DefaultKey(aids[|aids| - 1])]
  }

  // The rooms of an activity.

  /** `room_type`, or `resource_type` when the room type is falsy. */
  function RoomType(e: Entry): PyVal {
    if Truthy(e.roomType) then e.roomType else e.resourceType
  }

  /** `room.resource_id` and `room.location`, a TypeError unless the location is a number
      (`max` compares it with the floors seen so far). */
  function Located(room: PyVal): Result<(PyVal, int)> {
    var rid :- GetAttr(room, "resource_id");
    var loc :- GetAttr(room, "location");
    match Num(loc)
    case Some(n) => Ok((rid, n))
    case None => Err(TypeError)
  }

  /** A task per room of the activity, in the order of the rooms, and the highest floor seen:
      the floors so far or the location of one of the rooms. */
  function RoomTasks(e: Entry, rooms: seq<PyVal>, floors: int): (r: Result<(seq<Task>, int)>)
    ensures r.Ok? ==> |r.value.0| == |rooms|
    ensures r.Ok? ==> forall j :: 0 <= j < |rooms| ==>
      Located(rooms[j]).Ok? && r.value.0[j] == Task(e.duration, e.id, Located(rooms[j]).value.0, Located(rooms[j]).value.1)
    ensures r.Ok? ==> r.value.1 >= floors && forall j :: 0 <= j < |rooms| ==> r.value.1 >= r.value.0[j].roomFloor
    ensures r.Ok? ==> r.value.1 == floors || exists j :: 0 <= j < |rooms| && r.value.1 == r.value.0[j].roomFloor
  {
    if rooms == [] then Ok(([], floors))
    else
      var p :- RoomTasks(e, rooms[..|rooms| - 1], floors);
      var (rid, loc) :- Located(rooms[|rooms| - 1]);
      var tasks := p.0 + [Task(e.duration, e.id, rid, loc)];
      assert forall j :: 0 <= j < |rooms| - 1 ==> rooms[..|rooms| - 1][j] == rooms[j] && tasks[j] == p.0[j];
      Ok((tasks, if p.1 >= loc then p.1 else loc))
  }

  /** One activity of a slot: renamed first, then a task per room of its room type. */
  function EntryTasks(rooms: Option<RoomsMap>, e: Entry, floors: int): (r: Result<(seq<Task>, int)>)
    ensures r.Ok? ==> Renamed(e).Ok? && rooms.Some? && Hashable(RoomType(e))
    ensures r.Ok? ==> RoomTasks(Renamed(e).value, GetList(rooms.value, RoomType(e)), floors) == r
  {
    var renamed :- Renamed(e);
    if rooms.None? then Err(AttributeError)
    else if !Hashable(RoomType(renamed)) then Err(TypeError)
    else RoomTasks(renamed, GetList(rooms.value, RoomType(renamed)), floors)
  }

  /** The tasks of all the activities of a slot, in order, and the highest floor seen. */
  function SlotTasks(rooms: Option<RoomsMap>, es: seq<Entry>, floors: int): (r: Result<(seq<Task>, int)>)
    ensures r.Ok? ==> forall t :: t in r.value.0 ==> Settled(t.id) && r.value.1 >= t.roomFloor
    ensures r.Ok? ==> r.value.1 >= floors
    ensures r.Ok? ==> r.value.1 == floors || exists t :: t in r.value.0 && r.value.1 == t.roomFloor
  {
    if es == [] then Ok(([], floors))
    else
      var p :- SlotTasks(rooms, es[..|es| - 1], floors);
      var q :- EntryTasks(rooms, es[|es| - 1], p.1);
      assert forall t :: t in q.0 ==> Settled(t.id) && q.1 >= t.roomFloor by {
        forall t | t in q.0 ensures Settled(t.id) && q.1 >= t.roomFloor {
          var j :| 0 <= j < |q.0| && q.0[j] == t;
        }
      }
      assert q.1 >= p.1;
      assert forall t :: t in p.0 + q.0 ==> t in p.0 || t in q.0;
      assert q.1 != p.1 ==> exists t :: t in q.0 && q.1 == t.roomFloor by {
        if q.1 != p.1 {
          var j :| 0 <= j < |q.0| && q.1 == q.0[j].roomFloor;
          assert q.0[j] in q.0;
        }
      }
      Ok((p.0 + q.0, q.1))
  }

  // The expansion.

  /** What the expansion changes: the activity index (unset until the `activities` setter
      runs), the schedules and the highest floor. */
  datatype Expansion = Expansion(amap: Option<ActivitiesMap>, schedules: seq<seq<seq<Task>>>, numFloors: int)

  /** The ids a slot's id stands for: its items when it is a list, itself otherwise. */
  function SlotIds(aid: PyVal): seq<PyVal> {
    if aid.PList? then aid.items else [aid]
  }

  /** One slot: its activities read from the index (an AttributeError while the index is
      unset), a task per room of each, and the renamed entries written back. */
  function SlotOf(x: Expansion, rooms: Option<RoomsMap>, aid: PyVal): (r: Result<(Expansion, seq<Task>)>)
    ensures r.Ok? ==> r.value.0.schedules == x.schedules && r.value.0.numFloors >= x.numFloors
    ensures r.Ok? ==> forall t :: t in r.value.1 ==> Settled(t.id) && r.value.0.numFloors >= t.roomFloor
  {
    var aids := SlotIds(aid);
    if aids == [] then Ok((x, []))
    else if x.amap.None? then Err(AttributeError)
    else
      var g :- Gather(x.amap.value, aids);
      var t :- SlotTasks(rooms, g.1, x.numFloors);
      var m :- WriteBack(g.0, aids);
      Ok((Expansion(Some(m), x.schedules, t.1), t.0))
  }

  /** `schedule`: a slot per id, in order. */
  function ScheduleOf(x: Expansion, rooms: Option<RoomsMap>, ids: seq<PyVal>): (r: Result<(Expansion, seq<seq<Task>>)>)
    ensures r.Ok? ==> |r.value.1| == |ids| && r.value.0.schedules == x.schedules && r.value.0.numFloors >= x.numFloors
  {
    if ids == [] then Ok((x, []))
    else
      var p :- ScheduleOf(x, rooms, ids[..|ids| - 1]);
      var q :- SlotOf(p.0, rooms, ids[|ids| - 1]);
      Ok((q.0, p.1 + [q.1]))
  }

  /** One assessment: skipped without clients; otherwise its schedule, once per client. */
  function AssessmentStep(x: Expansion, rooms: Option<RoomsMap>, sa: PyVal, a: PyVal): Result<Expansion> {
    var n :- TierCount(sa, a);
    if n == 0 then Ok(x)
    else
      var ids :- ActivityIds(a);
      var p :- ScheduleOf(x, rooms, ids);
      Ok(p.0.(schedules := p.0.schedules + Repeat(p.1, n)))
  }

  /** `__initialize_variables`: every assessment in order. */
  function Expand(x: Expansion, rooms: Option<RoomsMap>, sa: PyVal, assessments: seq<PyVal>): Result<Expansion> {
    if assessments == [] then Ok(x)
    else
      var y :- Expand(x, rooms, sa, assessments[..|assessments| - 1]);
      AssessmentStep(y, rooms, sa, assessments[|assessments| - 1])
  }

  /** An assessment without clients changes nothing; one with `n` clients adds `n` copies of
      its schedule (none for a negative count), with a slot per activity id. */
  lemma AssessmentClients(x: Expansion, rooms: Option<RoomsMap>, sa: PyVal, a: PyVal, y: Expansion)
    requires AssessmentStep(x, rooms, sa, a) == Ok(y)
    ensures TierCount(sa, a).Ok?
    ensures TierCount(sa, a).value == 0 ==> y == x
    ensures TierCount(sa, a).value != 0 ==>
      var n := TierCount(sa, a).value;
      && ActivityIds(a).Ok? && ScheduleOf(x, rooms, ActivityIds(a).value).Ok?
      && var sched := ScheduleOf(x, rooms, ActivityIds(a).value).value.1;
         && |sched| == |ActivityIds(a).value|
         && |y.schedules| == |x.schedules| + (if n > 0 then n else 0)
         && y.schedules[..|x.schedules|] == x.schedules
         && forall c :: |x.schedules| <= c < |y.schedules| ==> y.schedules[c] == sched
  {
    var n := TierCount(sa, a).value;
    if n != 0 {
      var p := ScheduleOf(x, rooms, ActivityIds(a).value).value;
      assert y.schedules == x.schedules + Repeat(p.1, n);
    }
  }

  /** Every task of a slot has a settled id, and the index lists of the slot's keys hold settled
      ids afterwards: a list id gathers the lists of all its ids. */
  lemma SlotRenames(x: Expansion, rooms: Option<RoomsMap>, aid: PyVal, y: Expansion, tasks: seq<Task>, k: (PyVal, string))
    requires SlotOf(x, rooms, aid) == Ok((y, tasks)) && SlotIds(aid) != []
    ensures x.amap.Some? && y.amap.Some?
    ensures Gather(x.amap.value, SlotIds(aid)).Ok?
    ensures SlotTasks(rooms, Lists(x.amap.value, SlotIds(aid)), x.numFloors) == Ok((tasks, y.numFloors))
    ensures k in Seq2Keys(SlotIds(aid)) ==> RenameAll(GetList(x.amap.value, k)) == Ok(GetList(y.amap.value, k))
    ensures k in Seq2Keys(SlotIds(aid)) ==> forall e :: e in GetList(y.amap.value, k) ==> Settled(e.id)
    ensures k !in Seq2Keys(SlotIds(aid)) ==> GetList(y.amap.value, k) == GetList(x.amap.value, k)
  {
    var aids := SlotIds(aid);
    var g := Gather(x.amap.value, aids).value;
    GatherSpec(x.amap.value, aids, g.0, g.1);
    WriteBackSpec(g.0, aids, y.amap.value, k);
    if k in Seq2Keys(aids) {
      var rs := GetList(y.amap.value, k);
      forall e | e in rs ensures Settled(e.id) {
        var j :| 0 <= j < |rs| && rs[j] == e;
      }
    }
  }
}
