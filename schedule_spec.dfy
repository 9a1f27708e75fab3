/** How the current scheduler (`src/utils/solver.py`) turns its sorted assessments into per-client
    slot lists, client-id ranges and condition tables before any CP-SAT variable exists. */
module ScheduleSpec {
  import opened Wrappers
  import opened PyDict
  import opened PyList
  import opened Sorting
  import opened Text
  import opened SolverModel

  /** The solver's `task_type` namedtuple: one (activity, room) option of a slot. */
  datatype Task = Task(duration: int, id: int, roomId: int, roomFloor: int)

  /** `int(td.total_seconds() // 60)` for a timedelta of `secs` seconds: whole minutes, rounded
      towards minus infinity. */
  function Minutes(secs: int): (m: int)
    ensures 60 * m <= secs < 60 * m + 60
  {
    secs / 60
  }

  /** The assessments setter orders by name. */
  function ByName(a: Assessment): string { a.name }

  function SortedByName(assessments: seq<Assessment>): seq<Assessment> {
    SortBy(assessments, ByName, StrLe)
  }

  /** The setter keeps every assessment and puts them in non-decreasing name order. */
  lemma SortedByNameSpec(assessments: seq<Assessment>)
    ensures multiset(SortedByName(assessments)) == multiset(assessments)
    ensures forall i, j :: 0 <= i <= j < |assessments| ==>
      StrLe(SortedByName(assessments)[i].name, SortedByName(assessments)[j].name)
  {
    StrLePreorder();
    SortBySorted(assessments, ByName, StrLe);
    var r := SortedByName(assessments);
    forall i, j | 0 <= i <= j < |assessments| ensures StrLe(r[i].name, r[j].name) {
      SortedPairwise(r, ByName, StrLe, i, j);
    }
  }

  lemma StrLePreorder()
    ensures TotalPreorder(StrLe)
  {
    forall a, b ensures StrLe(a, b) || StrLe(b, a) { StrLeTotal(a, b); }
    forall a, b, c | StrLe(a, b) && StrLe(b, c) ensures StrLe(a, c) { StrLeTrans(a, b, c); }
  }

  function TaskOf(act: Activity, ar: ActivityRoom): Task {
    Task(ar.duration, act.id, ar.room.id, ar.room.floor)
  }

  /** The options one activity contributes: one per room it can take place in. */
  function RoomTasks(act: Activity): (r: seq<Task>)
    ensures |r| == |act.rooms|
    ensures forall k :: 0 <= k < |r| ==> r[k] == TaskOf(act, act.rooms[k])
  {
    seq(|act.rooms|, k requires 0 <= k < |act.rooms| => TaskOf(act, act.rooms[k]))
  }

  /** The flattened option list of an assessment: activity by activity, room by room. */
  function Options(acts: seq<Activity>): seq<Task> {
    if acts == [] then [] else Options(acts[..|acts| - 1]) + RoomTasks(acts[|acts| - 1])
  }

  /** An option is in the list exactly when it is one of the assessment's (activity, room)
      pairs. */
  lemma OptionsMembers(acts: seq<Activity>, t: Task)
    ensures t in Options(acts) <==>
      exists j, k :: 0 <= j < |acts| && 0 <= k < |acts[j].rooms| && t == TaskOf(acts[j], acts[j].rooms[k])
  {
    if t in Options(acts) {
      var j, k := OptionsSource(acts, t);
    }
    if exists j, k :: 0 <= j < |acts| && 0 <= k < |acts[j].rooms| && t == TaskOf(acts[j], acts[j].rooms[k]) {
      var j, k :| 0 <= j < |acts| && 0 <= k < |acts[j].rooms| && t == TaskOf(acts[j], acts[j].rooms[k]);
      OptionsHas(acts, j, k);
    }
  }

  /** Every option comes from an (activity, room) pair. */
  lemma {:induction false} OptionsSource(acts: seq<Activity>, t: Task) returns (j: int, k: int)
    requires t in Options(acts)
    ensures 0 <= j < |acts| && 0 <= k < |acts[j].rooms| && t == TaskOf(acts[j], acts[j].rooms[k])
  {
    var n := |acts| - 1;
    var front := acts[..n];
    assert Options(acts) == Options(front) + RoomTasks(acts[n]);
    if t in Options(front) {
      j, k := OptionsSource(front, t);
      assert acts[j] == front[j];
    } else {
      var rs := RoomTasks(acts[n]);
      assert t in rs;
      k :| 0 <= k < |rs| && rs[k] == t;
      j := n;
    }
  }

  /** Every (activity, room) pair is an option. */
  lemma {:induction false} OptionsHas(acts: seq<Activity>, j: int, k: int)
    requires 0 <= j < |acts| && 0 <= k < |acts[j].rooms|
    ensures TaskOf(acts[j], acts[j].rooms[k]) in Options(acts)
  {
    var n := |acts| - 1;
    var front := acts[..n];
    assert Options(acts) == Options(front) + RoomTasks(acts[n]);
    if j < n {
      assert front[j] == acts[j];
      OptionsHas(front, j, k);
    } else {
      assert RoomTasks(acts[n])[k] == TaskOf(acts[j], acts[j].rooms[k]);
    }
  }

  /** The slot list of one client of `a`: one slot per activity, each offering every option. */
  function Slots(a: Assessment): seq<seq<Task>> {
    Repeat(Options(a.activities), |a.activities|)
  }

  /** `__schedules`: `Slots(a)` once per client, `a.quantity` clients per assessment. */
  function Schedules(assessments: seq<Assessment>): seq<seq<seq<Task>>> {
    if assessments == [] then []
    else
      var n := |assessments| - 1;
      Schedules(assessments[..n]) + Repeat(Slots(assessments[n]), assessments[n].quantity)
  }

  /** The running `previous_assessment_quantity`: the sum of the quantities so far. */
  function Offset(assessments: seq<Assessment>): int {
    if assessments == [] then 0
    else Offset(assessments[..|assessments| - 1]) + assessments[|assessments| - 1].quantity
  }

  /** `__clients_per_assessment`, starting from `d`: each assessment id is extended with the
      client ids `range(offset, offset + quantity)`. */
  function ClientIds(d: Dict<int, seq<int>>, assessments: seq<Assessment>): Dict<int, seq<int>> {
    if assessments == [] then d
    else
      var n := |assessments| - 1;
      var off := Offset(assessments[..n]);
      Extend(ClientIds(d, assessments[..n]), assessments[n].id, Range(off, off + assessments[n].quantity))
  }

  /** `__conditions_per_room`, starting from `d`: for every (assessment, activity, room) the
      room's conditions are appended again under the room id. */
  function RoomConds(d: Dict<int, seq<Condition>>, assessments: seq<Assessment>): Dict<int, seq<Condition>> {
    if assessments == [] then d
    else RoomCondsOf(RoomConds(d, assessments[..|assessments| - 1]), assessments[|assessments| - 1].activities)
  }

  function RoomCondsOf(d: Dict<int, seq<Condition>>, acts: seq<Activity>): Dict<int, seq<Condition>> {
    if acts == [] then d
    else RoomCondsIn(RoomCondsOf(d, acts[..|acts| - 1]), acts[|acts| - 1].rooms)
  }

  function RoomCondsIn(d: Dict<int, seq<Condition>>, ars: seq<ActivityRoom>): Dict<int, seq<Condition>> {
    if ars == [] then d
    else
      var ar := ars[|ars| - 1];
      AppendEach(RoomCondsIn(d, ars[..|ars| - 1]), ar.room.id, ar.room.conditions)
  }

  /** `__conditions_per_assessment`, starting from `d`: every activity's conditions under its
      assessment's id. */
  function AssessmentConds(d: Dict<int, seq<Condition>>, assessments: seq<Assessment>): Dict<int, seq<Condition>> {
    if assessments == [] then d
    else
      var a := assessments[|assessments| - 1];
      ActivityConds(AssessmentConds(d, assessments[..|assessments| - 1]), a.id, a.activities)
  }

  function ActivityConds(d: Dict<int, seq<Condition>>, id: int, acts: seq<Activity>): Dict<int, seq<Condition>> {
    if acts == [] then d
    else AppendEach(ActivityConds(d, id, acts[..|acts| - 1]), id, acts[|acts| - 1].conditions)
  }

  /** Assessment `k` after assessments `0 .. k - 1`, for each of the indexes it fills. */
  lemma AssessmentsStep(xs: seq<Assessment>, k: nat, c0: Dict<int, seq<int>>, r0: Dict<int, seq<Condition>>, a0: Dict<int, seq<Condition>>)
    requires k < |xs|
    ensures Schedules(xs[..k + 1]) == Schedules(xs[..k]) + Repeat(Slots(xs[k]), xs[k].quantity)
    ensures Offset(xs[..k + 1]) == Offset(xs[..k]) + xs[k].quantity
    ensures ClientIds(c0, xs[..k + 1]) == Extend(ClientIds(c0, xs[..k]), xs[k].id, Range(Offset(xs[..k]), Offset(xs[..k]) + xs[k].quantity))
    ensures RoomConds(r0, xs[..k + 1]) == RoomCondsOf(RoomConds(r0, xs[..k]), xs[k].activities)
    ensures AssessmentConds(a0, xs[..k + 1]) == ActivityConds(AssessmentConds(a0, xs[..k]), xs[k].id, xs[k].activities)
  {
    assert xs[..k + 1][..k] == xs[..k];
  }

  /** `__get_assessment_by_client_id` for each of the clients `0 .. n - 1`. */
  function Owners(assessments: seq<Assessment>, clients: Dict<int, seq<int>>, n: nat): (r: seq<Option<Assessment>>)
    ensures |r| == n && forall c :: 0 <= c < n ==> r[c] == FirstOwner(assessments, clients, c)
  {
    seq(n, c => FirstOwner(assessments, clients, c))
  }

  /** Indexes holding assessments `0 .. k - 1`, extended by assessment `k`, hold assessments
      `0 .. k`. */
  lemma AssessmentsExtend(xs: seq<Assessment>, k: nat, s0: seq<seq<seq<Task>>>, c0: Dict<int, seq<int>>, r0: Dict<int, seq<Condition>>, a0: Dict<int, seq<Condition>>,
                          s: seq<seq<seq<Task>>>, c: Dict<int, seq<int>>, r: Dict<int, seq<Condition>>, a: Dict<int, seq<Condition>>,
                          off: int, opts: seq<Task>, s': seq<seq<seq<Task>>>, c': Dict<int, seq<int>>, r': Dict<int, seq<Condition>>, a': Dict<int, seq<Condition>>)
    requires k < |xs| && off == Offset(xs[..k])
    requires s == s0 + Schedules(xs[..k]) && c == ClientIds(c0, xs[..k])
    requires r == RoomConds(r0, xs[..k]) && a == AssessmentConds(a0, xs[..k])
    requires opts == Options(xs[k].activities)
    requires r' == RoomCondsOf(r, xs[k].activities) && a' == ActivityConds(a, xs[k].id, xs[k].activities)
    requires s' == s + Repeat(Repeat(opts, |xs[k].activities|), xs[k].quantity)
    requires c' == Extend(c, xs[k].id, Range(off, off + xs[k].quantity))
    ensures off + xs[k].quantity == Offset(xs[..k + 1])
    ensures s' == s0 + Schedules(xs[..k + 1]) && c' == ClientIds(c0, xs[..k + 1])
    ensures r' == RoomConds(r0, xs[..k + 1]) && a' == AssessmentConds(a0, xs[..k + 1])
  {
    AssessmentsStep(xs, k, c0, r0, a0);
    AppendAssoc(s0, Schedules(xs[..k]), Repeat(Slots(xs[k]), xs[k].quantity));
  }

  /** `__get_assessment_by_client_id`: the first assessment whose id lists the client. */
  function FirstOwner(assessments: seq<Assessment>, clients: Dict<int, seq<int>>, c: int): (r: Option<Assessment>)
    ensures r.Some? ==> r.value in assessments && c in GetList(clients, r.value.id)
    ensures r.None? <==> forall a :: a in assessments ==> c !in GetList(clients, a.id)
  {
    if assessments == [] then None
    else if c in GetList(clients, assessments[0].id) then Some(assessments[0])
    else
      assert forall a :: a in assessments ==> a == assessments[0] || a in assessments[1..];
      FirstOwner(assessments[1..], clients, c)
  }

  predicate IdsDistinct(assessments: seq<Assessment>) {
    forall i, j :: 0 <= i < j < |assessments| ==> assessments[i].id != assessments[j].id
  }

  predicate QuantitiesNonNegative(assessments: seq<Assessment>) {
    forall i :: 0 <= i < |assessments| ==> assessments[i].quantity >= 0
  }

  /** With no quantity negative, the number of clients is the sum of the quantities and client
      `c` of the `k`-th assessment's range gets that assessment's slot list. */
  lemma {:induction false} SchedulesAt(assessments: seq<Assessment>, k: int, c: int)
    requires QuantitiesNonNegative(assessments)
    requires 0 <= k < |assessments|
    requires Offset(assessments[..k]) <= c < Offset(assessments[..k + 1])
    ensures |Schedules(assessments)| == Offset(assessments)
    ensures 0 <= c < |Schedules(assessments)| && Schedules(assessments)[c] == Slots(assessments[k])
  {
    var n := |assessments| - 1;
    var front := assessments[..n];
    assert assessments[..n + 1] == assessments;
    SchedulesLength(front);
    if k < n {
      assert front[..k] == assessments[..k] && front[..k + 1] == assessments[..k + 1];
      SchedulesAt(front, k, c);
    } else {
      assert assessments[..k] == front;
    }
  }

  lemma {:induction false} SchedulesLength(assessments: seq<Assessment>)
    requires QuantitiesNonNegative(assessments)
    ensures |Schedules(assessments)| == Offset(assessments)
  {
    if assessments != [] {
      SchedulesLength(assessments[..|assessments| - 1]);
    }
  }

  /** With distinct ids, an assessment's entry is exactly its client range. */
  lemma {:induction false} ClientIdsOf(assessments: seq<Assessment>, k: int)
    requires IdsDistinct(assessments)
    requires 0 <= k < |assessments|
    ensures GetList(ClientIds([], assessments), assessments[k].id)
      == Range(Offset(assessments[..k]), Offset(assessments[..k + 1]))
  {
    var n := |assessments| - 1;
    var front := assessments[..n];
    var off := Offset(front);
    var a := assessments[n];
    var d := ClientIds([], front);
    var r := Range(off, off + a.quantity);
    assert ClientIds([], assessments) == Extend(d, a.id, r);
    AppendExtendLookup(d, a.id, r, assessments[k].id);
    if k < n {
      assert front[..k] == assessments[..k] && front[..k + 1] == assessments[..k + 1];
      assert IdsDistinct(front);
      ClientIdsOf(front, k);
    } else {
      assert assessments[..k] == front;
      assert assessments[..k + 1] == assessments;
      assert Offset(assessments) == off + a.quantity;
      ClientIdsMissing(front, a.id);
    }
  }

  lemma {:induction false} ClientIdsMissing(assessments: seq<Assessment>, id: int)
    requires forall j :: 0 <= j < |assessments| ==> assessments[j].id != id
    ensures GetList(ClientIds([], assessments), id) == []
  {
    if assessments != [] {
      var n := |assessments| - 1;
      var front := assessments[..n];
      var off := Offset(front);
      var r := Range(off, off + assessments[n].quantity);
      var d := ClientIds([], front);
      assert ClientIds([], assessments) == Extend(d, assessments[n].id, r);
      assert forall j :: 0 <= j < |front| ==> front[j].id != id;
      ClientIdsMissing(front, id);
      assert assessments[n].id != id;
      AppendExtendLookup(d, assessments[n].id, r, id);
      assert GetList(Extend(d, assessments[n].id, r), id) == GetList(d, id);
    }
  }

  lemma AppendExtendLookup<K, V>(d: Dict<K, seq<V>>, k: K, vs: seq<V>, k': K)
    ensures GetList(Extend(d, k, vs), k') == if k' == k then GetList(d, k) + vs else GetList(d, k')
  {
    ExtendIsPut(d, k, vs);
    if k' == k { GetPutSame(d, k, GetList(d, k) + vs); } else { GetPutOther(d, k, GetList(d, k) + vs, k'); }
  }

  lemma {:induction false} OffsetMonotone(assessments: seq<Assessment>, i: int, j: int)
    requires QuantitiesNonNegative(assessments)
    requires 0 <= i <= j <= |assessments|
    ensures Offset(assessments[..i]) <= Offset(assessments[..j])
    decreases j - i
  {
    if i < j {
      var p := assessments[..j];
      assert p[..j - 1] == assessments[..j - 1];
      OffsetMonotone(assessments, i, j - 1);
    }
  }

  /** The client-to-assessment lookup finds, for every client id in the `k`-th range, the
      `k`-th assessment, whose slot list that client was given. */
  lemma OwnerOfClient(assessments: seq<Assessment>, k: int, c: int)
    requires IdsDistinct(assessments) && QuantitiesNonNegative(assessments)
    requires 0 <= k < |assessments|
    requires Offset(assessments[..k]) <= c < Offset(assessments[..k + 1])
    ensures FirstOwner(assessments, ClientIds([], assessments), c) == Some(assessments[k])
    ensures 0 <= c < |Schedules(assessments)| && Schedules(assessments)[c] == Slots(assessments[k])
  {
    SchedulesAt(assessments, k, c);
    OwnerLookup(assessments, k, c);
  }

  lemma OwnerLookup(assessments: seq<Assessment>, k: int, c: int)
    requires IdsDistinct(assessments) && QuantitiesNonNegative(assessments)
    requires 0 <= k < |assessments|
    requires Offset(assessments[..k]) <= c < Offset(assessments[..k + 1])
    ensures FirstOwner(assessments, ClientIds([], assessments), c) == Some(assessments[k])
  {
    var d := ClientIds([], assessments);
    forall j | 0 <= j < |assessments|
      ensures c in GetList(d, assessments[j].id) <==> j == k
    {
      OnlyOwnRange(assessments, k, c, j);
    }
    FirstOwnerAt(assessments, d, c, k, 0);
    assert assessments[0..] == assessments;
  }

  lemma OnlyOwnRange(assessments: seq<Assessment>, k: int, c: int, j: int)
    requires IdsDistinct(assessments) && QuantitiesNonNegative(assessments)
    requires 0 <= k < |assessments| && 0 <= j < |assessments|
    requires Offset(assessments[..k]) <= c < Offset(assessments[..k + 1])
    ensures c in GetList(ClientIds([], assessments), assessments[j].id) <==> j == k
  {
    ClientIdsOf(assessments, j);
    RangeMembers(Offset(assessments[..j]), Offset(assessments[..j + 1]), c);
    if j < k { OffsetMonotone(assessments, j + 1, k); }
    if j > k { OffsetMonotone(assessments, k + 1, j); }
  }

  lemma {:induction false} FirstOwnerAt(assessments: seq<Assessment>, d: Dict<int, seq<int>>, c: int, k: int, from: int)
    requires 0 <= from <= k < |assessments|
    requires forall j :: 0 <= j < |assessments| ==> (c in GetList(d, assessments[j].id) <==> j == k)
    ensures FirstOwner(assessments[from..], d, c) == Some(assessments[k])
    decreases k - from
  {
    var rest := assessments[from..];
    assert rest[0] == assessments[from];
    if from < k {
      assert rest[1..] == assessments[from + 1..];
      FirstOwnerAt(assessments, d, c, k, from + 1);
    }
  }
}
