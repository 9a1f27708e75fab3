/** The room conditions of the current scheduler (`src/utils/solver.py`): their dispatch and the
    capacity, unique-room and same-room helpers. */
module RoomSpec {
  import opened Wrappers
  import opened PyDict
  import opened CpModel
  import opened Kwargs
  import opened SolverModel
  import opened VariableSpec
  import opened ConditionSpec

  /** `len(set(len(a.activities) for a in assessments)) == 1`. */
  predicate SameActivityCount(assessments: seq<Assessment>) {
    |assessments| > 0 && forall i :: 0 <= i < |assessments| ==> |assessments[i].activities| == |assessments[0].activities|
  }

  /** `defaultdict[(a, i, b)]` with `a` and `b` taken from `args`. */
  function Lookup3<K(==)>(d: Dict<K, seq<Var>>, a: Value, b: Value, key: (int, int) -> K): (r: Result<seq<Var>>)
    ensures r.Err? <==> a.ListV? || b.ListV?
    ensures r.Ok? && AsInt(a).Some? && AsInt(b).Some? ==> r.value == GetList(d, key(AsInt(a).value, AsInt(b).value))
    ensures r.Ok? && (AsInt(a).None? || AsInt(b).None?) ==> r.value == []
  {
    var x :- HashKey(a);
    var y :- HashKey(b);
    if x.Some? && y.Some? then Ok(GetList(d, key(x.value, y.value))) else Ok([])
  }

  /** At every slot position of the first client, the room literals of `aid` in `room`:
      `__activity_room_bool_vars[(room_id, activity_index, activity_id)]`. */
  function SlotRoomLits(x: Ctx, room: Value, aid: Value, i: int): Result<seq<Var>> {
    Lookup3(x.maps.roomLits, room, aid, (r, a) => (r, i, a))
  }

  /** At most `capacity` of the room literals at each slot of the first schedule are set. */
  function MaximumCapacity(x: Ctx, assessments: seq<Assessment>, room: Value, aid: Value, capacity: Value, generate: Value): (r: Result<seq<Constraint>>)
    ensures !Truthy(generate) ==> r == Ok([])
    ensures Truthy(generate) && !SameActivityCount(assessments) ==> r.Err? && r.error.AssertionError?
    ensures r.Err? ==> r.error == TypeError || r.error.AssertionError?
  {
    if !Truthy(generate) then Ok([])
    else if !SameActivityCount(assessments) then Err(AssertionError("Inequal number of activities per assessment"))
    else if x.shape == [] || x.shape[0] <= 0 then Ok([])
    else
      var _ :- SlotRoomLits(x, room, aid, 0);
      if AsInt(capacity).None? then Err(TypeError)
      else
        var cap := AsInt(capacity).value;
        Ok(seq(x.shape[0], i => Linear(SumOf(SlotRoomLits(x, room, aid, i).value), LE, K(cap), [])))
  }

  /** At most one of the room literals at each slot of the first schedule is set. */
  function UniqueRoom(x: Ctx, assessments: seq<Assessment>, room: Value, aid: Value, generate: Value): (r: Result<seq<Constraint>>)
    ensures !Truthy(generate) ==> r == Ok([])
    ensures Truthy(generate) && !SameActivityCount(assessments) ==> r.Err? && r.error.AssertionError?
    ensures r.Err? ==> r.error == TypeError || r.error.AssertionError?
  {
    if !Truthy(generate) then Ok([])
    else if !SameActivityCount(assessments) then Err(AssertionError("Inequal number of activities per assessment"))
    else if x.shape == [] || x.shape[0] <= 0 then Ok([])
    else
      var _ :- SlotRoomLits(x, room, aid, 0);
      Ok(seq(x.shape[0], i => AtMostOne(SlotRoomLits(x, room, aid, i).value)))
  }

  /** `__client_activity_rooms[(client_id, activity_id, room_id)]`. */
  function ClientRoomLits(x: Ctx, c: int, aid: Value, room: Value): Result<seq<Var>> {
    Lookup3(x.maps.clientRooms, aid, room, (a, r) => (c, a, r))
  }

  /** For every client, the room literals of both activities in `room` sum to 0 or 2: both
      activities are held in the room or neither is. */
  function SameRoom(x: Ctx, assessments: seq<Assessment>, room: Value, aid: Value, oid: Value, generate: Value): (r: Result<seq<Constraint>>)
    ensures !Truthy(generate) ==> r == Ok([])
    ensures Truthy(generate) && !SameActivityCount(assessments) ==> r.Err? && r.error.AssertionError?
    ensures r.Err? ==> r.error == TypeError || r.error.AssertionError?
  {
    if !Truthy(generate) then Ok([])
    else if !SameActivityCount(assessments) then Err(AssertionError("Inequal number of activities per assessment"))
    else if |x.shape| == 0 then Ok([])
    else
      var _ :- ClientRoomLits(x, 0, aid, room);
      var _ :- ClientRoomLits(x, 0, oid, room);
      Ok(SameRoomFrom(x, room, aid, oid, |x.shape|))
  }

  function SameRoomFrom(x: Ctx, room: Value, aid: Value, oid: Value, n: nat): seq<Constraint>
    requires !aid.ListV? && !oid.ListV? && !room.ListV?
  {
    if n == 0 then []
    else
      var both := SumOf(ClientRoomLits(x, n - 1, aid, room).value + ClientRoomLits(x, n - 1, oid, room).value);
      SameRoomFrom(x, room, aid, oid, n - 1) + [Linear(both, NE, K(1), []), Linear(both, LE, K(2), [])]
  }

  /** The option/type pairs the room dispatch accepts. */
  predicate RoomAccepted(option: Tag, optionType: Tag) {
    || (option == ValueOf("MAXIMUM") && optionType == ValueOf("CLIENT"))
    || (option in {ValueOf("UNIQUE"), ValueOf("SAME")} && optionType == ValueOf("ACTIVITY"))
  }

  const RoomTaken: seq<string> := ["self"]

  /** One condition of a room, as `__apply_room_constraints` handles it. */
  function RoomCondition(x: Ctx, assessments: seq<Assessment>, cond: Condition): (r: Result<seq<Constraint>>)
    ensures Refused(r) <==> !(cond.scope == ValueOf("ROOM") && RoomAccepted(cond.option, cond.optionType))
  {
    var o, t, args := cond.option, cond.optionType, cond.args;
    var room, aid, gen := Required("room_id"), Required("activity_id"), Required("generate");
    if cond.scope != ValueOf("ROOM") then Err(ValueError("Invalid condition scope for room constraint"))
    else if o == ValueOf("MAXIMUM") then
      if t == ValueOf("CLIENT") then
        var v :- Bind(RoomTaken, [room, aid, Required("capacity"), gen], args);
        MaximumCapacity(x, assessments, v[0], v[1], v[2], v[3])
      else Err(ValueError("Invalid condition option type for maximum room constraint"))
    else if o == ValueOf("UNIQUE") then
      if t == ValueOf("ACTIVITY") then
        var v :- Bind(RoomTaken, [room, aid, gen], args);
        UniqueRoom(x, assessments, v[0], v[1], v[2])
      else Err(ValueError("Invalid condition option type for unique room constraint"))
    else if o == ValueOf("SAME") then
      if t == ValueOf("ACTIVITY") then
        var v :- Bind(RoomTaken, [room, aid, Required("other_activity_id"), gen], args);
        SameRoom(x, assessments, v[0], v[1], v[2], v[3])
      else Err(ValueError("Invalid condition option type for same room constraint"))
    else Err(ValueError("Invalid condition option"))
  }

  // What the same-room constraint means.

  lemma {:induction false} SameRoomFromHas(x: Ctx, room: Value, aid: Value, oid: Value, n: nat, c: int)
    requires !aid.ListV? && !oid.ListV? && !room.ListV? && 0 <= c < n
    ensures var both := SumOf(ClientRoomLits(x, c, aid, room).value + ClientRoomLits(x, c, oid, room).value);
      Linear(both, NE, K(1), []) in SameRoomFrom(x, room, aid, oid, n) &&
      Linear(both, LE, K(2), []) in SameRoomFrom(x, room, aid, oid, n)
  {
    if c < n - 1 { SameRoomFromHas(x, room, aid, oid, n - 1, c); }
  }

  /** When each activity has one 0/1 literal for the room, a solution of the same-room
      constraint sets both literals or neither, for every client. */
  lemma SameRoomMeaning(x: Ctx, room: Value, aid: Value, oid: Value, c: int, a: Assignment)
    requires !aid.ListV? && !oid.ListV? && !room.ListV? && 0 <= c < |x.shape|
    requires forall y :: y in SameRoomFrom(x, room, aid, oid, |x.shape|) ==> Holds(y, a)
    requires |ClientRoomLits(x, c, aid, room).value| == 1 && |ClientRoomLits(x, c, oid, room).value| == 1
    requires var l, o := ClientRoomLits(x, c, aid, room).value[0], ClientRoomLits(x, c, oid, room).value[0];
      0 <= a(l) <= 1 && 0 <= a(o) <= 1
    ensures a(ClientRoomLits(x, c, aid, room).value[0]) == a(ClientRoomLits(x, c, oid, room).value[0])
  {
    var l, o := ClientRoomLits(x, c, aid, room).value[0], ClientRoomLits(x, c, oid, room).value[0];
    var ls := ClientRoomLits(x, c, aid, room).value + ClientRoomLits(x, c, oid, room).value;
    assert ls == [l, o];
    SameRoomFromHas(x, room, aid, oid, |x.shape|, c);
    PairSum(l, o, a);
    assert Holds(Linear(SumOf([l, o]), NE, K(1), []), a);
  }

  lemma PairSum(l: Var, o: Var, a: Assignment)
    ensures Eval(SumOf([l, o]), a) == a(l) + a(o)
  {
    var ts := [Term(1, l), Term(1, o)];
    assert SumOf([l, o]).terms == ts && SumOf([l, o]).offset == 0;
    assert ts[1..] == [Term(1, o)] && ts[1..][1..] == [];
    assert EvalTerms(ts[1..][1..], a) == 0;
    assert EvalTerms(ts[1..], a) == a(o);
    assert EvalTerms(ts, a) == a(l) + a(o);
  }
}
