/** The activity and room conditions of the current scheduler (`src/utils/solver.py`): how a
    condition is dispatched to its helper, how the helper's keyword arguments bind, and what each
    helper emits.  Each helper's nested `for … in …: if generate: Add(…)` loops are written as the
    list of constraints they add. */
module ConditionSpec {
  import opened Wrappers
  import opened PyDict
  import opened CpModel
  import opened Kwargs
  import opened SolverModel
  import opened ScheduleSpec
  import opened VariableSpec

  /** What the helpers read: the indexes, the number of slots of every client (the keys of the
      per-slot dicts), the day start in seconds and the maximum gap in minutes. */
  datatype Ctx = Ctx(maps: VarMaps, shape: seq<int>, timeStart: int, maxGap: int)

  // Python semantics of the values in `args`.

  /** Using `v` inside a dict key: a list is unhashable (TypeError); a key holding anything that
      is not int-like finds nothing in a dict keyed by ints. */
  function HashKey(v: Value): (r: Result<Option<int>>)
    ensures r.Err? <==> v.ListV?
    ensures r.Ok? ==> r.value == AsInt(v)
  {
    if v.ListV? then Err(TypeError) else Ok(AsInt(v))
  }

  /** `defaultdict[(client_id, v)]` on a dict of variable lists. */
  function Lookup(d: Dict<(int, int), seq<Var>>, c: int, v: Value): (r: Result<seq<Var>>)
    ensures r.Err? <==> v.ListV?
    ensures r.Ok? && AsInt(v).Some? ==> r.value == GetList(d, (c, AsInt(v).value))
    ensures r.Ok? && AsInt(v).None? ==> r.value == []
  {
    var k :- HashKey(v);
    match k
    case Some(n) => Ok(GetList(d, (c, n)))
    case None => Ok([])
  }

  /** `v == n` for an int `n`. */
  predicate EqInt(v: Value, n: int) { AsInt(v) == Some(n) }

  /** `int((t - time_start).total_seconds() // 60)`: TypeError unless `t` is a timedelta. */
  function RelMinutes(t: Value, timeStart: int): (r: Result<int>)
    ensures r.Ok? <==> t.TimeV?
    ensures r.Ok? ==> r.value == Minutes(t.secs - timeStart)
  {
    if t.TimeV? then Ok(Minutes(t.secs - timeStart)) else Err(TypeError)
  }

  /** `int(t.total_seconds() // 60)`: AttributeError unless `t` is a timedelta. */
  function SpanMinutes(t: Value): (r: Result<int>)
    ensures r.Ok? <==> t.TimeV?
    ensures r.Ok? ==> r.value == Minutes(t.secs)
  {
    if t.TimeV? then Ok(Minutes(t.secs)) else Err(AttributeError)
  }

  // Emission shapes.

  /** `for x in xs: <f(x)>`, concatenated. */
  function Each(xs: seq<Var>, f: Var -> seq<Constraint>): seq<Constraint> {
    if xs == [] then [] else Each(xs[..|xs| - 1], f) + f(xs[|xs| - 1])
  }

  /** `for x in outer: for y in inner: <mk(x, y)>`. */
  function Pairs(outer: seq<Var>, inner: seq<Var>, mk: (Var, Var) -> Constraint): seq<Constraint> {
    Each(outer, x => Each(inner, y => [mk(x, y)]))
  }

  /** Every constraint `Each` emits comes from one element, and every element's constraints are
      emitted. */
  lemma {:induction false} EachMembers(xs: seq<Var>, f: Var -> seq<Constraint>, y: Constraint)
    ensures y in Each(xs, f) <==> exists x :: x in xs && y in f(x)
  {
    if xs != [] {
      var init := xs[..|xs| - 1];
      EachMembers(init, f, y);
      assert xs == init + [xs[|xs| - 1]];
      if y in Each(xs, f) {
        if y in Each(init, f) {
          var x :| x in init && y in f(x);
          assert x in xs;
        } else {
          assert y in f(xs[|xs| - 1]);
        }
      } else {
        forall x | x in xs ensures y !in f(x) {
          if x in init { } else { assert x == xs[|xs| - 1]; }
        }
      }
    }
  }

  /** What `if generate:` leaves of the constraints. */
  function Gated(generate: Value, cs: seq<Constraint>): (r: seq<Constraint>)
    ensures r == if Truthy(generate) then cs else []
  {
    if Truthy(generate) then cs else []
  }

  // Activity helpers.  `c` is the client; the other arguments are the bound keyword arguments.

  /** Every end of `aid` is no later than every start of `oid`. */
  function BeforeActivity(x: Ctx, c: int, aid: Value, oid: Value, generate: Value): (r: Result<seq<Constraint>>)
    ensures r.Err? ==> r.error == TypeError
  {
    var starts :- Lookup(x.maps.starts, c, oid);
    if starts == [] then Ok([])
    else
      var ends :- Lookup(x.maps.ends, c, aid);
      Ok(Gated(generate, Pairs(starts, ends, (s, e) => Rule(V(e), LE, V(s)))))
  }

  /** Every end of `aid` is no later than `timeBefore`, in minutes from the day start. */
  function BeforeTime(x: Ctx, c: int, aid: Value, timeBefore: Value, generate: Value): (r: Result<seq<Constraint>>)
    ensures r.Err? ==> r.error == TypeError
  {
    var t :- RelMinutes(timeBefore, x.timeStart);
    var ends :- Lookup(x.maps.ends, c, aid);
    Ok(Gated(generate, Each(ends, e => [Rule(V(e), LE, K(t))])))
  }

  /** Every start of `aid` is no earlier than every end of `oid`. */
  function AfterActivity(x: Ctx, c: int, aid: Value, oid: Value, generate: Value): (r: Result<seq<Constraint>>)
    ensures r.Err? ==> r.error == TypeError
  {
    var starts :- Lookup(x.maps.starts, c, aid);
    if starts == [] then Ok([])
    else
      var ends :- Lookup(x.maps.ends, c, oid);
      Ok(Gated(generate, Pairs(starts, ends, (s, e) => Rule(V(s), GE, V(e)))))
  }

  function AfterTime(x: Ctx, c: int, aid: Value, timeAfter: Value, generate: Value): (r: Result<seq<Constraint>>)
    ensures r.Err? ==> r.error == TypeError
  {
    var t :- RelMinutes(timeAfter, x.timeStart);
    var starts :- Lookup(x.maps.starts, c, aid);
    Ok(Gated(generate, Each(starts, s => [Rule(V(s), GE, K(t))])))
  }

  /** `aid` starts after `oid` ends, within the maximum gap. */
  function RightAfter(x: Ctx, c: int, aid: Value, oid: Value, generate: Value): (r: Result<seq<Constraint>>)
    ensures r.Err? ==> r.error == TypeError
  {
    var starts :- Lookup(x.maps.starts, c, aid);
    if starts == [] then Ok([])
    else
      var ends :- Lookup(x.maps.ends, c, oid);
      Ok(Gated(generate, Each(starts, s => Each(ends, e => [Rule(V(s), GE, V(e)), Rule(Diff(s, e), LE, K(x.maxGap))]))))
  }

  /** `aid` ends before `oid` starts, within the maximum gap. */
  function RightBefore(x: Ctx, c: int, aid: Value, oid: Value, generate: Value): (r: Result<seq<Constraint>>)
    ensures r.Err? ==> r.error == TypeError
  {
    var ends :- Lookup(x.maps.ends, c, aid);
    if ends == [] then Ok([])
    else
      var starts :- Lookup(x.maps.starts, c, oid);
      Ok(Gated(generate, Each(ends, e => Each(starts, s => [Rule(V(e), LE, V(s)), Rule(Diff(s, e), LE, K(x.maxGap))]))))
  }

  function BetweenActivities(x: Ctx, c: int, aid: Value, before: Value, after: Value, generate: Value): (r: Result<seq<Constraint>>)
    ensures r.Err? ==> r.error == TypeError
  {
    var first :- AfterActivity(x, c, aid, before, generate);
    var second :- BeforeActivity(x, c, aid, after, generate);
    Ok(first + second)
  }

  function BetweenTimes(x: Ctx, c: int, aid: Value, timeBefore: Value, timeAfter: Value, generate: Value): (r: Result<seq<Constraint>>)
    ensures r.Err? ==> r.error == TypeError
  {
    var lo :- RelMinutes(timeBefore, x.timeStart);
    var hi :- RelMinutes(timeAfter, x.timeStart);
    var starts :- Lookup(x.maps.starts, c, aid);
    var ends := Lookup(x.maps.ends, c, aid).value;
    Ok(Gated(generate, Each(starts, s => [Rule(V(s), GE, K(lo))]) + Each(ends, e => [Rule(V(e), LE, K(hi))])))
  }

  /** `__activity_index_*_vars[(client_id, v)]`: a plain dict whose keys are the slot positions
      of the known clients; a KeyError for any other key. */
  function SlotIndex(x: Ctx, c: int, v: Value): (r: Result<int>)
    ensures r.Ok? <==> AsInt(v).Some? && 0 <= c < |x.shape| && 0 <= AsInt(v).value < x.shape[c]
    ensures r.Ok? ==> r.value == AsInt(v).value
    ensures r.Err? ==> r.error == (if v.ListV? then TypeError else KeyError)
  {
    var k :- HashKey(v);
    if k.Some? && 0 <= c < |x.shape| && 0 <= k.value < x.shape[c] then Ok(k.value) else Err(KeyError)
  }

  /** Every start of `aid` is no earlier than the end of slot `before`, and every end no later
      than the start of slot `after`.  The slot lookups happen only when a constraint is added. */
  function BetweenOrders(x: Ctx, c: int, aid: Value, before: Value, after: Value, generate: Value): (r: Result<seq<Constraint>>)
    ensures r.Err? ==> r.error in {TypeError, KeyError}
  {
    var starts :- Lookup(x.maps.starts, c, aid);
    var first :-
      if starts == [] || !Truthy(generate) then Ok([])
      else var i :- SlotIndex(x, c, before); Ok(Each(starts, s => [Rule(V(s), GE, V(End(c, i)))]));
    var ends := Lookup(x.maps.ends, c, aid).value;
    var second :-
      if ends == [] || !Truthy(generate) then Ok([])
      else var j :- SlotIndex(x, c, after); Ok(Each(ends, e => [Rule(V(e), LE, V(Start(c, j)))]));
    Ok(first + second)
  }

  /** Every start of `aid` follows every end of `oid`, and is at most `timeAfter` after every
      start of `oid`. */
  function WithinAfter(x: Ctx, c: int, aid: Value, oid: Value, timeAfter: Value, generate: Value): (r: Result<seq<Constraint>>)
    ensures r.Err? ==> r.error in {TypeError, AttributeError}
  {
    var t :- SpanMinutes(timeAfter);
    var starts :- Lookup(x.maps.starts, c, aid);
    if starts == [] then Ok([])
    else
      var ends :- Lookup(x.maps.ends, c, oid);
      var others := Lookup(x.maps.starts, c, oid).value;
      Ok(Gated(generate, Each(starts, s =>
        Each(ends, e => [Rule(V(s), GE, V(e))]) + Each(others, o => [Rule(V(s), LE, Plus(o, t))]))))
  }

  /** Every end of `aid` precedes every start of `oid`, and is at least `timeBefore` before
      every start of `oid` (the "other end" the source reads is the other activity's start). */
  function WithinBefore(x: Ctx, c: int, aid: Value, oid: Value, timeBefore: Value, generate: Value): (r: Result<seq<Constraint>>)
    ensures r.Err? ==> r.error in {TypeError, AttributeError}
  {
    var t :- SpanMinutes(timeBefore);
    var ends :- Lookup(x.maps.ends, c, aid);
    if ends == [] then Ok([])
    else
      var starts :- Lookup(x.maps.starts, c, oid);
      Ok(Gated(generate, Each(ends, e =>
        Each(starts, s => [Rule(V(e), LE, V(s))]) + Each(starts, o => [Rule(V(e), GE, Plus(o, -t))]))))
  }

  /** Entry `j` of the dict has this client, another activity than `aid`, and slot `order`. */
  predicate OrderKeyAt(d: Dict<(int, int, int, int), Var>, j: int, c: int, aid: Value, order: Value) {
    0 <= j < |d| && d[j].0.0 == c && !EqInt(aid, d[j].0.1) && EqInt(order, d[j].0.2)
  }

  /** The literals `v` of `__activity_index_room_bool_vars` whose key `(client, activity, slot,
      room)` has this client, another activity than `aid`, and slot `order`, in dict order. */
  function OrderLits(d: Dict<(int, int, int, int), Var>, c: int, aid: Value, order: Value): (r: seq<Var>)
    ensures forall v :: v in r <==> exists j :: OrderKeyAt(d, j, c, aid, order) && d[j].1 == v
  {
    if d == [] then []
    else
      var rest := OrderLits(d[1..], c, aid, order);
      var k := d[0].0;
      var r := if k.0 == c && !EqInt(aid, k.1) && EqInt(order, k.2) then [d[0].1] + rest else rest;
      assert forall j :: 0 < j < |d| ==> d[j] == d[1..][j - 1];
      r
  }

  /** `IN_FIXED_ORDER_AS`: every other activity's room literal at slot `order` is 0. */
  function FixedOrder(x: Ctx, c: int, aid: Value, order: Value, generate: Value): seq<Constraint> {
    Gated(generate, Each(OrderLits(x.maps.slotRooms, c, aid, order), PinZero))
  }

  /** `Add(literal == 0)` */
  function PinZero(l: Var): seq<Constraint> { [Rule(V(l), EQ, K(0))] }

  /** BEFORE an order: the fixed order one earlier (`order - 1`, a TypeError unless int-like). */
  function BeforeOrder(x: Ctx, c: int, aid: Value, order: Value, generate: Value): (r: Result<seq<Constraint>>)
    ensures r.Ok? <==> AsInt(order).Some?
    ensures r.Err? ==> r.error == TypeError
  {
    var o :- AddInt(order, -1);
    Ok(FixedOrder(x, c, aid, IntV(o), generate))
  }

  /** AFTER an order: the fixed order one later. */
  function AfterOrder(x: Ctx, c: int, aid: Value, order: Value, generate: Value): (r: Result<seq<Constraint>>)
    ensures r.Ok? <==> AsInt(order).Some?
    ensures r.Err? ==> r.error == TypeError
  {
    var o :- AddInt(order, 1);
    Ok(FixedOrder(x, c, aid, IntV(o), generate))
  }

  // Dispatch.

  /** `client_id` is passed positionally, so `args` may not name it. */
  const ActivityTaken: seq<string> := ["self", "client_id"]
  const Gen := Defaulted("generate", BoolV(true))
  const GenRequired := Required("generate")

  /** The option/type pairs the activity dispatch accepts. */
  predicate ActivityAccepted(option: Tag, optionType: Tag) {
    || (option in {ValueOf("BEFORE"), ValueOf("AFTER"), ValueOf("BETWEEN")} &&
        optionType in {ValueOf("ACTIVITY"), ValueOf("TIME"), ValueOf("ORDER")})
    || (option in {ValueOf("RIGHT_AFTER"), ValueOf("RIGHT_BEFORE"), ValueOf("WITHIN_AFTER"), ValueOf("WITHIN_BEFORE")} &&
        optionType == ValueOf("ACTIVITY"))
    || (option == ValueOf("IN_FIXED_ORDER_AS") && optionType == ValueOf("ORDER"))
  }

  /** One condition of client `c`'s assessment, as `__apply_activity_constraints` handles it. */
  function ActivityCondition(x: Ctx, c: int, cond: Condition): Result<seq<Constraint>>
  {
    var o, t, args := cond.option, cond.optionType, cond.args;
    if cond.scope != ValueOf("ACTIVITY") then Err(ValueError("Invalid condition scope for activity constraint"))
    else if o == ValueOf("BEFORE") then BeforeCondition(x, c, t, args)
    else if o == ValueOf("AFTER") then AfterCondition(x, c, t, args)
    else if o == ValueOf("RIGHT_AFTER") then RightAfterCondition(x, c, t, args)
    else if o == ValueOf("RIGHT_BEFORE") then RightBeforeCondition(x, c, t, args)
    else if o == ValueOf("BETWEEN") then BetweenCondition(x, c, t, args)
    else if o == ValueOf("WITHIN_AFTER") then WithinAfterCondition(x, c, t, args)
    else if o == ValueOf("WITHIN_BEFORE") then WithinBeforeCondition(x, c, t, args)
    else if o == ValueOf("IN_FIXED_ORDER_AS") then FixedOrderCondition(x, c, t, args)
    else Err(ValueError("Invalid condition option"))
  }

  /** A result refused by the table. */
  predicate Refused<T>(r: Result<T>) { r.Err? && r.error.ValueError? }

  const Aid := Required("activity_id")

  function BeforeCondition(x: Ctx, c: int, t: Tag, args: Dict<string, Value>): (r: Result<seq<Constraint>>)
    ensures Refused(r) <==> t !in {ValueOf("ACTIVITY"), ValueOf("TIME"), ValueOf("ORDER")}
  {
    if t == ValueOf("ACTIVITY") then
      var v :- Bind(ActivityTaken, [Aid, Required("other_activity_id"), Gen], args);
      BeforeActivity(x, c, v[0], v[1], v[2])
    else if t == ValueOf("TIME") then
      var v :- Bind(ActivityTaken, [Aid, Required("time_before"), Gen], args);
      BeforeTime(x, c, v[0], v[1], v[2])
    else if t == ValueOf("ORDER") then
      var v :- Bind(ActivityTaken, [Aid, Required("order"), GenRequired], args);
      BeforeOrder(x, c, v[0], v[1], v[2])
    else Err(ValueError("Invalid condition option type for before activity constraint"))
  }

  function AfterCondition(x: Ctx, c: int, t: Tag, args: Dict<string, Value>): (r: Result<seq<Constraint>>)
    ensures Refused(r) <==> t !in {ValueOf("ACTIVITY"), ValueOf("TIME"), ValueOf("ORDER")}
  {
    if t == ValueOf("ACTIVITY") then
      var v :- Bind(ActivityTaken, [Aid, Required("other_activity_id"), GenRequired], args);
      AfterActivity(x, c, v[0], v[1], v[2])
    else if t == ValueOf("TIME") then
      var v :- Bind(ActivityTaken, [Aid, Required("time_after"), GenRequired], args);
      AfterTime(x, c, v[0], v[1], v[2])
    else if t == ValueOf("ORDER") then
      var v :- Bind(ActivityTaken, [Aid, Required("order"), GenRequired], args);
      AfterOrder(x, c, v[0], v[1], v[2])
    else Err(ValueError("Invalid condition option type for after activity constraint"))
  }

  function RightAfterCondition(x: Ctx, c: int, t: Tag, args: Dict<string, Value>): (r: Result<seq<Constraint>>)
    ensures Refused(r) <==> t != ValueOf("ACTIVITY")
  {
    if t == ValueOf("ACTIVITY") then
      var v :- Bind(ActivityTaken, [Aid, Required("other_activity_id"), GenRequired], args);
      RightAfter(x, c, v[0], v[1], v[2])
    else Err(ValueError("Invalid condition option type for right after activity constraint"))
  }

  function RightBeforeCondition(x: Ctx, c: int, t: Tag, args: Dict<string, Value>): (r: Result<seq<Constraint>>)
    ensures Refused(r) <==> t != ValueOf("ACTIVITY")
  {
    if t == ValueOf("ACTIVITY") then
      var v :- Bind(ActivityTaken, [Aid, Required("other_activity_id"), GenRequired], args);
      RightBefore(x, c, v[0], v[1], v[2])
    else Err(ValueError("Invalid condition option type for right before activity constraint"))
  }

  function BetweenCondition(x: Ctx, c: int, t: Tag, args: Dict<string, Value>): (r: Result<seq<Constraint>>)
    ensures Refused(r) <==> t !in {ValueOf("ACTIVITY"), ValueOf("TIME"), ValueOf("ORDER")}
  {
    if t == ValueOf("ACTIVITY") then
      var v :- Bind(ActivityTaken, [Aid, Required("other_activity_id_before"), Required("other_activity_id_after"), GenRequired], args);
      BetweenActivities(x, c, v[0], v[1], v[2], v[3])
    else if t == ValueOf("TIME") then
      var v :- Bind(ActivityTaken, [Aid, Required("time_before"), Required("time_after"), GenRequired], args);
      BetweenTimes(x, c, v[0], v[1], v[2], v[3])
    else if t == ValueOf("ORDER") then
      var v :- Bind(ActivityTaken, [Aid, Required("order_before"), Required("order_after"), GenRequired], args);
      BetweenOrders(x, c, v[0], v[1], v[2], v[3])
    else Err(ValueError("Invalid condition option type for between constraint"))
  }

  function WithinAfterCondition(x: Ctx, c: int, t: Tag, args: Dict<string, Value>): (r: Result<seq<Constraint>>)
    ensures Refused(r) <==> t != ValueOf("ACTIVITY")
  {
    if t == ValueOf("ACTIVITY") then
      var v :- Bind(ActivityTaken, [Aid, Required("other_activity_id"), Required("time_after"), GenRequired], args);
      WithinAfter(x, c, v[0], v[1], v[2], v[3])
    else Err(ValueError("Invalid condition option type for within after activity constraint"))
  }

  function WithinBeforeCondition(x: Ctx, c: int, t: Tag, args: Dict<string, Value>): (r: Result<seq<Constraint>>)
    ensures Refused(r) <==> t != ValueOf("ACTIVITY")
  {
    if t == ValueOf("ACTIVITY") then
      var v :- Bind(ActivityTaken, [Aid, Required("other_activity_id"), Required("time_before"), GenRequired], args);
      WithinBefore(x, c, v[0], v[1], v[2], v[3])
    else Err(ValueError("Invalid condition option type for within before activity constraint"))
  }

  function FixedOrderCondition(x: Ctx, c: int, t: Tag, args: Dict<string, Value>): (r: Result<seq<Constraint>>)
    ensures Refused(r) <==> t != ValueOf("ORDER")
  {
    if t == ValueOf("ORDER") then
      var v :- Bind(ActivityTaken, [Aid, Required("order"), Gen], args);
      Ok(FixedOrder(x, c, v[0], v[1], v[2]))
    else Err(ValueError("Invalid condition option type for in fixed order as constraint"))
  }

  // What the dispatch accepts.

  /** The dispatch table: a condition is refused with ValueError exactly when its scope is not
      ACTIVITY or its option/type pair is not one the table lists; a refused condition emits
      nothing. */
  lemma {:induction false} ActivityDispatchTable(x: Ctx, c: int, cond: Condition)
    ensures Refused(ActivityCondition(x, c, cond)) <==>
      !(cond.scope == ValueOf("ACTIVITY") && ActivityAccepted(cond.option, cond.optionType))
  {
  }

  /** A condition whose scope holds the enum member itself (not its `.value`) is always refused:
      the current scheduler compares scopes with `ConditionScope.ACTIVITY.value`. */
  lemma MemberScopeRejected(x: Ctx, c: int, cond: Condition)
    requires cond.scope.Member?
    ensures ActivityCondition(x, c, cond) == Err(ValueError("Invalid condition scope for activity constraint"))
  {
  }

  // What the helpers emit.

  lemma PairsMembers(outer: seq<Var>, inner: seq<Var>, mk: (Var, Var) -> Constraint, y: Constraint)
    ensures y in Pairs(outer, inner, mk) <==> exists o, i :: o in outer && i in inner && y == mk(o, i)
  {
    EachMembers(outer, o => Each(inner, i => [mk(o, i)]), y);
    forall o | o in outer {
      EachMembers(inner, i => [mk(o, i)], y);
    }
  }

  /** BEFORE another activity: when it emits, every end of the activity is no later than every
      start of the other one, in every solution. */
  lemma BeforeActivityMeaning(x: Ctx, c: int, aid: int, oid: int, generate: Value, a: Assignment)
    requires Truthy(generate)
    requires forall y :: y in BeforeActivity(x, c, IntV(aid), IntV(oid), generate).value ==> Holds(y, a)
    ensures forall e, s :: e in GetList(x.maps.ends, (c, aid)) && s in GetList(x.maps.starts, (c, oid)) ==> a(e) <= a(s)
  {
    var starts, ends := GetList(x.maps.starts, (c, oid)), GetList(x.maps.ends, (c, aid));
    forall e, s | e in ends && s in starts ensures a(e) <= a(s) {
      var mk := (s', e') => Rule(V(e'), LE, V(s'));
      PairsMembers(starts, ends, mk, mk(s, e));
      EvalVar(e, a); EvalVar(s, a);
      assert Holds(mk(s, e), a);
    }
  }

  /** The fixed order at slot `order`: with `generate` true it pins to 0 exactly the literals
      stored under this client, another activity and that slot; with `generate` false it emits
      nothing. */
  lemma FixedOrderMeaning(x: Ctx, c: int, aid: Value, order: Value, generate: Value, y: Constraint)
    ensures !Truthy(generate) ==> FixedOrder(x, c, aid, order, generate) == []
    ensures Truthy(generate) ==> (y in FixedOrder(x, c, aid, order, generate) <==>
      exists j :: OrderKeyAt(x.maps.slotRooms, j, c, aid, order) && y == Rule(V(x.maps.slotRooms[j].1), EQ, K(0)))
  {
    var d := x.maps.slotRooms;
    var lits := OrderLits(d, c, aid, order);
    EachMembers(lits, PinZero, y);
    if y in Each(lits, PinZero) {
      var l :| l in lits && y in PinZero(l);
      var j :| OrderKeyAt(d, j, c, aid, order) && d[j].1 == l;
      assert y == Rule(V(d[j].1), EQ, K(0));
    }
    if exists j :: OrderKeyAt(d, j, c, aid, order) && y == Rule(V(d[j].1), EQ, K(0)) {
      var j :| OrderKeyAt(d, j, c, aid, order) && y == Rule(V(d[j].1), EQ, K(0));
      assert d[j].1 in lits && y in PinZero(d[j].1);
    }
  }

  /** In every solution of an emitted fixed order, the pinned literals are 0. */
  lemma FixedOrderSolution(x: Ctx, c: int, aid: Value, order: Value, generate: Value, a: Assignment, j: int)
    requires Truthy(generate) && OrderKeyAt(x.maps.slotRooms, j, c, aid, order)
    requires forall y :: y in FixedOrder(x, c, aid, order, generate) ==> Holds(y, a)
    ensures a(x.maps.slotRooms[j].1) == 0
  {
    FixedOrderMeaning(x, c, aid, order, generate, Rule(V(x.maps.slotRooms[j].1), EQ, K(0)));
    EvalVar(x.maps.slotRooms[j].1, a);
    assert Holds(Rule(V(x.maps.slotRooms[j].1), EQ, K(0)), a);
  }

  /** BEFORE order `o` is the fixed order at `o - 1`, AFTER order `o` the fixed order at `o + 1`. */
  lemma OrderShift(x: Ctx, c: int, aid: Value, o: int, generate: Value, j: int)
    ensures BeforeOrder(x, c, aid, IntV(o), generate) == Ok(FixedOrder(x, c, aid, IntV(o - 1), generate))
    ensures AfterOrder(x, c, aid, IntV(o), generate) == Ok(FixedOrder(x, c, aid, IntV(o + 1), generate))
    ensures OrderKeyAt(x.maps.slotRooms, j, c, aid, IntV(o - 1)) <==>
      (0 <= j < |x.maps.slotRooms| && x.maps.slotRooms[j].0.0 == c && !EqInt(aid, x.maps.slotRooms[j].0.1) && x.maps.slotRooms[j].0.2 == o - 1)
  {
  }
}
