/** The constraints the API-driven scheduler (`src/utils/solver_v2.py`) adds once its variables
    are defined: the gap rule of one activity, the parsing and dispatch of every assessment's
    activity conditions, and the same-room pairing of two activities of a client. */
module ApiRules {
  import opened Wrappers
  import opened PyDict
  import opened Records
  import opened CpModel
  import opened Sorting
  import opened Text
  import opened Serializer
  import opened ApiSetup
  import opened ApiVariables
  import opened PyList

  /** `x rel y` on two variables holds exactly when their values compare so. */
  lemma RuleVars(x: Var, rel: Rel, y: Var, a: Assignment)
    ensures Holds(Rule(V(x), rel, V(y)), a) <==> Compare(a(x), rel, a(y))
  {
    EvalVar(x, a);
    EvalVar(y, a);
  }

  /** `x rel n` on a variable and a constant. */
  lemma RuleConst(x: Var, rel: Rel, n: int, a: Assignment)
    ensures Holds(Rule(V(x), rel, K(n)), a) <==> Compare(a(x), rel, n)
  {
    EvalVar(x, a);
  }

  // The gap rule, `__apply_gap_between_activity_constraint`.

  /** `x != vs[j]` for `j` in `0 .. n - 1`. */
  function Apart(x: Var, vs: seq<Var>, n: nat): (r: seq<Constraint>)
    requires n <= |vs|
    ensures |r| == n
  {
    if n == 0 then [] else Apart(x, vs, n - 1) + [Rule(V(x), NE, V(vs[n - 1]))]
  }

  /** `x != vs[j]` for the `j` in `0 .. n - 1` with `vs[j]` another variable than `x`. */
  function Others(x: Var, vs: seq<Var>, n: nat): seq<Constraint>
    requires n <= |vs|
  {
    if n == 0 then []
    else Others(x, vs, n - 1) + (if vs[n - 1] == x then [] else [Rule(V(x), NE, V(vs[n - 1]))])
  }

  /** The rules `f` adds for each of the first `k` items, in order. */
  function Flat<T>(items: seq<T>, k: nat, f: T -> seq<Constraint>): seq<Constraint>
    requires k <= |items|
  {
    if k == 0 then [] else Flat(items, k - 1, f) + f(items[k - 1])
  }

  /** The rules of one start: apart from every end, then from every other start. */
  function StartRules(ss: seq<Var>, es: seq<Var>): Var -> seq<Constraint> {
    x => Apart(x, es, |es|) + Others(x, ss, |ss|)
  }

  /** The rules of one end: apart from every other end. */
  function EndRules(es: seq<Var>): Var -> seq<Constraint> {
    x => Others(x, es, |es|)
  }

  /** Everything the gap rule adds for the starts `ss` and ends `es` of one activity. */
  function GapRules(ss: seq<Var>, es: seq<Var>): seq<Constraint> {
    Flat(ss, |ss|, StartRules(ss, es)) + Flat(es, |es|, EndRules(es))
  }

  /** Starts of the activity take pairwise different values, ends too, and no start takes the
      value of an end. */
  ghost predicate Spread(ss: seq<Var>, es: seq<Var>, a: Assignment) {
    && (forall i, j :: 0 <= i < |ss| && 0 <= j < |ss| && ss[i] != ss[j] ==> a(ss[i]) != a(ss[j]))
    && (forall i, j :: 0 <= i < |ss| && 0 <= j < |es| ==> a(ss[i]) != a(es[j]))
    && (forall i, j :: 0 <= i < |es| && 0 <= j < |es| && es[i] != es[j] ==> a(es[i]) != a(es[j]))
  }

  /** All the rules of `cs` hold. */
  ghost predicate AllHold(cs: seq<Constraint>, a: Assignment) {
    forall k :: 0 <= k < |cs| ==> Holds(cs[k], a)
  }

  lemma AllHoldConcat(p: seq<Constraint>, q: seq<Constraint>, a: Assignment)
    ensures AllHold(p + q, a) <==> AllHold(p, a) && AllHold(q, a)
  {
    if AllHold(p, a) && AllHold(q, a) {
      forall k | 0 <= k < |p + q| ensures Holds((p + q)[k], a) {
        if k >= |p| { assert (p + q)[k] == q[k - |p|]; } else { assert (p + q)[k] == p[k]; }
      }
    }
    if AllHold(p + q, a) {
      forall k | 0 <= k < |p| ensures Holds(p[k], a) {
        assert (p + q)[k] == p[k];
      }
      forall k | 0 <= k < |q| ensures Holds(q[k], a) {
        assert (p + q)[k + |p|] == q[k];
      }
    }
  }

  /** The last rule of `Apart` or `Others` is `x != v`. */
  lemma AllHoldSnoc(p: seq<Constraint>, x: Var, v: Var, a: Assignment)
    ensures AllHold(p + [Rule(V(x), NE, V(v))], a) <==> AllHold(p, a) && a(x) != a(v)
  {
    AllHoldConcat(p, [Rule(V(x), NE, V(v))], a);
    RuleVars(x, NE, v, a);
    var one := [Rule(V(x), NE, V(v))];
    assert one[0] == Rule(V(x), NE, V(v));
    assert AllHold(one, a) <==> Holds(one[0], a);
  }

  lemma {:induction false} ApartHolds(x: Var, vs: seq<Var>, n: nat, a: Assignment)
    requires n <= |vs|
    ensures AllHold(Apart(x, vs, n), a) <==> Differs(x, vs, n, a)
  {
    if n > 0 {
      ApartHolds(x, vs, n - 1, a);
      AllHoldSnoc(Apart(x, vs, n - 1), x, vs[n - 1], a);
      if Differs(x, vs, n - 1, a) && a(x) != a(vs[n - 1]) {
        assert Differs(x, vs, n, a);
      }
    }
  }

  lemma {:induction false} OthersHolds(x: Var, vs: seq<Var>, n: nat, a: Assignment)
    requires n <= |vs|
    ensures AllHold(Others(x, vs, n), a) <==> DiffersOthers(x, vs, n, a)
  {
    if n > 0 {
      OthersHolds(x, vs, n - 1, a);
      if vs[n - 1] != x {
        AllHoldSnoc(Others(x, vs, n - 1), x, vs[n - 1], a);
        if DiffersOthers(x, vs, n - 1, a) && a(x) != a(vs[n - 1]) {
          assert DiffersOthers(x, vs, n, a);
        }
      } else {
        assert Others(x, vs, n) == Others(x, vs, n - 1);
        if DiffersOthers(x, vs, n - 1, a) {
          assert DiffersOthers(x, vs, n, a);
        }
      }
    }
  }

  /** `x` takes another value than each of `vs[..n]`. */
  ghost predicate Differs(x: Var, vs: seq<Var>, n: int, a: Assignment)
    requires n <= |vs|
  {
    forall j :: 0 <= j < n ==> a(x) != a(vs[j])
  }

  /** `x` takes another value than each of `vs[..n]` that is another variable. */
  ghost predicate DiffersOthers(x: Var, vs: seq<Var>, n: int, a: Assignment)
    requires n <= |vs|
  {
    forall j :: 0 <= j < n && vs[j] != x ==> a(x) != a(vs[j])
  }

  /** When each item's rules hold exactly when the item meets `P`, all the rules hold exactly when
      every item does. */
  lemma {:induction false} FlatMeaning<T>(items: seq<T>, k: nat, f: T -> seq<Constraint>, P: T -> bool, a: Assignment)
    requires k <= |items|
    requires forall i :: 0 <= i < k ==> (AllHold(f(items[i]), a) <==> P(items[i]))
    ensures AllHold(Flat(items, k, f), a) <==> forall i :: 0 <= i < k ==> P(items[i])
  {
    if k > 0 {
      FlatMeaning(items, k - 1, f, P, a);
      AllHoldConcat(Flat(items, k - 1, f), f(items[k - 1]), a);
    }
  }

  /** Start `x` differs from every other start and from every end. */
  ghost function StartApart(ss: seq<Var>, es: seq<Var>, a: Assignment): Var -> bool {
    x => DiffersOthers(x, ss, |ss|, a) && Differs(x, es, |es|, a)
  }

  /** End `x` differs from every other end. */
  ghost function EndApart(es: seq<Var>, a: Assignment): Var -> bool {
    x => DiffersOthers(x, es, |es|, a)
  }

  lemma StartsApartHolds(ss: seq<Var>, es: seq<Var>, a: Assignment)
    ensures AllHold(Flat(ss, |ss|, StartRules(ss, es)), a) <==> forall i :: 0 <= i < |ss| ==> StartApart(ss, es, a)(ss[i])
  {
    forall i | 0 <= i < |ss|
      ensures AllHold(StartRules(ss, es)(ss[i]), a) <==> StartApart(ss, es, a)(ss[i])
    {
      ApartHolds(ss[i], es, |es|, a);
      OthersHolds(ss[i], ss, |ss|, a);
      AllHoldConcat(Apart(ss[i], es, |es|), Others(ss[i], ss, |ss|), a);
    }
    FlatMeaning(ss, |ss|, StartRules(ss, es), StartApart(ss, es, a), a);
  }

  lemma EndsApartHolds(es: seq<Var>, a: Assignment)
    ensures AllHold(Flat(es, |es|, EndRules(es)), a) <==> forall i :: 0 <= i < |es| ==> EndApart(es, a)(es[i])
  {
    forall i | 0 <= i < |es|
      ensures AllHold(EndRules(es)(es[i]), a) <==> EndApart(es, a)(es[i])
    {
      OthersHolds(es[i], es, |es|, a);
    }
    FlatMeaning(es, |es|, EndRules(es), EndApart(es, a), a);
  }

  /** The gap rule holds exactly when the activity's starts and ends are spread apart: it says
      that and nothing more. */
  lemma GapRulesExact(ss: seq<Var>, es: seq<Var>, a: Assignment)
    ensures AllHold(GapRules(ss, es), a) <==> Spread(ss, es, a)
  {
    StartsApartHolds(ss, es, a);
    EndsApartHolds(es, a);
    AllHoldConcat(Flat(ss, |ss|, StartRules(ss, es)), Flat(es, |es|, EndRules(es)), a);
    if Spread(ss, es, a) {
      forall i | 0 <= i < |ss| ensures StartApart(ss, es, a)(ss[i]) {
        assert DiffersOthers(ss[i], ss, |ss|, a) && Differs(ss[i], es, |es|, a);
      }
      forall i | 0 <= i < |es| ensures EndApart(es, a)(es[i]) {
        assert DiffersOthers(es[i], es, |es|, a);
      }
    }
    if (forall i :: 0 <= i < |ss| ==> StartApart(ss, es, a)(ss[i])) && (forall i :: 0 <= i < |es| ==> EndApart(es, a)(es[i])) {
      forall i, j | 0 <= i < |ss| && 0 <= j < |ss| && ss[i] != ss[j] ensures a(ss[i]) != a(ss[j]) {
        assert StartApart(ss, es, a)(ss[i]);
        assert DiffersOthers(ss[i], ss, |ss|, a);
      }
      forall i, j | 0 <= i < |ss| && 0 <= j < |es| ensures a(ss[i]) != a(es[j]) {
        assert StartApart(ss, es, a)(ss[i]);
        assert Differs(ss[i], es, |es|, a);
      }
      forall i, j | 0 <= i < |es| && 0 <= j < |es| && es[i] != es[j] ensures a(es[i]) != a(es[j]) {
        assert EndApart(es, a)(es[i]);
        assert DiffersOthers(es[i], es, |es|, a);
      }
    }
  }

  // Activity conditions, `__apply_activity_constraints`.

  /** The values of the `ConditionTypes` and `CriteriaTypes` members a condition is compared with. */
  const KindBefore := PStr("BEFORE")
  const KindAfter := PStr("AFTER")
  const KindBetween := PStr("BETWEEN")
  const KindWithin := PStr("WITHIN")
  const KindFixed := PStr("IN_FIXED_ORDER_AS")
  const KindRightAfter := PStr("RIGHT_AFTER")
  const ByActivity := PStr("ACTIVITY")
  const ByTime := PStr("TIME")
  const ByOrder := PStr("ORDER")

  /** The activity every WITHIN condition is measured from. */
  const CheckIn := PStr("Check-in, Consent & Change")

  /** The six fields read from one condition dict. */
  datatype ActivityCondition = ActivityCondition(kind: PyVal, activity: PyVal, value: PyVal, bStart: PyVal, bEnd: PyVal, criteria: PyVal)

  /** `condition['type']`, `['activity_id']`, `['criteria']['value']`,
      `['criteria']['between_values']['start']` and `['end']`, `['criteria']['criteria_type']`,
      in that order: a TypeError when one of the containers is not a dict, a KeyError when a key
      is missing. */
  function ReadCondition(cond: PyVal): (r: Result<ActivityCondition>)
    ensures !cond.PDict? ==> r == Err(TypeError)
    ensures r.Err? ==> r.error == TypeError || r.error == KeyError
    ensures r.Ok? ==> Subscript(cond, "type") == Ok(r.value.kind) && Subscript(cond, "activity_id") == Ok(r.value.activity)
    ensures r.Ok? ==> Subscript(cond, "criteria").Ok? && Subscript(Subscript(cond, "criteria").value, "between_values").Ok?
    ensures r.Ok? ==> var crit := Subscript(cond, "criteria").value;
      Subscript(crit, "value") == Ok(r.value.value) && Subscript(crit, "criteria_type") == Ok(r.value.criteria) &&
      Subscript(Subscript(crit, "between_values").value, "start") == Ok(r.value.bStart) &&
      Subscript(Subscript(crit, "between_values").value, "end") == Ok(r.value.bEnd)
  {
    var kind :- Subscript(cond, "type");
    var activity :- Subscript(cond, "activity_id");
    var crit :- Subscript(cond, "criteria");
    var value :- Subscript(crit, "value");
    var between :- Subscript(crit, "between_values");
    var bStart :- Subscript(between, "start");
    var bEnd :- Subscript(between, "end");
    var criteria :- Subscript(crit, "criteria_type");
    Ok(ActivityCondition(kind, activity, value, bStart, bEnd, criteria))
  }

  /** `timedelta` of `datetime.strptime(v, "%H:%M:%S")` in seconds: a TypeError for a value that
      is not a string, a ValueError when `clock` (the parser) rejects it. */
  function ClockOf(v: PyVal, clock: string -> Option<(nat, nat, nat)>): (r: Result<int>)
    ensures r.Ok? <==> v.PStr? && clock(v.s).Some?
    ensures !v.PStr? ==> r == Err(TypeError)
    ensures v.PStr? && clock(v.s).None? ==> r.Err? && r.error.ValueError?
    ensures r.Ok? ==> var (h, m, sec) := clock(v.s).value; r.value == 3600 * h + 60 * m + sec >= 0
  {
    if !v.PStr? then Err(TypeError)
    else match clock(v.s)
      case None => Err(ValueError("time data does not match format '%H:%M:%S'"))
      case Some((h, m, sec)) => Ok(3600 * h + 60 * m + sec)
  }

  /** `int(v)`. */
  function WholeOf(v: PyVal): (r: Result<int>)
    ensures r.Ok? <==> IntOf(v).Ok?
    ensures r.Ok? ==> IntOf(v) == Ok(PInt(r.value))
  {
    var i :- IntOf(v);
    Ok(i.i)
  }

  /** A criteria value once parsed: left as it is, a time of day in seconds, or an int. */
  datatype Bound = Raw(v: PyVal) | Clock(secs: int) | Whole(n: int)

  datatype Parsed = Parsed(value: Bound, bStart: Bound, bEnd: Bound)

  /** The forms the parse leaves the values in, which the dispatch relies on. */
  predicate Shaped(c: ActivityCondition, p: Parsed) {
    && (c.criteria == ByTime && c.kind != KindBetween ==> p.value.Clock?)
    && (c.criteria == ByOrder && c.kind != KindBetween ==> p.value.Whole?)
    && (c.criteria == ByTime && c.kind == KindBetween ==> p.bStart.Clock? && p.bEnd.Clock?)
    && (c.criteria == ByOrder && c.kind == KindBetween ==> p.bStart.Whole? && p.bEnd.Whole?)
    && (c.kind == KindWithin && c.criteria != ByTime && c.criteria != ByOrder ==> p.value.Clock?)
  }

  /** The conversions ahead of the client loop: a TIME value (the BETWEEN bounds for a BETWEEN
      condition) is parsed as a time of day, an ORDER value (or bounds) by `int`, and a WITHIN
      condition of another criteria type has its value parsed as a time of day. */
  function Parse(c: ActivityCondition, clock: string -> Option<(nat, nat, nat)>): (r: Result<Parsed>)
    ensures r.Ok? ==> Shaped(c, r.value)
    ensures r.Err? ==> r.error == TypeError || r.error.ValueError?
    ensures c.criteria == ByTime && c.kind != KindBetween ==> (r.Ok? <==> ClockOf(c.value, clock).Ok?)
    ensures c.criteria == ByOrder && c.kind != KindBetween ==> (r.Ok? <==> WholeOf(c.value).Ok?)
    ensures c.criteria == ByActivity && c.kind != KindWithin ==> r == Ok(Parsed(Raw(c.value), Raw(c.bStart), Raw(c.bEnd)))
  {
    var raw := Parsed(Raw(c.value), Raw(c.bStart), Raw(c.bEnd));
    if c.criteria == ByTime && c.kind != KindBetween then
      var t :- ClockOf(c.value, clock);
      Ok(raw.(value := Clock(t)))
    else if c.criteria == ByOrder && c.kind != KindBetween then
      var n :- WholeOf(c.value);
      Ok(raw.(value := Whole(n)))
    else if c.criteria == ByTime && c.kind == KindBetween then
      var lo :- ClockOf(c.bStart, clock);
      var hi :- ClockOf(c.bEnd, clock);
      Ok(raw.(bStart := Clock(lo), bEnd := Clock(hi)))
    else if c.criteria == ByOrder && c.kind == KindBetween then
      var lo :- WholeOf(c.bStart);
      var hi :- WholeOf(c.bEnd);
      Ok(raw.(bStart := Whole(lo), bEnd := Whole(hi)))
    else if c.kind == KindWithin then
      var t :- ClockOf(c.value, clock);
      Ok(raw.(value := Clock(t)))
    else Ok(raw)
  }

  /** `d[(client, id)]`: a TypeError when the id cannot be hashed, a KeyError when it is not
      there. */
  function Look(d: Dict<(int, PyVal), Var>, client: int, id: PyVal): (r: Result<Var>)
    ensures r.Ok? <==> Hashable(id) && Get(d, (client, id)).Some?
    ensures r.Ok? ==> r.value == Get(d, (client, id)).value
    ensures r.Err? ==> r.error == (if Hashable(id) then KeyError else TypeError)
  {
    if !Hashable(id) then Err(TypeError)
    else match Get(d, (client, id))
      case Some(v) => Ok(v)
      case None => Err(KeyError)
  }

  /** `int((t - time_start).total_seconds() // 60)`: minutes from the first arrival, rounded
      down; a TypeError while the scenario action is unset. */
  function MinutesFrom(t: int, s: Option<Settings>): (r: Result<int>)
    ensures r.Ok? <==> s.Some?
    ensures r.Ok? ==> 60 * r.value <= t - s.value.timeStart < 60 * r.value + 60
  {
    if s.None? then Err(TypeError) else Ok((t - s.value.timeStart) / 60)
  }

  /** `order > lo` and `order < hi`: strictly between the BETWEEN bounds. */
  function BetweenOrders(o: Var, lo: int, hi: int): seq<Constraint> {
    [Rule(V(o), GT, K(lo)), Rule(V(o), LT, K(hi))]
  }

  /** `__apply_between_orders_constraint` as written: `order > order_after` and
      `order < order_before`, the bounds swapped. */
  function BetweenOrdersAsWritten(o: Var, lo: int, hi: int): seq<Constraint> {
    [Rule(V(o), GT, K(hi)), Rule(V(o), LT, K(lo))]
  }

  lemma AllHoldPair(p: Constraint, q: Constraint, a: Assignment)
    ensures AllHold([p, q], a) <==> Holds(p, a) && Holds(q, a)
  {
    var pq := [p, q];
    assert pq[0] == p && pq[1] == q;
  }

  lemma AllHoldSingle(p: Constraint, a: Assignment)
    ensures AllHold([p], a) <==> Holds(p, a)
  {
    var one := [p];
    assert one[0] == p;
  }

  /** The corrected rule places the order strictly between the bounds. */
  lemma BetweenOrdersMeaning(o: Var, lo: int, hi: int, a: Assignment)
    ensures AllHold(BetweenOrders(o, lo, hi), a) <==> lo < a(o) < hi
  {
    AllHoldPair(Rule(V(o), GT, K(lo)), Rule(V(o), LT, K(hi)), a);
    RuleConst(o, GT, lo, a);
    RuleConst(o, LT, hi, a);
  }

  /** As written the rule places the order strictly between the bounds the other way round, so
      for bounds in order (start 1, end 3, say) no order satisfies it, the order 2 between them
      included. */
  lemma BetweenOrdersAsWrittenEmpty(o: Var, lo: int, hi: int, a: Assignment)
    ensures AllHold(BetweenOrdersAsWritten(o, lo, hi), a) <==> hi < a(o) < lo
    ensures lo <= hi ==> !AllHold(BetweenOrdersAsWritten(o, lo, hi), a)
  {
    AllHoldPair(Rule(V(o), GT, K(hi)), Rule(V(o), LT, K(lo)), a);
    RuleConst(o, GT, hi, a);
    RuleConst(o, LT, lo, a);
  }

  lemma BetweenOrdersWitness()
    ensures var a: Assignment := v => 2;
      AllHold(BetweenOrders(Order(0, 0), 1, 3), a) && !AllHold(BetweenOrdersAsWritten(Order(0, 0), 1, 3), a)
  {
    var a: Assignment := v => 2;
    BetweenOrdersMeaning(Order(0, 0), 1, 3, a);
    BetweenOrdersAsWrittenEmpty(Order(0, 0), 1, 3, a);
  }

  /** The rules one parsed condition adds for client `client`, in the order the helper adds
      them; the variables are looked up as the helper does, left operand first. */
  function Dispatch(c: ActivityCondition, p: Parsed, x: Index, client: int, s: Option<Settings>): (r: Result<seq<Constraint>>)
    requires Shaped(c, p)
    ensures r.Ok? ==> 1 <= |r.value| <= 2
    ensures c.kind !in {KindBefore, KindAfter, KindRightAfter, KindBetween, KindWithin, KindFixed} ==>
      r == Err(ValueError("Invalid condition option"))
    ensures c.kind in {KindBefore, KindAfter, KindBetween} && c.criteria !in {ByActivity, ByTime, ByOrder} ==> r.Err? && r.error.ValueError?
    ensures c.kind == KindRightAfter && c.criteria != ByActivity ==> r.Err? && r.error.ValueError?
    ensures c.kind == KindFixed && c.criteria != ByOrder ==> r.Err? && r.error.ValueError?
    ensures c.kind == KindWithin && c.criteria == ByOrder ==> r == Err(AttributeError)
  {
    if c.kind == KindBefore then
      if c.criteria == ByActivity then
        var e :- Look(x.ends, client, c.activity);
        var t :- Look(x.starts, client, c.value);
        Ok([Rule(V(e), LE, V(t))])
      else if c.criteria == ByTime then
        var m :- MinutesFrom(p.value.secs, s);
        var e :- Look(x.ends, client, c.activity);
        Ok([Rule(V(e), LE, K(m))])
      else if c.criteria == ByOrder then
        var o :- Look(x.orders, client, c.activity);
        Ok([Rule(V(o), LT, K(p.value.n))])
      else Err(ValueError("Invalid condition option type for before activity constraint"))
    else if c.kind == KindAfter then
      if c.criteria == ByActivity then
        var t :- Look(x.starts, client, c.activity);
        var e :- Look(x.ends, client, c.value);
        Ok([Rule(V(t), GE, V(e))])
      else if c.criteria == ByTime then
        var m :- MinutesFrom(p.value.secs, s);
        var t :- Look(x.starts, client, c.activity);
        Ok([Rule(V(t), GE, K(m))])
      else if c.criteria == ByOrder then
        var o :- Look(x.orders, client, c.activity);
        Ok([Rule(V(o), GT, K(p.value.n))])
      else Err(ValueError("Invalid condition option type for after activity constraint"))
    else if c.kind == KindRightAfter then
      if c.criteria == ByActivity then
        var t :- Look(x.starts, client, c.activity);
        var e :- Look(x.ends, client, c.value);
        Ok([Rule(V(t), EQ, V(e))])
      else Err(ValueError("Invalid condition option type for right after activity constraint"))
    else if c.kind == KindBetween then
      if c.criteria == ByActivity then
        var t :- Look(x.starts, client, c.activity);
        var e :- Look(x.ends, client, c.bStart);
        var e' :- Look(x.ends, client, c.activity);
        var t' :- Look(x.starts, client, c.bEnd);
        Ok([Rule(V(t), GE, V(e)), Rule(V(e'), LE, V(t'))])
      else if c.criteria == ByTime then
        var lo :- MinutesFrom(p.bStart.secs, s);
        var hi := MinutesFrom(p.bEnd.secs, s).value;
        var t :- Look(x.starts, client, c.activity);
        var e :- Look(x.ends, client, c.activity);
        Ok([Rule(V(t), GE, K(lo)), Rule(V(e), LE, K(hi))])
      else if c.criteria == ByOrder then
        var o :- Look(x.orders, client, c.activity);
        Ok(BetweenOrdersAsWritten(o, p.bStart.n, p.bEnd.n))
      else Err(ValueError("Invalid condition option type for between constraint"))
    else if c.kind == KindWithin then
      if !p.value.Clock? then Err(AttributeError)
      else
        var t :- Look(x.starts, client, c.activity);
        var e :- Look(x.ends, client, CheckIn);
        var t0 :- Look(x.starts, client, CheckIn);
        Ok([Rule(V(t), GE, V(e)), Rule(V(t), LE, Plus(t0, p.value.secs / 60))])
    else if c.kind == KindFixed then
      if c.criteria == ByOrder then
        var o :- Look(x.orders, client, c.activity);
        Ok([Rule(V(o), EQ, K(p.value.n))])
      else Err(ValueError("Invalid condition option type for in fixed order as constraint"))
    else Err(ValueError("Invalid condition option"))
  }

  lemma RulePlus(x: Var, rel: Rel, y: Var, n: int, a: Assignment)
    ensures Holds(Rule(V(x), rel, Plus(y, n)), a) <==> Compare(a(x), rel, a(y) + n)
  {
    EvalVar(x, a);
    EvalVar(y, a);
  }

  /** The value of the variable `d[(client, id)]`. */
  function At(d: Dict<(int, PyVal), Var>, client: int, id: PyVal, a: Assignment): int
    requires Get(d, (client, id)).Some?
  {
    a(Get(d, (client, id)).value)
  }

  /** What a condition asks of one client's schedule, in times and orders rather than rules: a
      time of day `t` is `t - time_start` seconds into the horizon, so ending by it means
      `60 * end <= t - time_start`, and starting from it (the start minute rounded down) means
      `60 * start + 60 > t - time_start`.  A BETWEEN condition by order places the order strictly
      between its end and its start bound, as the helper is called (see
      `BetweenOrdersAsWrittenEmpty`). */
  ghost predicate Meaning(c: ActivityCondition, p: Parsed, x: Index, client: int, s: Option<Settings>, a: Assignment)
    requires Shaped(c, p) && Dispatch(c, p, x, client, s).Ok?
  {
    if c.kind == KindBefore then
      if c.criteria == ByActivity then At(x.ends, client, c.activity, a) <= At(x.starts, client, c.value, a)
      else if c.criteria == ByTime then 60 * At(x.ends, client, c.activity, a) <= p.value.secs - s.value.timeStart
      else p.value.n > At(x.orders, client, c.activity, a)
    else if c.kind == KindAfter then
      if c.criteria == ByActivity then At(x.starts, client, c.activity, a) >= At(x.ends, client, c.value, a)
      else if c.criteria == ByTime then 60 * At(x.starts, client, c.activity, a) + 60 > p.value.secs - s.value.timeStart
      else p.value.n < At(x.orders, client, c.activity, a)
    else if c.kind == KindRightAfter then
      At(x.starts, client, c.activity, a) == At(x.ends, client, c.value, a)
    else if c.kind == KindBetween then
      if c.criteria == ByActivity then
        At(x.ends, client, c.bStart, a) <= At(x.starts, client, c.activity, a) &&
        At(x.ends, client, c.activity, a) <= At(x.starts, client, c.bEnd, a)
      else if c.criteria == ByTime then
        60 * At(x.starts, client, c.activity, a) + 60 > p.bStart.secs - s.value.timeStart &&
        60 * At(x.ends, client, c.activity, a) <= p.bEnd.secs - s.value.timeStart
      else p.bEnd.n < At(x.orders, client, c.activity, a) < p.bStart.n
    else if c.kind == KindWithin then
      At(x.ends, client, CheckIn, a) <= At(x.starts, client, c.activity, a) <= At(x.starts, client, CheckIn, a) + p.value.secs / 60
    else
      At(x.orders, client, c.activity, a) == p.value.n
  }

  lemma MinuteBounds(m: int, t: int, s: Option<Settings>)
    requires MinutesFrom(t, s) == Ok(m)
    ensures forall v: int {:trigger 60 * v} :: (v <= m <==> 60 * v <= t - s.value.timeStart) && (v >= m <==> 60 * v + 60 > t - s.value.timeStart)
  {
  }

  lemma DispatchMeaningOneSided(c: ActivityCondition, p: Parsed, x: Index, client: int, s: Option<Settings>, a: Assignment, rs: seq<Constraint>)
    requires Shaped(c, p) && Dispatch(c, p, x, client, s) == Ok(rs)
    requires c.kind in {KindBefore, KindAfter}
    ensures AllHold(rs, a) <==> Meaning(c, p, x, client, s, a)
  {
    AllHoldSingle(rs[0], a);
    if c.kind == KindBefore {
      if c.criteria == ByActivity {
        RuleVars(Get(x.ends, (client, c.activity)).value, LE, Get(x.starts, (client, c.value)).value, a);
      } else if c.criteria == ByTime {
        MinuteBounds(MinutesFrom(p.value.secs, s).value, p.value.secs, s);
        RuleConst(Get(x.ends, (client, c.activity)).value, LE, MinutesFrom(p.value.secs, s).value, a);
      } else {
        RuleConst(Get(x.orders, (client, c.activity)).value, LT, p.value.n, a);
      }
    } else {
      if c.criteria == ByActivity {
        RuleVars(Get(x.starts, (client, c.activity)).value, GE, Get(x.ends, (client, c.value)).value, a);
      } else if c.criteria == ByTime {
        MinuteBounds(MinutesFrom(p.value.secs, s).value, p.value.secs, s);
        RuleConst(Get(x.starts, (client, c.activity)).value, GE, MinutesFrom(p.value.secs, s).value, a);
      } else {
        RuleConst(Get(x.orders, (client, c.activity)).value, GT, p.value.n, a);
      }
    }
  }

  lemma DispatchMeaningBetween(c: ActivityCondition, p: Parsed, x: Index, client: int, s: Option<Settings>, a: Assignment, rs: seq<Constraint>)
    requires Shaped(c, p) && Dispatch(c, p, x, client, s) == Ok(rs)
    requires c.kind == KindBetween
    ensures AllHold(rs, a) <==> Meaning(c, p, x, client, s, a)
  {
    AllHoldPair(rs[0], rs[1], a);
    if c.criteria == ByActivity {
      RuleVars(Get(x.starts, (client, c.activity)).value, GE, Get(x.ends, (client, c.bStart)).value, a);
      RuleVars(Get(x.ends, (client, c.activity)).value, LE, Get(x.starts, (client, c.bEnd)).value, a);
    } else if c.criteria == ByTime {
      MinuteBounds(MinutesFrom(p.bStart.secs, s).value, p.bStart.secs, s);
      MinuteBounds(MinutesFrom(p.bEnd.secs, s).value, p.bEnd.secs, s);
      RuleConst(Get(x.starts, (client, c.activity)).value, GE, MinutesFrom(p.bStart.secs, s).value, a);
      RuleConst(Get(x.ends, (client, c.activity)).value, LE, MinutesFrom(p.bEnd.secs, s).value, a);
    } else {
      BetweenOrdersAsWrittenEmpty(Get(x.orders, (client, c.activity)).value, p.bStart.n, p.bEnd.n, a);
    }
  }

  lemma DispatchMeaningRest(c: ActivityCondition, p: Parsed, x: Index, client: int, s: Option<Settings>, a: Assignment, rs: seq<Constraint>)
    requires Shaped(c, p) && Dispatch(c, p, x, client, s) == Ok(rs)
    requires c.kind in {KindRightAfter, KindWithin, KindFixed}
    ensures AllHold(rs, a) <==> Meaning(c, p, x, client, s, a)
  {
    if c.kind == KindRightAfter {
      AllHoldSingle(rs[0], a);
      RuleVars(Get(x.starts, (client, c.activity)).value, EQ, Get(x.ends, (client, c.value)).value, a);
    } else if c.kind == KindWithin {
      AllHoldPair(rs[0], rs[1], a);
      RuleVars(Get(x.starts, (client, c.activity)).value, GE, Get(x.ends, (client, CheckIn)).value, a);
      RulePlus(Get(x.starts, (client, c.activity)).value, LE, Get(x.starts, (client, CheckIn)).value, p.value.secs / 60, a);
    } else {
      AllHoldSingle(rs[0], a);
      RuleConst(Get(x.orders, (client, c.activity)).value, EQ, p.value.n, a);
    }
  }

  /** The rules a condition adds hold exactly when the schedule meets the condition. */
  lemma DispatchMeaning(c: ActivityCondition, p: Parsed, x: Index, client: int, s: Option<Settings>, a: Assignment, rs: seq<Constraint>)
    requires Shaped(c, p) && Dispatch(c, p, x, client, s) == Ok(rs)
    ensures AllHold(rs, a) <==> Meaning(c, p, x, client, s, a)
  {
    if c.kind in {KindBefore, KindAfter} {
      DispatchMeaningOneSided(c, p, x, client, s, a, rs);
    } else if c.kind == KindBetween {
      DispatchMeaningBetween(c, p, x, client, s, a, rs);
    } else {
      DispatchMeaningRest(c, p, x, client, s, a, rs);
    }
  }

  /** The rules `f` adds for each of the first `k` items, in order; the first item `f` fails
      on stops the loop with its error. */
  function Concat<T>(items: seq<T>, k: nat, f: T -> Result<seq<Constraint>>): (r: Result<seq<Constraint>>)
    requires k <= |items|
    ensures r.Ok? <==> forall i :: 0 <= i < k ==> f(items[i]).Ok?
    ensures r.Err? ==> exists i :: 0 <= i < k && f(items[i]) == Err(r.error) && forall j :: 0 <= j < i ==> f(items[j]).Ok?
  {
    if k == 0 then Ok([])
    else
      var prev :- Concat(items, k - 1, f);
      var rs :- f(items[k - 1]);
      Ok(prev + rs)
  }

  /** When each item's rules hold exactly when the item meets `P`, all the rules hold exactly when
      every item does. */
  lemma {:induction false} ConcatMeaning<T>(items: seq<T>, k: nat, f: T -> Result<seq<Constraint>>, P: T -> bool, a: Assignment)
    requires k <= |items| && Concat(items, k, f).Ok?
    requires forall i :: 0 <= i < k ==> f(items[i]).Ok? ==> (AllHold(f(items[i]).value, a) <==> P(items[i]))
    ensures AllHold(Concat(items, k, f).value, a) <==> forall i :: 0 <= i < k ==> P(items[i])
  {
    if k > 0 {
      ConcatMeaning(items, k - 1, f, P, a);
      AllHoldConcat(Concat(items, k - 1, f).value, f(items[k - 1]).value, a);
    }
  }

  /** The rules a parsed condition adds for one client. */
  function DispatchStep(c: ActivityCondition, p: Parsed, x: Index, s: Option<Settings>): int -> Result<seq<Constraint>>
    requires Shaped(c, p)
  {
    client => Dispatch(c, p, x, client, s)
  }

  /** A parsed condition applied to clients `0 .. n - 1`, in that order. */
  function ForClients(c: ActivityCondition, p: Parsed, x: Index, n: nat, s: Option<Settings>): (r: Result<seq<Constraint>>)
    requires Shaped(c, p)
    ensures r.Ok? <==> forall client :: 0 <= client < n ==> Dispatch(c, p, x, client, s).Ok?
  {
    var clients := Range(0, n);
    assert forall i :: 0 <= i < n ==> DispatchStep(c, p, x, s)(clients[i]) == Dispatch(c, p, x, i, s);
    Concat(clients, n, DispatchStep(c, p, x, s))
  }

  /** The rules for one client were added and the client's schedule meets the condition. */
  ghost predicate Meets(c: ActivityCondition, p: Parsed, x: Index, client: int, s: Option<Settings>, a: Assignment)
    requires Shaped(c, p)
  {
    Dispatch(c, p, x, client, s).Ok? && Meaning(c, p, x, client, s, a)
  }

  ghost function MeetsStep(c: ActivityCondition, p: Parsed, x: Index, s: Option<Settings>, a: Assignment): int -> bool
    requires Shaped(c, p)
  {
    client => Meets(c, p, x, client, s, a)
  }

  /** A parsed condition holds for every client. */
  ghost predicate AllClients(c: ActivityCondition, p: Parsed, x: Index, n: nat, s: Option<Settings>, a: Assignment)
    requires Shaped(c, p)
  {
    forall client :: 0 <= client < n ==> Meets(c, p, x, client, s, a)
  }

  lemma ForClientsMeaning(c: ActivityCondition, p: Parsed, x: Index, n: nat, s: Option<Settings>, a: Assignment)
    requires Shaped(c, p) && ForClients(c, p, x, n, s).Ok?
    ensures AllHold(ForClients(c, p, x, n, s).value, a) <==> AllClients(c, p, x, n, s, a)
  {
    var f := DispatchStep(c, p, x, s);
    var P := MeetsStep(c, p, x, s, a);
    forall i | 0 <= i < n && f(i).Ok?
      ensures AllHold(f(i).value, a) <==> P(i)
    {
      DispatchMeaning(c, p, x, i, s, a, Dispatch(c, p, x, i, s).value);
    }
    ConcatClients(n, f, P, a);
    assert ForClients(c, p, x, n, s) == Concat(Range(0, n), n, f);
    forall i | 0 <= i < n
      ensures P(i) == Meets(c, p, x, i, s, a)
    {
    }
  }

  /** `ConcatMeaning` over the clients `0 .. n - 1`. */
  lemma ConcatClients(n: nat, f: int -> Result<seq<Constraint>>, P: int -> bool, a: Assignment)
    requires Concat(Range(0, n), n, f).Ok?
    requires forall i :: 0 <= i < n && f(i).Ok? ==> (AllHold(f(i).value, a) <==> P(i))
    ensures AllHold(Concat(Range(0, n), n, f).value, a) <==> forall i :: 0 <= i < n ==> P(i)
  {
    var clients := Range(0, n);
    forall i | 0 <= i < n
      ensures f(clients[i]) == f(i) && P(clients[i]) == P(i)
    {
      assert clients[i] == i;
    }
    ConcatMeaning(clients, n, f, P, a);
    if forall i :: 0 <= i < n ==> P(i) {
      forall i | 0 <= i < n
        ensures P(clients[i])
      {
        assert P(i);
      }
    }
    if forall i :: 0 <= i < n ==> P(clients[i]) {
      forall i | 0 <= i < n
        ensures P(i)
      {
        assert P(clients[i]);
      }
    }
  }

  /** One condition read and parsed, ahead of the client loop. */
  function Prepare(cond: PyVal, clock: string -> Option<(nat, nat, nat)>): (r: Result<(ActivityCondition, Parsed)>)
    ensures r.Ok? ==> Shaped(r.value.0, r.value.1)
    ensures r.Ok? <==> ReadCondition(cond).Ok? && Parse(ReadCondition(cond).value, clock).Ok?
    ensures !cond.PDict? ==> r == Err(TypeError)
  {
    var c :- ReadCondition(cond);
    var p :- Parse(c, clock);
    Ok((c, p))
  }

  /** One condition of an assessment: read and parsed, then applied to every client. */
  function ConditionRules(cond: PyVal, x: Index, n: nat, s: Option<Settings>, clock: string -> Option<(nat, nat, nat)>): (r: Result<seq<Constraint>>)
    ensures r.Ok? ==> Prepare(cond, clock).Ok?
  {
    var cp :- Prepare(cond, clock);
    ForClients(cp.0, cp.1, x, n, s)
  }

  /** A condition that reads, parses and holds for every client. */
  ghost predicate Obeys(cond: PyVal, x: Index, n: nat, s: Option<Settings>, clock: string -> Option<(nat, nat, nat)>, a: Assignment) {
    Prepare(cond, clock).Ok? && AllClients(Prepare(cond, clock).value.0, Prepare(cond, clock).value.1, x, n, s, a)
  }

  lemma ConditionRulesMeaning(cond: PyVal, x: Index, n: nat, s: Option<Settings>, clock: string -> Option<(nat, nat, nat)>, a: Assignment)
    requires ConditionRules(cond, x, n, s, clock).Ok?
    ensures AllHold(ConditionRules(cond, x, n, s, clock).value, a) <==> Obeys(cond, x, n, s, clock, a)
  {
    var cp := Prepare(cond, clock).value;
    ForClientsMeaning(cp.0, cp.1, x, n, s, a);
  }

  function ConditionStep(x: Index, n: nat, s: Option<Settings>, clock: string -> Option<(nat, nat, nat)>): PyVal -> Result<seq<Constraint>> {
    cond => ConditionRules(cond, x, n, s, clock)
  }

  ghost function ObeysStep(x: Index, n: nat, s: Option<Settings>, clock: string -> Option<(nat, nat, nat)>, a: Assignment): PyVal -> bool {
    cond => Obeys(cond, x, n, s, clock, a)
  }

  /** The `activity_conditions` of one assessment: its `data` attribute, subscripted, then
      iterated. */
  function ConditionsOf(assessment: PyVal): (r: Result<seq<PyVal>>)
    ensures r.Ok? ==> GetAttr(assessment, "data").Ok? && Subscript(GetAttr(assessment, "data").value, "activity_conditions").Ok?
    ensures r.Ok? ==> Iter(Subscript(GetAttr(assessment, "data").value, "activity_conditions").value) == Ok(r.value)
    ensures !assessment.PObj? ==> r == Err(AttributeError)
  {
    var data :- GetAttr(assessment, "data");
    var conds :- Subscript(data, "activity_conditions");
    Iter(conds)
  }

  /** All the conditions of one assessment, in order. */
  function AssessmentRules(assessment: PyVal, x: Index, n: nat, s: Option<Settings>, clock: string -> Option<(nat, nat, nat)>): (r: Result<seq<Constraint>>)
    ensures r.Ok? ==> ConditionsOf(assessment).Ok?
  {
    var conds :- ConditionsOf(assessment);
    Concat(conds, |conds|, ConditionStep(x, n, s, clock))
  }

  /** The conditions of one assessment can be read and they all hold. */
  ghost predicate Satisfied(assessment: PyVal, x: Index, n: nat, s: Option<Settings>, clock: string -> Option<(nat, nat, nat)>, a: Assignment) {
    ConditionsOf(assessment).Ok? && forall cond :: cond in ConditionsOf(assessment).value ==> Obeys(cond, x, n, s, clock, a)
  }

  lemma AssessmentRulesMeaning(assessment: PyVal, x: Index, n: nat, s: Option<Settings>, clock: string -> Option<(nat, nat, nat)>, a: Assignment)
    requires AssessmentRules(assessment, x, n, s, clock).Ok?
    ensures AllHold(AssessmentRules(assessment, x, n, s, clock).value, a) <==> Satisfied(assessment, x, n, s, clock, a)
  {
    var conds := ConditionsOf(assessment).value;
    var f := ConditionStep(x, n, s, clock);
    var P := ObeysStep(x, n, s, clock, a);
    forall i | 0 <= i < |conds| && f(conds[i]).Ok?
      ensures AllHold(f(conds[i]).value, a) <==> P(conds[i])
    {
      ConditionRulesMeaning(conds[i], x, n, s, clock, a);
    }
    ConcatMeaning(conds, |conds|, f, P, a);
  }

  function AssessmentStep(x: Index, n: nat, s: Option<Settings>, clock: string -> Option<(nat, nat, nat)>): PyVal -> Result<seq<Constraint>> {
    assessment => AssessmentRules(assessment, x, n, s, clock)
  }

  ghost function SatisfiedStep(x: Index, n: nat, s: Option<Settings>, clock: string -> Option<(nat, nat, nat)>, a: Assignment): PyVal -> bool {
    assessment => Satisfied(assessment, x, n, s, clock, a)
  }

  /** `__apply_activity_constraints`: every condition of every assessment, applied to every
      client. */
  function ActivityRules(assessments: seq<PyVal>, x: Index, n: nat, s: Option<Settings>, clock: string -> Option<(nat, nat, nat)>): (r: Result<seq<Constraint>>)
    ensures r.Ok? <==> forall j :: 0 <= j < |assessments| ==> AssessmentRules(assessments[j], x, n, s, clock).Ok?
  {
    Concat(assessments, |assessments|, AssessmentStep(x, n, s, clock))
  }

  /** A solution meets the rules of the phase exactly when every condition of every assessment
      holds for every client. */
  lemma ActivityRulesMeaning(assessments: seq<PyVal>, x: Index, n: nat, s: Option<Settings>, clock: string -> Option<(nat, nat, nat)>, a: Assignment)
    requires ActivityRules(assessments, x, n, s, clock).Ok?
    ensures AllHold(ActivityRules(assessments, x, n, s, clock).value, a) <==>
      forall j :: 0 <= j < |assessments| ==> Satisfied(assessments[j], x, n, s, clock, a)
  {
    var f := AssessmentStep(x, n, s, clock);
    var P := SatisfiedStep(x, n, s, clock, a);
    forall i | 0 <= i < |assessments| && f(assessments[i]).Ok?
      ensures AllHold(f(assessments[i]).value, a) <==> P(assessments[i])
    {
      AssessmentRulesMeaning(assessments[i], x, n, s, clock, a);
    }
    ConcatMeaning(assessments, |assessments|, f, P, a);
  }

  // Same room, `__apply_same_room_for_activities_constraint`.

  /** The `(room id, literal)` pairs of `rooms` whose key names the client and the activity, in
      the dict's order. */
  function RoomsOf(rooms: Dict<(int, PyVal, PyVal), Var>, client: int, id: PyVal): (r: seq<(PyVal, Var)>)
    ensures |r| <= |rooms|
  {
    if rooms == [] then []
    else
      var last := rooms[|rooms| - 1];
      RoomsOf(rooms[..|rooms| - 1], client, id) + (if last.0.0 == client && last.0.1 == id then [(last.0.2, last.1)] else [])
  }

  lemma {:induction false} RoomsOfMembers(rooms: Dict<(int, PyVal, PyVal), Var>, client: int, id: PyVal, e: (PyVal, Var))
    ensures e in RoomsOf(rooms, client, id) <==> ((client, id, e.0), e.1) in rooms
  {
    if rooms != [] {
      var init := rooms[..|rooms| - 1];
      RoomsOfMembers(init, client, id, e);
      assert rooms == init + [rooms[|rooms| - 1]];
    }
  }

  /** Numbers order below strings, strings below anything else. */
  function KeyRank(v: PyVal): nat {
    if Num(v).Some? then 0 else if v.PStr? then 1 else 2
  }

  /** The order `sort` puts room ids in: numbers by value, strings as `str` compares them. Ids
      of other kinds and ids of different kinds never meet in a sort that succeeds; they are
      ranked only so that the order is total. */
  predicate KeyLe(x: PyVal, y: PyVal) {
    if KeyRank(x) != KeyRank(y) then KeyRank(x) < KeyRank(y)
    else if x.PStr? then StrLe(x.s, y.s)
    else if Num(x).Some? then Num(x).value <= Num(y).value
    else true
  }

  lemma KeyLePreorder()
    ensures TotalPreorder(KeyLe)
  {
    forall x, y ensures KeyLe(x, y) || KeyLe(y, x) {
      if KeyRank(x) == KeyRank(y) && x.PStr? {
        StrLeTotal(x.s, y.s);
      }
    }
    forall x, y, z | KeyLe(x, y) && KeyLe(y, z) ensures KeyLe(x, z) {
      if KeyRank(x) == KeyRank(y) == KeyRank(z) && x.PStr? {
        StrLeTrans(x.s, y.s, z.s);
      }
    }
  }

  function RoomKey(e: (PyVal, Var)): PyVal { e.0 }

  /** `list.sort` compares the ids of two or more rooms: all strings or all numbers compare, any
      other mix raises a TypeError. */
  predicate Orderable(rs: seq<(PyVal, Var)>) {
    || |rs| < 2
    || (forall k :: 0 <= k < |rs| ==> rs[k].0.PStr?)
    || (forall k :: 0 <= k < |rs| ==> Num(rs[k].0).Some?)
  }

  /** The room pairs of one activity sorted by room id. */
  function SortedRooms(rooms: Dict<(int, PyVal, PyVal), Var>, client: int, id: PyVal): (r: seq<(PyVal, Var)>)
    ensures multiset(r) == multiset(RoomsOf(rooms, client, id))
    ensures SortedBy(r, RoomKey, KeyLe)
  {
    KeyLePreorder();
    SortBySorted(RoomsOf(rooms, client, id), RoomKey, KeyLe);
    SortBy(RoomsOf(rooms, client, id), RoomKey, KeyLe)
  }

  /** `room == other_room` for the pairs at the same position. */
  function Pairs(xs: seq<(PyVal, Var)>, ys: seq<(PyVal, Var)>): (r: seq<Constraint>)
    requires |xs| == |ys|
    ensures |r| == |xs|
  {
    seq(|xs|, k requires 0 <= k < |xs| => Rule(V(xs[k].1), EQ, V(ys[k].1)))
  }

  /** The rules tying the room of activity `a` to the room of activity `b` for one client: an
      AssertionError when they can be in different numbers of rooms, a TypeError when the room
      ids do not compare. */
  function SameRoom(rooms: Dict<(int, PyVal, PyVal), Var>, client: int, a: PyVal, b: PyVal): (r: Result<seq<Constraint>>)
    ensures r.Ok? <==> (|RoomsOf(rooms, client, a)| == |RoomsOf(rooms, client, b)| &&
      Orderable(RoomsOf(rooms, client, a)) && Orderable(RoomsOf(rooms, client, b)))
    ensures |RoomsOf(rooms, client, a)| != |RoomsOf(rooms, client, b)| ==>
      r == Err(AssertionError("Invalid number of rooms for same room constraint"))
    ensures r.Err? ==> r.error.AssertionError? || r.error == TypeError
    ensures r.Ok? ==> |r.value| == |RoomsOf(rooms, client, a)|
  {
    var xs := RoomsOf(rooms, client, a);
    var ys := RoomsOf(rooms, client, b);
    if |xs| != |ys| then Err(AssertionError("Invalid number of rooms for same room constraint"))
    else if !Orderable(xs) || !Orderable(ys) then Err(TypeError)
    else Ok(Pairs(SortedRooms(rooms, client, a), SortedRooms(rooms, client, b)))
  }

  /** The rules hold exactly when, room by room in id order, the two literals agree. */
  lemma SameRoomMeaning(rooms: Dict<(int, PyVal, PyVal), Var>, client: int, a: PyVal, b: PyVal, asg: Assignment)
    requires SameRoom(rooms, client, a, b).Ok?
    ensures var (xs, ys) := (SortedRooms(rooms, client, a), SortedRooms(rooms, client, b));
      && |xs| == |ys|
      && (AllHold(SameRoom(rooms, client, a, b).value, asg) <==> forall k :: 0 <= k < |xs| ==> asg(xs[k].1) == asg(ys[k].1))
  {
    var xs := SortedRooms(rooms, client, a);
    var ys := SortedRooms(rooms, client, b);
    var r := Pairs(xs, ys);
    forall k | 0 <= k < |xs| ensures Holds(r[k], asg) <==> asg(xs[k].1) == asg(ys[k].1) {
      RuleVars(xs[k].1, EQ, ys[k].1, asg);
    }
  }

  /** Room ids that `sort` orders without ties between different ids: strings and integers. */
  predicate PlainId(v: PyVal) {
    v.PStr? || v.PInt?
  }

  predicate PlainIds(rooms: Dict<(int, PyVal, PyVal), Var>) {
    forall k :: 0 <= k < |rooms| ==> PlainId(rooms[k].0.2)
  }

  lemma KeyLeAntisym(x: PyVal, y: PyVal)
    requires PlainId(x) && PlainId(y) && KeyLe(x, y) && KeyLe(y, x)
    ensures x == y
  {
    if x.PStr? && y.PStr? {
      StrLeAntisym(x.s, y.s);
    }
  }

  lemma SortedIdsPlain(rooms: Dict<(int, PyVal, PyVal), Var>, client: int, id: PyVal, x: PyVal)
    requires PlainIds(rooms) && x in KeysOf(SortedRooms(rooms, client, id), RoomKey)
    ensures PlainId(x)
  {
    var xs := SortedRooms(rooms, client, id);
    var i :| 0 <= i < |KeysOf(xs, RoomKey)| && KeysOf(xs, RoomKey)[i] == x;
    KeysOfAt(xs, RoomKey, i);
    assert xs[i] in multiset(xs);
    assert xs[i] in RoomsOf(rooms, client, id);
    RoomsOfMembers(rooms, client, id, xs[i]);
    var k :| 0 <= k < |rooms| && rooms[k] == ((client, id, xs[i].0), xs[i].1);
  }

  /** When both activities can take place in the same rooms, every rule pairs a room of one with
      the same room of the other; together with `SameRoomMeaning`, the rules then hold exactly
      when both activities end up in the same room. */
  lemma SameRoomSameIds(rooms: Dict<(int, PyVal, PyVal), Var>, client: int, a: PyVal, b: PyVal)
    requires SameRoom(rooms, client, a, b).Ok? && PlainIds(rooms)
    requires multiset(KeysOf(RoomsOf(rooms, client, a), RoomKey)) == multiset(KeysOf(RoomsOf(rooms, client, b), RoomKey))
    ensures var (xs, ys) := (SortedRooms(rooms, client, a), SortedRooms(rooms, client, b));
      |xs| == |ys| && forall k :: 0 <= k < |xs| ==> xs[k].0 == ys[k].0
  {
    var xs := SortedRooms(rooms, client, a);
    var ys := SortedRooms(rooms, client, b);
    PermutedKeys(xs, RoomsOf(rooms, client, a), RoomKey);
    PermutedKeys(ys, RoomsOf(rooms, client, b), RoomKey);
    KeyLePreorder();
    forall x, y | x in KeysOf(xs, RoomKey) && y in KeysOf(ys, RoomKey) && KeyLe(x, y) && KeyLe(y, x)
      ensures x == y
    {
      SortedIdsPlain(rooms, client, a, x);
      SortedIdsPlain(rooms, client, b, y);
      KeyLeAntisym(x, y);
    }
    SortedKeysUnique(xs, ys, RoomKey, KeyLe);
    forall k | 0 <= k < |xs| ensures xs[k].0 == ys[k].0 {
      KeysOfAt(xs, RoomKey, k);
      KeysOfAt(ys, RoomKey, k);
    }
  }

  // `__apply_general_constraints`, as far as its rules are interpreted.

  const Lunch := PStr("Lunch")
  const Checkout := PStr("Checkout")
  const Mri := PStr("MRI")

  /** The same-room pairings of one client: check-in with lunch, then check-in with checkout. */
  function ClientPairings(rooms: Dict<(int, PyVal, PyVal), Var>, client: int): (r: Result<seq<Constraint>>)
    ensures r.Ok? <==> SameRoom(rooms, client, CheckIn, Lunch).Ok? && SameRoom(rooms, client, CheckIn, Checkout).Ok?
  {
    var lunch :- SameRoom(rooms, client, CheckIn, Lunch);
    var out :- SameRoom(rooms, client, CheckIn, Checkout);
    Ok(lunch + out)
  }

  /** Activities `p` and `q` of the client take the same room: room by room in id order, their
      literals agree. */
  ghost predicate Paired(rooms: Dict<(int, PyVal, PyVal), Var>, client: int, p: PyVal, q: PyVal, a: Assignment) {
    var (xs, ys) := (SortedRooms(rooms, client, p), SortedRooms(rooms, client, q));
    forall k :: 0 <= k < |xs| && k < |ys| ==> a(xs[k].1) == a(ys[k].1)
  }

  /** Check-in shares its room with lunch and with checkout. */
  ghost predicate ClientPaired(rooms: Dict<(int, PyVal, PyVal), Var>, client: int, a: Assignment) {
    Paired(rooms, client, CheckIn, Lunch, a) && Paired(rooms, client, CheckIn, Checkout, a)
  }

  lemma ClientPairingsMeaning(rooms: Dict<(int, PyVal, PyVal), Var>, client: int, a: Assignment)
    requires ClientPairings(rooms, client).Ok?
    ensures AllHold(ClientPairings(rooms, client).value, a) <==> ClientPaired(rooms, client, a)
  {
    SameRoomMeaning(rooms, client, CheckIn, Lunch, a);
    SameRoomMeaning(rooms, client, CheckIn, Checkout, a);
    AllHoldConcat(SameRoom(rooms, client, CheckIn, Lunch).value, SameRoom(rooms, client, CheckIn, Checkout).value, a);
  }

  function PairingStep(rooms: Dict<(int, PyVal, PyVal), Var>): int -> Result<seq<Constraint>> {
    client => ClientPairings(rooms, client)
  }

  ghost function PairedStep(rooms: Dict<(int, PyVal, PyVal), Var>, a: Assignment): int -> bool {
    client => ClientPaired(rooms, client, a)
  }

  /** The pairings of clients `0 .. n - 1`, in order. */
  function Pairings(rooms: Dict<(int, PyVal, PyVal), Var>, n: nat): (r: Result<seq<Constraint>>)
    ensures r.Ok? <==> forall c :: 0 <= c < n ==> ClientPairings(rooms, c).Ok?
  {
    var clients := Range(0, n);
    assert forall i :: 0 <= i < n ==> PairingStep(rooms)(clients[i]) == ClientPairings(rooms, i);
    Concat(clients, n, PairingStep(rooms))
  }

  /** The pairings of clients `0 .. n - 1` in order, then the MRI gap rule. */
  function GeneralRules(x: Index, n: nat): (r: Result<seq<Constraint>>)
    ensures r.Ok? <==> forall c :: 0 <= c < n ==> ClientPairings(x.rooms, c).Ok?
  {
    var pairs :- Pairings(x.rooms, n);
    Ok(pairs + GapRules(GetList(x.startsPer, Mri), GetList(x.endsPer, Mri)))
  }

  /** A solution meets these rules exactly when every client's check-in shares its room with its
      lunch and its checkout and the MRI slots are spread apart. */
  lemma GeneralRulesMeaning(x: Index, n: nat, a: Assignment)
    requires GeneralRules(x, n).Ok?
    ensures AllHold(GeneralRules(x, n).value, a) <==>
      (forall c :: 0 <= c < n ==> ClientPaired(x.rooms, c, a)) && Spread(GetList(x.startsPer, Mri), GetList(x.endsPer, Mri), a)
  {
    var clients := Range(0, n);
    var f := PairingStep(x.rooms);
    var P := PairedStep(x.rooms, a);
    forall i | 0 <= i < n
      ensures P(clients[i]) == ClientPaired(x.rooms, i, a)
      ensures f(clients[i]) == ClientPairings(x.rooms, i)
    {
      assert clients[i] == i;
    }
    forall i | 0 <= i < n && f(clients[i]).Ok?
      ensures AllHold(f(clients[i]).value, a) <==> P(clients[i])
    {
      ClientPairingsMeaning(x.rooms, i, a);
    }
    ConcatMeaning(clients, n, f, P, a);
    assert Pairings(x.rooms, n) == Concat(clients, n, f);
    GapRulesExact(GetList(x.startsPer, Mri), GetList(x.endsPer, Mri), a);
    AllHoldConcat(Concat(clients, n, f).value, GapRules(GetList(x.startsPer, Mri), GetList(x.endsPer, Mri)), a);
  }
}
