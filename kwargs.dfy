/** The dynamically typed pieces the schedulers receive: the values held in a condition's `args`
    dict, enum-typed fields that may hold either an enum member or a raw value, and the binding of
    `helper(client_id, **args)` to a helper's parameters. */
module Kwargs {
  import opened Wrappers
  import opened PyDict

  /** A value in an `args` dict.  `TimeV` is a `timedelta`, in whole seconds. */
  datatype Value =
    | IntV(i: int)
    | BoolV(b: bool)
    | StrV(s: string)
    | TimeV(secs: int)
    | ListV(items: seq<Value>)
    | NoneV

  /** `bool(v)`. */
  predicate Truthy(v: Value) {
    match v
    case IntV(i) => i != 0
    case BoolV(b) => b
    case StrV(s) => s != []
    case TimeV(t) => t != 0
    case ListV(xs) => xs != []
    case NoneV => false
  }

  /** The integer `v` is equal to, if any: `bool` is a subclass of `int`, nothing else compares
      equal to an int. */
  function AsInt(v: Value): (r: Option<int>)
    ensures r.Some? <==> v.IntV? || v.BoolV?
  {
    match v
    case IntV(i) => Some(i)
    case BoolV(b) => Some(if b then 1 else 0)
    case _ => None
  }

  /** `v + n` for an int `n`: a TypeError unless `v` is an int or a bool. */
  function AddInt(v: Value, n: int): (r: Result<int>)
    ensures r.Ok? <==> AsInt(v).Some?
    ensures r.Ok? ==> r.value == AsInt(v).value + n
  {
    match AsInt(v)
    case Some(i) => Ok(i + n)
    case None => Err(TypeError)
  }

  /** A field declared with an enum type.  Nothing checks the declaration, so it holds either a
      member of the enum (`ConditionScope.ACTIVITY`) or whatever raw value the caller put there
      (JSON delivers the `.value` string).  A member never compares equal to a raw value. */
  datatype Tag = Member(enum: string, name: string) | Raw(v: Value)

  /** A parameter of a helper: its name and, if it has one, its default. */
  datatype Param = Param(name: string, default: Option<Value>)

  function Names(params: seq<Param>): (ns: seq<string>)
    ensures |ns| == |params| && forall j :: 0 <= j < |params| ==> ns[j] == params[j].name
  {
    if params == [] then [] else [params[0].name] + Names(params[1..])
  }

  /** The keyword arguments of a call are acceptable: every key names a parameter that was not
      already passed positionally, and every parameter without a default is given. */
  predicate Bindable(taken: seq<string>, params: seq<Param>, args: Dict<string, Value>) {
    && (forall k :: k in Keys(args) ==> k in Names(params) && k !in taken)
    && (forall j :: 0 <= j < |params| ==> params[j].default.Some? || params[j].name in Keys(args))
  }

  /** The value a parameter receives: the keyword argument if given, else the default. */
  function ArgOf(p: Param, args: Dict<string, Value>): Value
    requires p.default.Some? || p.name in Keys(args)
  {
    GetSpec(args, p.name);
    match Get(args, p.name)
    case Some(v) => v
    case None => p.default.value
  }

  function Fill(params: seq<Param>, args: Dict<string, Value>): (vs: seq<Value>)
    requires forall j :: 0 <= j < |params| ==> params[j].default.Some? || params[j].name in Keys(args)
    ensures |vs| == |params|
    ensures forall j :: 0 <= j < |params| ==> vs[j] == ArgOf(params[j], args)
  {
    if params == [] then [] else [ArgOf(params[0], args)] + Fill(params[1..], args)
  }

  /** `f(*taken, **args)` for a function whose remaining parameters are `params`: a TypeError for
      an unexpected keyword, a keyword that repeats a positional argument, or a missing required
      parameter; otherwise the values the parameters receive, in order. */
  function Bind(taken: seq<string>, params: seq<Param>, args: Dict<string, Value>): (r: Result<seq<Value>>)
    ensures r.Ok? <==> Bindable(taken, params, args)
    ensures r.Err? ==> r.error == TypeError
    ensures r.Ok? ==> |r.value| == |params|
    ensures r.Ok? ==> forall j :: 0 <= j < |params| ==>
      r.value[j] == ArgOf(params[j], args)
  {
    if Bindable(taken, params, args) then Ok(Fill(params, args)) else Err(TypeError)
  }

  function Required(name: string): Param { Param(name, None) }
  function Defaulted(name: string, v: Value): Param { Param(name, Some(v)) }
}
