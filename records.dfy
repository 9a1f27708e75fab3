/** The records of `src/models/model.py` (and, because the serializer builds them too, the
    dataclasses of `src/models/solver_model.py`) as dynamically typed Python values.

    A dataclass instance is a `PObj`: its class and its `__dict__`, in field order.  Nothing
    checks a field's declared type when an instance is built, so every field holds a `PyVal`;
    the declared types (`FieldType`) matter only to the serializer.  An enum member carries its
    name and its value, as `member.name` and `member.value` do. */
module Records {
  import opened Wrappers
  import opened PyDict
  import opened Text

  datatype EnumCls =
    // src/models/model.py
    | ClientType | ClientMaritalType | ClientSex | ResourceTypes | ResourceRoomTypes
    | ResourceLocations | ConditionTypes | CriteriaTypes
    // src/models/solver_model.py
    | SmClientType | ConditionScope | ActivityConditionOption | ActivityConditionOptionType
    | RoomConditionOption | RoomConditionOptionType

  /** The dataclasses' names; the `Sm` ones are those of the solver model. */
  datatype ClassName =
    | Resource | TimeAllocation | Activity | BetweenValues | Criteria | Condition
    | GeneralCondition | Assessment | AssessmentActivity | ClientElite | ClientUltimate
    | ScenarioActionData | ScenarioAction | ScenarioActivity | TransferActivity | ClientScenario
    | SmCondition | SmRoom | SmActivityRoom | SmActivity | SmAssessment | SmClient

  /** A `datetime` without time zone. */
  datatype DateTime = DateTime(year: nat, month: nat, day: nat, hour: nat, minute: nat, second: nat, micro: nat)

  datatype Member = Member(cls: EnumCls, name: string, value: PyVal)

  datatype PyVal =
    | PNone
    | PBool(b: bool)
    | PInt(i: int)
    | PStr(s: string)
    | PList(items: seq<PyVal>)
    | PDict(entries: Dict<string, PyVal>)
    | PEnum(m: Member)
    | PTime(dt: DateTime)
    | PObj(cls: Class, attrs: Dict<string, PyVal>)

  // Enums.

  /** A member whose value is its own name. */
  function S(name: string): (string, PyVal) { (name, PStr(name)) }

  /** Each enum's members, in declaration order, with their values. */
  function Table(e: EnumCls): seq<(string, PyVal)> {
    match e
    case ClientType => [S("OPTIMAL"), S("ULTIMATE")]
    case ClientMaritalType => [S("SINGLE"), S("COUPLE")]
    case ClientSex => [S("MALE"), S("FEMALE")]
    case ResourceTypes => [S("CLIENT"), S("OTHER")]
    case ResourceRoomTypes =>
      [ S("SINGLE_CLIENT_ROOM"), S("DOUBLE_CLIENT_ROOM"), S("DOUBLE_ACCESSIBLE"), S("ULTRASOUND_ROOM"),
        ("MRI_15T_ROOM", PStr("MRI_1.5T_ROOM")), S("MRI_3T_ROOM"), S("CARDIAC_ROOM"), S("DOCTOR_ROOM"),
        S("EYES_AND_EARS_ROOM"), S("PHLEBOTOMY_ROOM"), S("RADIOLOGY_ROOM"), S("PURE_SPORTS_ROOM") ]
    case ResourceLocations => [("LOWER_LEVEL", PInt(0)), ("UPPER_LEVEL", PInt(1)), ("PURE_SPORTS", PInt(2))]
    case ConditionTypes =>
      [S("BEFORE"), S("AFTER"), S("BETWEEN"), S("WITHIN"), S("IN_FIXED_ORDER_AS"), S("RIGHT_AFTER")]
    case CriteriaTypes => [S("ACTIVITY"), S("TIME"), S("ORDER")]
    case SmClientType => [S("ELITE"), S("ULTIMATE")]
    case ConditionScope => [S("ACTIVITY"), S("ROOM")]
    case ActivityConditionOption =>
      [ S("BEFORE"), S("AFTER"), S("RIGHT_AFTER"), S("RIGHT_BEFORE"), S("BETWEEN"), S("WITHIN_AFTER"),
        S("WITHIN_BEFORE"), S("IN_FIXED_ORDER_AS") ]
    case ActivityConditionOptionType => [S("ACTIVITY"), S("TIME"), S("ORDER")]
    case RoomConditionOption => [S("MAXIMUM"), S("SAME"), S("UNIQUE")]
    case RoomConditionOptionType => [S("ACTIVITY"), S("CLIENT")]
  }

  predicate IsMember(m: Member) {
    (m.name, m.value) in Table(m.cls)
  }

  /** Values Python can hash: lists, dicts and dataclass instances (which define `__eq__` and
      are not frozen) cannot be dict keys. */
  predicate Hashable(v: PyVal) {
    !(v.PList? || v.PDict? || v.PObj?)
  }

  /** The number a value stands for in a comparison: `bool` is a subclass of `int`. */
  function Num(v: PyVal): Option<int> {
    match v
    case PInt(i) => Some(i)
    case PBool(b) => Some(if b then 1 else 0)
    case _ => None
  }

  /** Python's `==` on the values enum lookups compare: numbers by value (`True == 1`),
      everything else structurally. */
  predicate PyEq(a: PyVal, b: PyVal) {
    if Num(a).Some? && Num(b).Some? then Num(a) == Num(b) else a == b
  }

  function FirstWithValue(e: EnumCls, t: seq<(string, PyVal)>, v: PyVal): (r: Option<Member>)
    ensures r.Some? ==> (r.value.name, r.value.value) in t && r.value.cls == e && PyEq(r.value.value, v)
    ensures r.None? ==> forall j :: 0 <= j < |t| ==> !PyEq(t[j].1, v)
  {
    if t == [] then None
    else if PyEq(t[0].1, v) then Some(Member(e, t[0].0, t[0].1))
    else FirstWithValue(e, t[1..], v)
  }

  /** `E(v)`: the member whose value equals `v`, a ValueError when there is none. */
  function ByValue(e: EnumCls, v: PyVal): (r: Result<Member>)
    ensures r.Ok? ==> IsMember(r.value) && r.value.cls == e && PyEq(r.value.value, v)
    ensures r.Err? ==> r.error.ValueError? && forall j :: 0 <= j < |Table(e)| ==> !PyEq(Table(e)[j].1, v)
  {
    match FirstWithValue(e, Table(e), v)
    case Some(m) => Ok(m)
    case None => Err(ValueError("not a valid member"))
  }

  /** No two members of one enum have equal values. */
  predicate ValuesDistinct(t: seq<(string, PyVal)>) {
    forall i, j :: 0 <= i < j < |t| ==> !PyEq(t[i].1, t[j].1)
  }

  lemma TableDistinct(e: EnumCls)
    ensures ValuesDistinct(Table(e))
  {
    match e
    case ResourceRoomTypes => RoomTypesDistinct();
    case ActivityConditionOption => OptionsDistinct();
    case ResourceLocations =>
    case _ => StrsDistinct(Table(e));
  }

  lemma RoomTypesDistinct()
    ensures ValuesDistinct(Table(ResourceRoomTypes))
  {
    StrsDistinct(Table(ResourceRoomTypes));
  }

  lemma OptionsDistinct()
    ensures ValuesDistinct(Table(ActivityConditionOption))
  {
    StrsDistinct(Table(ActivityConditionOption));
  }

  /** String values are equal only when they are the same string. */
  lemma StrsDistinct(t: seq<(string, PyVal)>)
    requires forall i :: 0 <= i < |t| ==> t[i].1.PStr?
    requires forall i, j :: 0 <= i < j < |t| ==> t[i].1.s != t[j].1.s
    ensures ValuesDistinct(t)
  { }

  lemma {:induction false} FirstOfDistinct(e: EnumCls, t: seq<(string, PyVal)>, j: nat)
    requires ValuesDistinct(t) && j < |t|
    ensures FirstWithValue(e, t, t[j].1) == Some(Member(e, t[j].0, t[j].1))
  {
    if j > 0 {
      assert !PyEq(t[0].1, t[j].1);
      FirstOfDistinct(e, t[1..], j - 1);
    }
  }

  /** Looking a member up by its own value gives the member back: `E(m.value) is m`. */
  lemma ByValueOfMember(m: Member)
    requires IsMember(m)
    ensures ByValue(m.cls, m.value) == Ok(m)
  {
    var t := Table(m.cls);
    var j :| 0 <= j < |t| && t[j] == (m.name, m.value);
    TableDistinct(m.cls);
    FirstOfDistinct(m.cls, t, j);
  }

  /** `ResourceLocations` has the values 0, 1 and 2, so exactly those numbers name a location. */
  lemma Locations(v: PyVal)
    ensures ByValue(ResourceLocations, v).Ok? <==> Num(v).Some? && 0 <= Num(v).value <= 2
    ensures ByValue(ResourceLocations, v).Ok? ==> ByValue(ResourceLocations, v).value.value == PInt(Num(v).value)
  { }

  // Dataclass declarations.

  /** A field's declared type, as `serialize_as_dataclass` inspects it. */
  datatype FieldType =
    | IntT | StrT | BoolT | DictT | TimeT
    | EnumT(e: EnumCls)
    | ClsT(c: Class)
    /** `List[elem]` */
    | ListT(elem: FieldType)
    /** `a | b | ...` */
    | UnionT(members: seq<FieldType>)
    /** `None` inside a union, which is `NoneType` at run time. */
    | NoneT

  /** `default_factory=`: `dict`, `list` or a dataclass called with no arguments. */
  datatype Factory = NewDict | NewList | NewRecord(c: Class)

  datatype Default = Required | Given(v: PyVal) | Made(f: Factory)

  datatype Field = Field(name: string, ty: FieldType, default: Default)

  /** A dataclass: its name and `dataclasses.fields`, in declaration order (inherited fields
      first).  No class refers to itself, so a class is a finite value. */
  datatype Class = Class(name: ClassName, fields: seq<Field>)

  function BaseFields(): seq<Field> {
    [Field("created", TimeT, Required), Field("updated", TimeT, Required), Field("deleted", BoolT, Required)]
  }

  function ActivityFields(): seq<Field> {
    BaseFields() +
    [ Field("activity_id", StrT, Required), Field("room_type", StrT, Required), Field("resource_type", EnumT(ResourceTypes), Required),
      Field("activity_name", StrT, Required), Field("activity_color", StrT, Required),
      Field("is_gender_time_allocated", BoolT, Given(PBool(false))), Field("enabled", BoolT, Given(PBool(true))),
      Field("time_allocations", ClsT(TimeAllocationClass()), Made(NewRecord(TimeAllocationClass()))),
      Field("mandatory_conditions_count", IntT, Given(PInt(0))), Field("optional_conditions_count", IntT, Given(PInt(0))),
      Field("data", DictT, Made(NewDict)) ]
  }

  function TierFields(): seq<Field> {
    [ Field("single_male", IntT, Given(PInt(0))), Field("single_female", IntT, Given(PInt(0))),
      Field("couple_male_female", IntT, Given(PInt(0))), Field("couple_male_male", IntT, Given(PInt(0))),
      Field("couple_female_female", IntT, Given(PInt(0))) ]
  }

  function ResourceClass(): Class {
    Class(Resource,
    BaseFields() +
    [ Field("resource_id", StrT, Required), Field("resource_name", StrT, Required), Field("type", EnumT(ResourceTypes), Required),
      Field("room_type", EnumT(ResourceRoomTypes), Required), Field("location", IntT, Required),
      Field("available", BoolT, Given(PBool(true))), Field("data", DictT, Made(NewDict)) ]
    )
  }

  function TimeAllocationClass(): Class {
    Class(TimeAllocation,
    [ Field("male", UnionT([IntT, NoneT]), Given(PNone)), Field("female", UnionT([IntT, NoneT]), Given(PNone)), Field("default_time", UnionT([IntT, NoneT]), Given(PNone)) ]
    )
  }

  function BetweenValuesClass(): Class {
    Class(BetweenValues,
    [ Field("start", UnionT([StrT, NoneT]), Given(PNone)), Field("end", UnionT([StrT, NoneT]), Given(PNone)) ]
    )
  }

  function CriteriaClass(): Class {
    Class(Criteria,
    [ Field("criteria_type", EnumT(CriteriaTypes), Required), Field("between_values", ClsT(BetweenValuesClass()), Required), Field("value", StrT, Required) ]
    )
  }

  function ConditionClass(): Class {
    Class(Condition,
    BaseFields() +
    [ Field("condition_id", StrT, Required), Field("activity_id", StrT, Required), Field("assessment_id", StrT, Required),
      Field("type", EnumT(ConditionTypes), Required), Field("enabled", BoolT, Given(PBool(true))),
      Field("generate", BoolT, Given(PBool(false))), Field("mandatory", BoolT, Given(PBool(false))),
      Field("criteria", ClsT(CriteriaClass()), Made(NewRecord(CriteriaClass()))), Field("data", DictT, Made(NewDict)) ]
    )
  }

  function GeneralConditionClass(): Class {
    Class(GeneralCondition,
    BaseFields() +
    [ Field("general_condition_id", StrT, Required), Field("general_condition_title", StrT, Required),
      Field("enabled", BoolT, Given(PBool(true))), Field("mandatory", BoolT, Given(PBool(false))), Field("data", DictT, Made(NewDict)) ]
    )
  }

  function AssessmentClass(): Class {
    Class(Assessment,
    BaseFields() +
    [ Field("assessment_id", StrT, Required), Field("assessment_name", StrT, Required), Field("enabled", BoolT, Given(PBool(false))),
      Field("data", DictT, Made(NewDict)) ]
    )
  }

  function AssessmentActivityClass(): Class {
    Class(AssessmentActivity,
    BaseFields() +
    [ Field("assessment_activity_id", StrT, Required), Field("assessment_id", StrT, Required), Field("activity_id", StrT, Required),
      Field("enabled", BoolT, Given(PBool(false))), Field("data", DictT, Made(NewDict)) ]
    )
  }

  function ScenarioActionDataClass(): Class {
    Class(ScenarioActionData,
    [ Field("out_order_rooms", ListT(StrT), Made(NewList)),
      Field("client_elite", ClsT(ClientEliteClass()), Made(NewRecord(ClientEliteClass()))),
      Field("client_ultimate", ClsT(ClientUltimateClass()), Made(NewRecord(ClientUltimateClass()))) ]
    )
  }

  function ScenarioActionClass(): Class {
    Class(ScenarioAction,
    [ Field("first_client_arrival_time", StrT, Required), Field("max_gap", IntT, Given(PInt(10))),
      Field("total_male", UnionT([IntT, NoneT]), Given(PNone)), Field("total_female", UnionT([IntT, NoneT]), Given(PNone)),
      Field("doctors_on_duty", UnionT([IntT, NoneT]), Given(PNone)), Field("allow_simultaneous_transfers", BoolT, Given(PBool(false))),
      Field("data", ClsT(ScenarioActionDataClass()), Made(NewRecord(ScenarioActionDataClass()))) ]
    )
  }

  function ScenarioActivityClass(): Class {
    Class(ScenarioActivity,
    ActivityFields() +
    [ Field("conditions", ListT(ClsT(ConditionClass())), Made(NewList)), Field("movable", BoolT, Given(PBool(false))),
      Field("assigned_room", ClsT(ResourceClass()), Made(NewRecord(ResourceClass()))), Field("assigned_time", IntT, Given(PInt(0))) ]
    )
  }

  function TransferActivityClass(): Class {
    Class(TransferActivity,
    [ Field("activity_name", StrT, Required), Field("time_allocations", ClsT(TimeAllocationClass()), Made(NewRecord(TimeAllocationClass()))),
      Field("movable", UnionT([BoolT, NoneT]), Given(PNone)), Field("assigned_time", UnionT([IntT, NoneT]), Given(PNone)),
      Field("conditions", ListT(ClsT(ConditionClass())), Made(NewList)) ]
    )
  }

  function ClientScenarioClass(): Class {
    Class(ClientScenario,
    [ Field("client_number", IntT, Required), Field("client_type", EnumT(ClientType), Required), Field("type", EnumT(ClientMaritalType), Required),
      Field("sex", EnumT(ClientSex), Required), Field("single_client_no", IntT, Required), Field("couple_client_no", IntT, Required),
      Field("activities", ListT(UnionT([ClsT(ScenarioActivityClass()), ClsT(TransferActivityClass())])), Made(NewList)),
      Field("client_room", UnionT([ClsT(ResourceClass()), NoneT]), Given(PNone)), Field("start_time", UnionT([StrT, NoneT]), Given(PNone)) ]
    )
  }

  function SmConditionClass(): Class {
    Class(SmCondition,
    [ Field("scope", EnumT(ConditionScope), Required),
      Field("option", UnionT([EnumT(ActivityConditionOption), EnumT(RoomConditionOption)]), Required),
      Field("option_type", UnionT([EnumT(ActivityConditionOptionType), NoneT]), Required), Field("args", DictT, Required) ]
    )
  }

  function SmRoomClass(): Class {
    Class(SmRoom,
    [ Field("id", IntT, Required), Field("name", StrT, Required), Field("floor", IntT, Required), Field("conditions", ListT(ClsT(SmConditionClass())), Required) ]
    )
  }

  function SmActivityRoomClass(): Class {
    Class(SmActivityRoom,
    [ Field("room", ClsT(SmRoomClass()), Required), Field("duration", IntT, Required) ]
    )
  }

  function SmActivityClass(): Class {
    Class(SmActivity,
    [ Field("id", IntT, Required), Field("name", StrT, Required), Field("conditions", ListT(ClsT(SmConditionClass())), Required),
      Field("rooms", ListT(ClsT(SmActivityRoomClass())), Required) ]
    )
  }

  function SmAssessmentClass(): Class {
    Class(SmAssessment,
    [ Field("id", IntT, Required), Field("name", StrT, Required), Field("activities", ListT(ClsT(SmActivityClass())), Required), Field("quantity", IntT, Required) ]
    )
  }

  function SmClientClass(): Class {
    Class(SmClient,
    [ Field("id", IntT, Required), Field("assessment", ClsT(SmAssessmentClass()), Required) ]
    )
  }

  function ActivityClass(): Class {
    Class(Activity, ActivityFields())
  }

  function ClientEliteClass(): Class {
    Class(ClientElite, TierFields())
  }

  function ClientUltimateClass(): Class {
    Class(ClientUltimate, TierFields())
  }

  /** `k` names one of the fields. */
  predicate IsField(k: string, fs: seq<Field>) {
    fs != [] && (fs[0].name == k || IsField(k, fs[1..]))
  }

  /** Every keyword names a field. */
  predicate AllKnown(args: Dict<string, PyVal>, fs: seq<Field>) {
    args == [] || (IsField(args[0].0, fs) && AllKnown(args[1..], fs))
  }

  /** `solver_model.MODELS`. */
  predicate IsSmModel(c: Class) {
    c.name.SmCondition? || c.name.SmRoom? || c.name.SmActivityRoom? || c.name.SmActivity? ||
    c.name.SmAssessment? || c.name.SmClient?
  }

  /** `model.MODELS`: every class of `src/models/model.py` but `TransferActivity`. */
  predicate IsModel(c: Class) {
    !c.name.TransferActivity? && !IsSmModel(c)
  }

  /** Subclasses of `Record`, which have `to_json`: the classes of `src/models/model.py`. */
  predicate IsRecord(c: Class) {
    !IsSmModel(c)
  }

  // Construction.

  /** The value a field receives from a call: the keyword argument, else its default (a
      factory is called then). */
  function FieldArg(f: Field, args: Dict<string, PyVal>): Result<PyVal>
    decreases f, 0
  {
    match Get(args, f.name)
    case Some(v) => Ok(v)
    case None =>
      match f.default
      case Required => Err(TypeError)
      case Given(v) => Ok(v)
      case Made(NewDict) => Ok(PDict([]))
      case Made(NewList) => Ok(PList([]))
      case Made(NewRecord(d)) => Construct(d, [])
  }

  function BindFields(fs: seq<Field>, args: Dict<string, PyVal>): (r: Result<Dict<string, PyVal>>)
    ensures r.Ok? ==> |r.value| == |fs|
    decreases fs
  {
    if fs == [] then Ok([])
    else
      var v :- FieldArg(fs[0], args);
      var rest :- BindFields(fs[1..], args);
      Ok([(fs[0].name, v)] + rest)
  }

  /** `c(**args)`: a TypeError for a keyword that is not a field or a missing required field;
      otherwise the instance, whose `__dict__` lists the fields in order. */
  function Construct(c: Class, args: Dict<string, PyVal>): (r: Result<PyVal>)
    ensures r.Ok? ==> r.value.PObj? && r.value.cls == c && |r.value.attrs| == |c.fields|
    ensures !AllKnown(args, c.fields) ==> r == Err(TypeError)
    decreases c
  {
    if !AllKnown(args, c.fields) then Err(TypeError)
    else
      var attrs :- BindFields(c.fields, args);
      Ok(PObj(c, attrs))
  }

  /** `getattr(o, name)`. */
  function GetAttr(o: PyVal, name: string): (r: Result<PyVal>)
    ensures r.Ok? <==> o.PObj? && name in Keys(o.attrs)
  {
    if o.PObj? then
      GetSpec(o.attrs, name);
      match Get(o.attrs, name)
      case Some(v) => Ok(v)
      case None => Err(AttributeError)
    else Err(AttributeError)
  }

  /** No two fields share a name, as in every dataclass. */
  predicate NamesDistinct(fs: seq<Field>) {
    forall i, j :: 0 <= i < j < |fs| ==> fs[i].name != fs[j].name
  }

  lemma ScenarioActionNames()
    ensures NamesDistinct(ScenarioActionClass().fields)
  { }

  /** A built instance holds, under each field's name, the value that field received. */
  lemma {:induction false} BindAt(fs: seq<Field>, args: Dict<string, PyVal>, j: nat, r: Dict<string, PyVal>)
    requires BindFields(fs, args) == Ok(r) && j < |fs|
    ensures j < |r| && r[j].0 == fs[j].name && FieldArg(fs[j], args) == Ok(r[j].1)
  {
    if j > 0 {
      BindAt(fs[1..], args, j - 1, BindFields(fs[1..], args).value);
    }
  }

  /** A field without an argument takes its default; a factory is called. */
  lemma DefaultArg(f: Field, args: Dict<string, PyVal>)
    requires f.name !in Keys(args)
    ensures f.default.Given? ==> FieldArg(f, args) == Ok(f.default.v)
    ensures f.default == Made(NewDict) ==> FieldArg(f, args) == Ok(PDict([]))
    ensures f.default == Made(NewList) ==> FieldArg(f, args) == Ok(PList([]))
    ensures f.default.Made? && f.default.f.NewRecord? ==> FieldArg(f, args) == Construct(f.default.f.c, [])
    ensures f.default.Required? ==> FieldArg(f, args) == Err(TypeError)
  {
    GetSpec(args, f.name);
  }

  /** A field given as a keyword takes the argument. */
  lemma GivenArg(f: Field, args: Dict<string, PyVal>)
    requires f.name in Keys(args)
    ensures Get(args, f.name).Some? && FieldArg(f, args) == Ok(Get(args, f.name).value)
  {
    GetSpec(args, f.name);
  }

  /** Field `j` of an instance holds its argument when one is given, else its default. */
  lemma InstanceField(c: Class, args: Dict<string, PyVal>, j: nat, o: PyVal)
    requires Construct(c, args) == Ok(o) && j < |c.fields| && NamesDistinct(c.fields)
    ensures GetAttr(o, c.fields[j].name) == FieldArg(c.fields[j], args)
  {
    BindAt(c.fields, args, j, o.attrs);
    forall i | 0 <= i < j
      ensures o.attrs[i].0 != o.attrs[j].0
    {
      BindAt(c.fields, args, i, o.attrs);
    }
    GetAt(o.attrs, j);
  }

  /** A scenario action built without a `max_gap` has a ten-minute maximum gap. */
  lemma MaxGapDefault(args: Dict<string, PyVal>, o: PyVal)
    requires Construct(ScenarioActionClass(), args) == Ok(o) && "max_gap" !in Keys(args)
    ensures GetAttr(o, "max_gap") == Ok(PInt(10))
  {
    var c := ScenarioActionClass();
    ScenarioActionNames();
    InstanceField(c, args, 1, o);
    DefaultArg(c.fields[1], args);
  }

  /** A scenario action built without `allow_simultaneous_transfers` does not allow them. */
  lemma TransfersDefault(args: Dict<string, PyVal>, o: PyVal)
    requires Construct(ScenarioActionClass(), args) == Ok(o) && "allow_simultaneous_transfers" !in Keys(args)
    ensures GetAttr(o, "allow_simultaneous_transfers") == Ok(PBool(false))
  {
    var c := ScenarioActionClass();
    ScenarioActionNames();
    InstanceField(c, args, 5, o);
    DefaultArg(c.fields[5], args);
  }

  /** A class whose first field has no default cannot be made by a default factory: calling
      `Criteria()` or `Resource()` raises a TypeError. */
  lemma BrokenFactories()
    ensures Construct(CriteriaClass(), []) == Err(TypeError)
    ensures Construct(ResourceClass(), []) == Err(TypeError)
  {
    RequiredFirst(CriteriaClass());
    RequiredFirst(ResourceClass());
  }

  /** With no arguments, a class whose first field is required cannot be built. */
  lemma RequiredFirst(c: Class)
    requires c.fields != [] && c.fields[0].default.Required?
    ensures Construct(c, []) == Err(TypeError)
  {
    DefaultArg(c.fields[0], []);
  }

  /** So a `Condition` built without `criteria` raises too. */
  lemma ConditionNeedsCriteria(args: Dict<string, PyVal>)
    requires "criteria" !in Keys(args)
    ensures Construct(ConditionClass(), args).Err?
  {
    var c := ConditionClass();
    BrokenFactories();
    DefaultArg(c.fields[10], args);
    BindNeedsField(c.fields, args, 10);
  }

  /** And so does a `ScenarioActivity` built without `assigned_room`. */
  lemma ScenarioActivityNeedsRoom(args: Dict<string, PyVal>)
    requires "assigned_room" !in Keys(args)
    ensures Construct(ScenarioActivityClass(), args).Err?
  {
    var c := ScenarioActivityClass();
    BrokenFactories();
    DefaultArg(c.fields[16], args);
    BindNeedsField(c.fields, args, 16);
  }

  lemma {:induction false} BindNeedsField(fs: seq<Field>, args: Dict<string, PyVal>, j: nat)
    requires j < |fs| && FieldArg(fs[j], args).Err?
    ensures BindFields(fs, args).Err?
  {
    if j > 0 && FieldArg(fs[0], args).Ok? {
      BindNeedsField(fs[1..], args, j - 1);
    }
  }

  // `Record.to_json`.

  /** The key conversion `re.sub(r'\_(.)', lambda k: k.group(1).upper(), key)`: an underscore
      and the character after it (any but a newline) become that character upper-cased; the
      scan resumes after the pair, so `a__b` becomes `a_b`. */
  function CamelKey(s: string): (r: string)
    ensures |r| <= |s|
  {
    if |s| >= 2 && s[0] == '_' && s[1] != '\n' then [Upper(s[1])] + CamelKey(s[2..])
    else if s == [] then []
    else [s[0]] + CamelKey(s[1..])
  }

  /** A name without an underscore is left as it is. */
  lemma {:induction false} CamelKeyPlain(s: string)
    requires '_' !in s
    ensures CamelKey(s) == s
  {
    if s != [] {
      CamelKeyPlain(s[1..]);
    }
  }

  /** Every replaced underscore shortens the key by one: the key keeps its length exactly when
      it has no underscore followed by a character other than a newline. */
  lemma {:induction false} CamelKeyShorter(s: string, i: nat)
    requires i + 1 < |s| && s[i] == '_' && s[i + 1] != '\n'
    ensures |CamelKey(s)| < |s|
  {
    if |s| >= 2 && s[0] == '_' && s[1] != '\n' {
    } else if i > 0 {
      CamelKeyShorter(s[1..], i - 1);
    }
  }

  /** A zero-padded number followed by a separator. */
  function Seg(n: nat, w: nat, sep: char): string {
    Pad(n, w) + [sep]
  }

  /** `strftime('%Y-%m-%dT%H:%M:%S.%fZ')`.  The C library behind `strftime` on Linux writes
      the year without leading zeros; the other fields are zero-padded. */
  function Stamp(t: DateTime): string {
    Seg(t.year, 0, '-') + (Seg(t.month, 2, '-') + (Seg(t.day, 2, 'T') + (Seg(t.hour, 2, ':') +
    (Seg(t.minute, 2, ':') + (Seg(t.second, 2, '.') + Seg(t.micro, 6, 'Z'))))))
  }

  /** The ranges `datetime` enforces. */
  predicate ValidTime(t: DateTime) {
    1 <= t.year <= 9999 && 1 <= t.month <= 12 && 1 <= t.day <= 31 && t.hour < 24 &&
    t.minute < 60 && t.second < 60 && t.micro < 1000000
  }

  function Pow10(w: nat): nat {
    if w == 0 then 1 else 10 * Pow10(w - 1)
  }

  lemma {:induction false} ShowNatLength(n: nat, w: nat)
    requires 0 < w && n < Pow10(w)
    ensures |ShowNat(n)| <= w
  {
    if n >= 10 {
      ShowNatLength(n / 10, w - 1);
    }
  }

  lemma {:induction false} ShowNatLonger(n: nat, w: nat)
    requires 0 < w && Pow10(w - 1) <= n
    ensures |ShowNat(n)| >= w
  {
    if w > 1 {
      ShowNatLonger(n / 10, w - 1);
    }
  }

  /** A four-digit year needs no padding. */
  lemma YearDigits(y: nat)
    requires 1000 <= y <= 9999
    ensures Pad(y, 0) == Pad(y, 4)
  {
    assert Pow10(3) == 1000 by { assert Pow10(1) == 10 && Pow10(2) == 100; }
    ShowNatLonger(y, 4);
  }

  lemma PadLength(n: nat, w: nat)
    requires 0 < w && n < Pow10(w)
    ensures |Pad(n, w)| == w
  {
    ShowNatLength(n, w);
  }

  /** Reads `w` digits and then the separator `sep`; gives their value and the rest. */
  function ReadSeg(s: string, w: nat, sep: char): Option<(nat, string)> {
    if |s| > w && AllDigits(s[..w]) && s[w] == sep then Some((DigitsValue(s[..w]), s[w + 1..])) else None
  }

  /** A fixed-width segment reads back as the number it was made from. */
  lemma ReadSegOf(n: nat, w: nat, sep: char, rest: string)
    requires 0 < w && n < Pow10(w)
    ensures ReadSeg(Seg(n, w, sep) + rest, w, sep) == Some((n, rest))
  {
    PadLength(n, w);
    DigitsValuePad(n, w);
    var s := Seg(n, w, sep) + rest;
    assert s[..w] == Pad(n, w);
    assert s[w + 1..] == rest;
  }

  /** Reads a stamp back: seven fixed-width digit fields, each closed by its separator. */
  function ParseStamp(s: string): Option<DateTime> {
    match ReadSeg(s, 4, '-')
    case None => None
    case Some((y, s1)) =>
    match ReadSeg(s1, 2, '-')
    case None => None
    case Some((mo, s2)) =>
    match ReadSeg(s2, 2, 'T')
    case None => None
    case Some((d, s3)) =>
    match ReadSeg(s3, 2, ':')
    case None => None
    case Some((h, s4)) =>
    match ReadSeg(s4, 2, ':')
    case None => None
    case Some((mi, s5)) =>
    match ReadSeg(s5, 2, '.')
    case None => None
    case Some((se, s6)) =>
    match ReadSeg(s6, 6, 'Z')
    case None => None
    case Some((us, s7)) => if s7 == [] then Some(DateTime(y, mo, d, h, mi, se, us)) else None
  }

  /** For a four-digit year the stamp is 27 characters and determines the date and time it
      was made from. */
  lemma StampRoundTrip(t: DateTime)
    requires ValidTime(t) && 1000 <= t.year
    ensures |Stamp(t)| == 27 && ParseStamp(Stamp(t)) == Some(t)
  {
    assert Pow10(2) == 100 && Pow10(4) == 10000 && Pow10(6) == 1000000 by {
      assert Pow10(1) == 10 && Pow10(3) == 1000 && Pow10(5) == 100000;
    }
    var e: string := [];
    var s6 := Seg(t.micro, 6, 'Z');
    var s5 := Seg(t.second, 2, '.') + s6;
    var s4 := Seg(t.minute, 2, ':') + s5;
    var s3 := Seg(t.hour, 2, ':') + s4;
    var s2 := Seg(t.day, 2, 'T') + s3;
    var s1 := Seg(t.month, 2, '-') + s2;
    YearDigits(t.year);
    assert Stamp(t) == Seg(t.year, 4, '-') + s1;
    ReadSegOf(t.year, 4, '-', s1);
    ReadSegOf(t.month, 2, '-', s2);
    ReadSegOf(t.day, 2, 'T', s3);
    ReadSegOf(t.hour, 2, ':', s4);
    ReadSegOf(t.minute, 2, ':', s5);
    ReadSegOf(t.second, 2, '.', s6);
    assert s6 == s6 + e;
    ReadSegOf(t.micro, 6, 'Z', e);
  }

  /** One attribute's JSON form: a MODELS instance recursively, a list element-wise through each
      element's `to_json` (an AttributeError for an element without one), an enum member as its
      value, a datetime as its stamp, anything else as it is. */
  function Flatten(v: PyVal): Result<PyVal>
    decreases v, 1
  {
    match v
    case PObj(c, attrs) => if IsModel(c) then ToJson(v) else Ok(v)
    case PList(items) => var out :- FlattenItems(v, items); Ok(PList(out))
    case PEnum(m) => Ok(m.value)
    case PTime(t) => Ok(PStr(Stamp(t)))
    case _ => Ok(v)
  }

  function FlattenItems(ghost parent: PyVal, items: seq<PyVal>): (r: Result<seq<PyVal>>)
    requires forall x :: x in items ==> x < parent
    ensures r.Ok? ==> |r.value| == |items|
    decreases parent, 0, |items|
  {
    if items == [] then Ok([])
    else
      var x := items[0];
      assert x in items;
      assert forall y :: y in items[1..] ==> y in items;
      var first :- if x.PObj? && IsRecord(x.cls) then ToJson(x) else Err(AttributeError);
      var rest :- FlattenItems(parent, items[1..]);
      Ok([first] + rest)
  }

  /** `o.to_json()` for a `Record`: each attribute under its converted name, in `__dict__` order;
      a later attribute whose name converts to the same key overwrites the earlier value. */
  function ToJson(o: PyVal): (r: Result<PyVal>)
    requires o.PObj?
    ensures r.Ok? ==> r.value.PDict?
    decreases o, 0
  {
    var entries :- JsonEntries(o, o.attrs, []);
    Ok(PDict(entries))
  }

  function JsonEntries(ghost o: PyVal, attrs: Dict<string, PyVal>, acc: Dict<string, PyVal>): Result<Dict<string, PyVal>>
    requires forall x :: x in attrs ==> x.1 < o
    decreases o, 0, |attrs|
  {
    if attrs == [] then Ok(acc)
    else
      var v :- Flatten(attrs[0].1);
      JsonEntries(o, attrs[1..], Put(acc, CamelKey(attrs[0].0), v))
  }

  /** Keys no attribute converts to keep the value they had before the attributes were read. */
  lemma {:induction false} EntriesOther(o: PyVal, attrs: Dict<string, PyVal>, acc: Dict<string, PyVal>, r: Dict<string, PyVal>, k: string)
    requires forall x :: x in attrs ==> x.1 < o
    requires JsonEntries(o, attrs, acc) == Ok(r)
    requires forall i :: 0 <= i < |attrs| ==> CamelKey(attrs[i].0) != k
    ensures Get(r, k) == Get(acc, k)
  {
    if attrs != [] {
      var v := Flatten(attrs[0].1).value;
      assert forall x :: x in attrs[1..] ==> x in attrs;
      EntriesOther(o, attrs[1..], Put(acc, CamelKey(attrs[0].0), v), r, k);
      GetPutOther(acc, CamelKey(attrs[0].0), v, k);
    }
  }

  /** The last attribute converting to a key decides the value under that key. */
  lemma {:induction false} EntriesLast(o: PyVal, attrs: Dict<string, PyVal>, acc: Dict<string, PyVal>, r: Dict<string, PyVal>, j: nat)
    requires forall x :: x in attrs ==> x.1 < o
    requires JsonEntries(o, attrs, acc) == Ok(r) && j < |attrs|
    requires forall i :: j < i < |attrs| ==> CamelKey(attrs[i].0) != CamelKey(attrs[j].0)
    ensures Flatten(attrs[j].1).Ok? && Get(r, CamelKey(attrs[j].0)) == Some(Flatten(attrs[j].1).value)
  {
    var v := Flatten(attrs[0].1).value;
    var acc' := Put(acc, CamelKey(attrs[0].0), v);
    assert forall x :: x in attrs[1..] ==> x in attrs;
    if j == 0 {
      EntriesOther(o, attrs[1..], acc', r, CamelKey(attrs[0].0));
      GetPutSame(acc, CamelKey(attrs[0].0), v);
    } else {
      EntriesLast(o, attrs[1..], acc', r, j - 1);
    }
  }

  /** Every attribute shows up under its converted name, flattened, unless a later attribute's
      name converts to the same key. */
  lemma ToJsonAttr(o: PyVal, r: PyVal, j: nat)
    requires o.PObj? && ToJson(o) == Ok(r) && j < |o.attrs|
    requires forall i :: j < i < |o.attrs| ==> CamelKey(o.attrs[i].0) != CamelKey(o.attrs[j].0)
    ensures Flatten(o.attrs[j].1).Ok? && Get(r.entries, CamelKey(o.attrs[j].0)) == Some(Flatten(o.attrs[j].1).value)
  {
    assert forall x :: x in o.attrs ==> x.1 < o;
    EntriesLast(o, o.attrs, [], r.entries, j);
  }

  /** An enum attribute is written as its value. */
  lemma ToJsonEnum(o: PyVal, r: PyVal, j: nat)
    requires o.PObj? && ToJson(o) == Ok(r) && j < |o.attrs| && o.attrs[j].1.PEnum?
    requires forall i :: j < i < |o.attrs| ==> CamelKey(o.attrs[i].0) != CamelKey(o.attrs[j].0)
    ensures Get(r.entries, CamelKey(o.attrs[j].0)) == Some(o.attrs[j].1.m.value)
  {
    ToJsonAttr(o, r, j);
  }

  /** A datetime attribute is written as its stamp. */
  lemma ToJsonTime(o: PyVal, r: PyVal, j: nat)
    requires o.PObj? && ToJson(o) == Ok(r) && j < |o.attrs| && o.attrs[j].1.PTime?
    requires forall i :: j < i < |o.attrs| ==> CamelKey(o.attrs[i].0) != CamelKey(o.attrs[j].0)
    ensures Get(r.entries, CamelKey(o.attrs[j].0)) == Some(PStr(Stamp(o.attrs[j].1.dt)))
  {
    ToJsonAttr(o, r, j);
  }

  /** An instance of a class outside `MODELS` (a `TransferActivity`, a solver-model record) is
      written as it is, not converted. */
  lemma ToJsonForeign(o: PyVal, r: PyVal, j: nat)
    requires o.PObj? && ToJson(o) == Ok(r) && j < |o.attrs|
    requires o.attrs[j].1.PObj? && !IsModel(o.attrs[j].1.cls)
    requires forall i :: j < i < |o.attrs| ==> CamelKey(o.attrs[i].0) != CamelKey(o.attrs[j].0)
    ensures Get(r.entries, CamelKey(o.attrs[j].0)) == Some(o.attrs[j].1)
  {
    ToJsonAttr(o, r, j);
  }

  /** A nested `MODELS` instance is written as its own `to_json`. */
  lemma ToJsonNested(o: PyVal, r: PyVal, j: nat)
    requires o.PObj? && ToJson(o) == Ok(r) && j < |o.attrs|
    requires o.attrs[j].1.PObj? && IsModel(o.attrs[j].1.cls)
    requires forall i :: j < i < |o.attrs| ==> CamelKey(o.attrs[i].0) != CamelKey(o.attrs[j].0)
    ensures ToJson(o.attrs[j].1).Ok? && Get(r.entries, CamelKey(o.attrs[j].0)) == Some(ToJson(o.attrs[j].1).value)
  {
    ToJsonAttr(o, r, j);
  }

  /** A list is written element by element, each element through its own `to_json`. */
  lemma {:induction false} FlattenItemsAt(parent: PyVal, items: seq<PyVal>, out: seq<PyVal>, i: nat)
    requires forall x :: x in items ==> x < parent
    requires FlattenItems(parent, items) == Ok(out) && i < |items|
    ensures items[i].PObj? && IsRecord(items[i].cls) && ToJson(items[i]) == Ok(out[i])
  {
    if i > 0 {
      assert forall y :: y in items[1..] ==> y in items;
      FlattenItemsAt(parent, items[1..], FlattenItems(parent, items[1..]).value, i - 1);
    }
  }

  /** Any list element that is not a record (a string of `out_order_rooms`, say) makes
      `to_json` raise: an AttributeError, unless an earlier element already failed. */
  lemma {:induction false} FlattenItemsFails(parent: PyVal, items: seq<PyVal>, i: nat)
    requires forall x :: x in items ==> x < parent
    requires i < |items| && !(items[i].PObj? && IsRecord(items[i].cls))
    ensures FlattenItems(parent, items).Err?
  {
    assert forall y :: y in items[1..] ==> y in items;
    if i > 0 && items[0].PObj? && IsRecord(items[0].cls) && ToJson(items[0]).Ok? {
      FlattenItemsFails(parent, items[1..], i - 1);
    }
  }
}
