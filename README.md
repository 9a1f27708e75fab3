# harley-algo clinic-day scheduler, modelled in Dafny

harley-algo builds the timetable of a clinic day. Clients arrive for an assessment: a fixed
list of activities, such as check-in, consultations, MRI, ultrasound and lunch. Each activity
can take place in one of several rooms, and the rooms are spread over floors. The program turns
the assessments into per-client lists of slots and declares OR-Tools CP-SAT variables for every
slot. It then adds the general rules (transfers between floors, gaps, no-overlap, grid times),
the per-activity and per-room conditions, and an objective. The solver's values are read back
as one schedule per client.

The repository holds three generations of the scheduler, and this project models each of them:

- the earlier scheduler, `Solver` in the top-level `solver.py`. It works on the dataclasses of
  `models.py` and pins ORDER-constrained activities to fixed slots. Modules `LegacySchedule`,
  `LegacyVariables` and `LegacyRules` hold its specification functions. Class
  `LegacyScheduler.Solver` holds its phases as methods.
- the current scheduler, `Solver` in `src/utils/solver.py`. It works on the dataclasses of
  `src/models/solver_model.py` (module `SolverModel`). Modules `ScheduleSpec`, `VariableSpec`,
  `GeneralSpec`, `ConditionSpec`, `RoomSpec` and `PhaseSpec` hold its specification functions.
  Class `Scheduler.Solver` holds its phases.
- the API-driven scheduler, `Solver` in `src/utils/solver_v2.py`. It works on the JSON objects
  of the web API. Modules `ApiSetup`, `ApiClients`, `ApiVariables`, `ApiRules` and
  `ApiGenerate` hold its specification functions. Class `ApiSolver.Solver` holds its setters
  and `generate`.

The project also models the code around the schedulers:

- the records of `src/models/model.py` (`Records`) and their `to_json`;
- the JSON-to-dataclass conversion and the solver-argument derivations of
  `src/utils/serializer.py` (`Serializer`);
- the bookkeeping of `src/controllers/controller.py` (`Controller`);
- the hint table of `src/utils/hints.py` (`Hints`).

Python's own behaviour is modelled where the code depends on it:

- `PyDict`: insertion-ordered dicts and `defaultdict(list)`;
- `PyList`: list repetition, `range`, negative indexing, `remove`;
- `Sorting`: stable `sorted` with a key;
- `Text`: string order, `split` and `join`, decimal rendering;
- `Kwargs`: `**kwargs` binding;
- `Wrappers`: the exceptions, as a `Result` error.

Every CP-SAT call becomes a record appended to the model (`CpModel`). `Holds` gives each record
its meaning over an assignment of integers to variables. The "…Meaning" lemmas therefore state
what the emitted constraints say about every solution. Methods that change state are proved
against the specification functions: each one's `ensures` gives the new state as that function
of the old state. Lemmas prove what the source promises about those functions.

## Model

| member | source | states |
|---|---|---|
| PyDict.GetSpec | src/utils/solver_v2.py:745-753 | a dict lookup finds exactly the keys of the dict, with a value stored under that key |
| PyDict.GetPutSame | src/utils/solver_v2.py:716 | after `d[k] = v` the key reads back as `v` |
| PyDict.GetPutOther | src/utils/solver_v2.py:716 | `d[k] = v` leaves every other key unchanged |
| PyDict.KeysPut | src/controllers/controller.py:28 | assignment keeps insertion order: an existing key stays where it was, a new key goes last |
| PyDict.PutPut | src/controllers/controller.py:28 | a second assignment to the same key overwrites the first |
| PyDict.AppendGetList | src/controllers/controller.py:25-27 | appending to a `defaultdict(list)` adds the value at the end of that key's list only |
| PyDict.AppendEach | src/utils/solver_v2.py:716 | appending no values leaves the dict as it was (a missing key stays missing) |
| PyDict.GetWithout | src/utils/solver_v2.py:679 | `d.pop(k)` leaves every other key's value as it was |
| PyDict.WithoutGone | src/utils/solver_v2.py:733 | in a dict without duplicate keys a popped key is gone |
| PyDict.GetListAppendAll | src/utils/solver_v2.py:745-753 | after the appends each key's list is its old list followed by the values paired with it, in order |
| PyList.Repeat | src/utils/solver.py:107-109 | `[x] * n` has `max(n, 0)` copies of `x` |
| PyList.Range | src/utils/solver.py:826 | `range(lo, hi)` lists `lo, lo+1, …, hi-1` and is empty when `hi <= lo` |
| PyList.Remove | solver.py:136 | `xs.remove(x)` succeeds iff `x` is in the list, else a ValueError |
| PyList.RemoveOne | solver.py:136 | `remove` takes out exactly one occurrence of `x` |
| PyList.RemoveFirst | solver.py:136 | `remove` takes out the first occurrence of `x` and keeps the other elements in their order |
| CpModel.SumOf | src/utils/solver.py:83-90 | `sum(vs)` is the linear expression with one unit term per variable and no offset |
| CpModel.ExactlyOneWitness | src/utils/solver.py:178 | when an `AddExactlyOne` holds, some literal is true and every other is false |
| CpModel.CountTrueOne | src/utils/solver.py:178 | under `AddExactlyOne`, a true literal makes every other literal false |
| Sorting.SortBy | src/utils/solver.py:650 | `sorted(xs, key=f)` is a permutation of `xs` |
| Sorting.SortBySorted | src/utils/solver.py:650 | `sorted(xs, key=f)` is in key order |
| Sorting.InsertMatching | src/utils/solver.py:650 | an inserted element goes ahead of every element whose key is equivalent to its own, and the others keep their order |
| Sorting.SortByStable | src/utils/solver.py:650 | `sorted` is stable: for every key, the elements with an equivalent key keep their input order |
| Sorting.PermutedKeys | src/utils/solver.py:650 | a permutation of a list permutes its keys |
| Sorting.SortedKeysUnique | src/utils/solver.py:650 | two lists sorted by the same order whose keys are the same multiset have the same keys in the same order, when the order tells keys apart |
| Text.LowerStr | src/controllers/controller.py:51 | lower-casing keeps the length and maps each character |
| Text.ParseShowInt | src/utils/serializer.py:47 | `int(str(i)) == i` |
| Text.ParseIntSpaced | src/utils/serializer.py:62 | `int(' 1_000\n') == 1000`: whitespace around the numeral and an underscore between digits are accepted |
| Text.ParseIntDoubleUnderscore | src/utils/serializer.py:62 | `int('1__0')` raises: two underscores in a row |
| Text.ParseIntSpacedSign | src/utils/serializer.py:62 | `int('- 1')` raises: nothing may stand between the sign and the digits |
| Text.SplitJoin | src/controllers/controller.py:44 | splitting a join on a separator no part contains gives the parts back |
| Text.StrLeTotal | src/utils/solver.py:650 | string order is total |
| Text.StrLeTrans | src/utils/solver.py:650 | string order is transitive |
| Text.StrLeAntisym | src/utils/solver.py:650 | string order is antisymmetric |
| PyList.Index | solver.py:135 | `xs[n]` succeeds exactly for -len <= n < len, reading position n or n + len; IndexError otherwise |
| Records.FirstWithValue | src/models/model.py:7-56 | the member found has the value looked up; none found means no member of the table has that value |
| Records.ByValue | src/models/model.py:7-56 | `E(v)` is a member of `E` whose value equals `v`, or a ValueError when no member has that value |
| Records.TableDistinct | src/models/model.py:7-56 | the members of every enum have distinct values |
| Records.ByValueOfMember | src/models/model.py:7-56 | looking a member up by its own value gives the member back (`E(m.value) is m`) |
| Records.Locations | src/models/model.py:40-43 | exactly the numbers 0, 1 and 2 name a `ResourceLocations` member, whose value is that number |
| Records.BindFields | src/models/model.py:76-214 | a bound instance has one attribute per declared field |
| Records.Construct | src/models/model.py:76-214 | `C(**args)` is an instance of `C` with one attribute per field; an unknown keyword is a TypeError |
| Records.GetAttr | src/models/model.py:76-214 | `getattr(o, name)` succeeds iff `o` is an instance with that attribute |
| Records.BindAt | src/models/model.py:76-214 | an instance holds, under each field's name and in field order, the value that field received |
| Records.DefaultArg | src/models/model.py:88-89 | a field without an argument takes its default, a factory default is called, a required field is a TypeError |
| Records.GivenArg | src/models/model.py:76-214 | a field given as a keyword takes the argument |
| Records.InstanceField | src/models/model.py:76-214 | `FieldArg`, what one field of a construction receives: field `j` of an instance holds its argument when given, else its default |
| Records.MaxGapDefault | src/models/model.py:182 | a scenario action built without `max_gap` has a ten-minute maximum gap |
| Records.TransfersDefault | src/models/model.py:186 | a scenario action built without `allow_simultaneous_transfers` does not allow them |
| Records.BrokenFactories | src/models/model.py:131-193 | the default factories `Criteria` and `Resource` raise a TypeError when called without arguments |
| Records.RequiredFirst | src/models/model.py:117-120 | a class whose first field is required cannot be built without arguments |
| Records.ConditionNeedsCriteria | src/models/model.py:131 | a `Condition` built without `criteria` raises |
| Records.ScenarioActivityNeedsRoom | src/models/model.py:193 | a `ScenarioActivity` built without `assigned_room` raises |
| Records.BindNeedsField | src/models/model.py:76-214 | a field whose argument fails makes the construction fail |
| Records.CamelKey | src/models/model.py:61 | the camelCase conversion of a key never lengthens it |
| Records.CamelKeyPlain | src/models/model.py:61 | a name without an underscore is left as it is |
| Records.CamelKeyShorter | src/models/model.py:61 | an underscore followed by a character other than a newline shortens the key |
| Records.YearDigits | src/models/model.py:69 | a four-digit year needs no padding in the `%Y` field |
| Records.PadLength | src/models/model.py:69 | a number below `10^w` padded to `w` digits has exactly `w` characters |
| Records.ReadSegOf | src/models/model.py:69 | a fixed-width segment of the stamp reads back as the number it was made from |
| Records.StampRoundTrip | src/models/model.py:69 | `Stamp`, the `strftime` of a datetime attribute: for a four-digit year the `%Y-%m-%dT%H:%M:%S.%fZ` stamp has 27 characters and determines the datetime it was made from |
| Records.FlattenItems | src/models/model.py:63-66 | `Flatten`, the value `to_json` writes for one attribute: a list attribute is written element for element |
| Records.ToJson | src/models/model.py:59-74 | `to_json` of a record is a dict |
| Records.EntriesOther | src/models/model.py:60-74 | `JsonEntries`: keys no attribute name converts to keep what they had |
| Records.EntriesLast | src/models/model.py:60-74 | `JsonEntries`, the entries `to_json` writes: the last attribute converting to a key decides that key's value |
| Records.ToJsonAttr | src/models/model.py:59-74 | every attribute shows up under its converted name, flattened, unless a later attribute converts to the same key |
| Records.ToJsonEnum | src/models/model.py:67-68 | an enum attribute is written as its value |
| Records.ToJsonTime | src/models/model.py:69-70 | a datetime attribute is written as its stamp |
| Records.ToJsonForeign | src/models/model.py:71 | `IsModel`: an instance of a class outside `MODELS` is written unchanged |
| Records.ToJsonNested | src/models/model.py:61-62 | `IsModel`, membership of `MODELS`: a nested `MODELS` instance is written as its own `to_json` |
| Records.FlattenItemsAt | src/models/model.py:63-66 | each list element is written through its own `to_json` |
| Records.FlattenItemsFails | src/models/model.py:63-66 | a list element that is not a record makes `to_json` raise |
| Serializer.FormatField | src/utils/serializer.py:118-119 | the result holds no capital letter and is at least as long as the key |
| Serializer.FormatFieldPlain | src/utils/serializer.py:118-119 | a key without capitals is returned unchanged |
| Serializer.FormatFieldUnderscore | src/utils/serializer.py:118-119 | every capital in the key leaves an underscore in the result |
| Serializer.FormatFieldOnly | src/utils/serializer.py:118-119 | the only key that formats to a name without underscores is that name itself |
| Serializer.FormatCamel | src/utils/serializer.py:118-119 | `format_field` undoes the camelCase key conversion of `Record.to_json` on snake_case names (round trip) |
| Serializer.CamelFormat | src/models/model.py:59-74 | the camelCase conversion of `to_json` undoes `format_field` on names without underscores (the other round trip) |
| Serializer.IntOf | src/utils/serializer.py:62 | `int(v)` yields an int; a string succeeds exactly when it holds a base-10 numeral (whitespace around, an optional sign, digits with single underscores between them), and otherwise is a ValueError; any other unconvertible value is a TypeError |
| Serializer.StrOf | src/utils/serializer.py:47 | `str` of a string is that string |
| Serializer.EnumOf | src/utils/serializer.py:47 | calling an enum class yields a member of that enum, or a ValueError |
| Serializer.PairOf | src/utils/serializer.py:17 | an element of `dict(xs)` is accepted iff it iterates to exactly two items, the first a string key; any other length is a ValueError |
| Serializer.DictFrom | src/utils/serializer.py:17 | `dict(xs)` succeeds iff every element is a pair |
| Serializer.DictFromLast | src/utils/serializer.py:17 | `dict(xs)` maps a key to the value of the last pair with that key and holds no key that no pair has |
| Serializer.DictOf | src/utils/serializer.py:47 | `dict(v)` copies a dict; anything else succeeds iff it is iterable and its elements are pairs; the result is always a dict |
| Serializer.DictOfStrings | src/utils/serializer.py:47 | `dict("")` and `dict([])` are empty, `dict(["ab"])` is `{'a': 'b'}`, `dict(["abc"])` a ValueError, `dict(1)` a TypeError |
| Serializer.Call | src/utils/serializer.py:37-47 | calling `NoneType`, a `List[...]` alias or a union is a TypeError; `datetime(v)` succeeds exactly on a ten-character pickled-state string (third character a month 1 to 12 once bit 7 is cleared) of Latin-1 characters, is a ValueError on such a string with a character beyond Latin-1, and a TypeError on any other value |
| Serializer.UnionFirstWins | src/utils/serializer.py:30-40 | `TryUnion`, the union loop: for a union field the first member type whose call returns decides the attribute |
| Serializer.UnionAllFail | src/utils/serializer.py:30-40 | `TryUnion`: when every member type of a union raises, the raw value is kept |
| Serializer.ClientRoomKept | src/utils/serializer.py:30-40 | an optional `Resource` field given a JSON object keeps that dict (the `Resource` call raises, `NoneType` raises) |
| Serializer.FieldIndex | src/utils/serializer.py:15-20 | the position found holds the field of that name; no position means no field has it |
| Serializer.Iter | src/utils/serializer.py:43 | iterating fails iff the value is not a list, string or dict |
| Serializer.SerializeAsDataclass | src/utils/serializer.py:14-51 | the loop over the keyword arguments computes `Serialized`, the specification of `serialize_as_dataclass`; a keyword named `o` makes the call raise a TypeError before the loop |
| Serializer.ConvertAttribute | src/utils/serializer.py:30-47 | `Convert`, the conversion of one value by its declared type: the per-attribute conversion by declared type equals `Convert` |
| Serializer.AttrsDrop | src/utils/serializer.py:22-28 | inside the loop, a keyword that names no field, or whose value is None, makes no difference to the attributes collected (a keyword named `o` still makes the call itself raise, see `SerializedKeywordO`) |
| Serializer.AttrsKnown | src/utils/serializer.py:20-49 | only names of fields end up among the attributes |
| Serializer.AttrsUntouched | src/utils/serializer.py:18-49 | an attribute no non-None keyword formats to keeps what it had |
| Serializer.AttrsGiven | src/utils/serializer.py:18-49 | the last non-None keyword formatting to a field name gives that field its converted value |
| Serializer.AttrsFail | src/utils/serializer.py:37-47 | a keyword whose conversion raises makes the whole call raise |
| Serializer.SerializedBuilds | src/utils/serializer.py:14-51 | the constructor never sees an unknown keyword: the instance is built from the converted attributes, unless a keyword is named `o`, when the call raises a TypeError |
| Serializer.SerializedKeywordO | src/utils/serializer.py:14 | a keyword argument named `o` would bind the class parameter a second time: the call raises a TypeError whatever the other keywords are |
| Serializer.SerializedGiven | src/utils/serializer.py:14-51 | a field named by the last non-None keyword holds that keyword's converted value |
| Serializer.SerializedDefault | src/utils/serializer.py:14-51 | a field no non-None keyword names holds its default |
| Serializer.BaseRecordsNeedState | src/utils/serializer.py:14-51 | a record whose first field is `Base.created: datetime` is built only when a non-None `created` keyword is given and every such keyword's value is a Latin-1 pickled-state string: any other value makes `datetime(v)` raise, and without one the required field is missing |
| Serializer.StateRoundTrip | src/utils/serializer.py:47 | `datetime(v)` on the state string a valid datetime pickles to gives back that datetime |
| Serializer.StateExample | src/utils/serializer.py:47 | `datetime('\x07\xe4\x01\x01' + six NULs)` is midnight on 1 January 2020, and so is the same string with bit 7 set on the month character |
| Serializer.ArrivalSecs | src/utils/serializer.py:56-57 | a start time is produced only from a string attribute the `%H:%M:%S` parser accepts |
| Serializer.IntAttr | src/utils/serializer.py:63-70 | `int(None)` is a TypeError |
| Serializer.SolverArgs | src/utils/serializer.py:53-76 | succeeds iff the arrival time parses, `max_gap` and `doctors_on_duty` convert and the flag exists; the dict then holds exactly the eight solver arguments in order with their values (23:59:59 end, five-minute interval and transfer, two floors) |
| Serializer.DoctorsDefault | src/utils/serializer.py:70 | a scenario action built without `doctors_on_duty` holds None there, so deriving the solver arguments raises a TypeError |
| Serializer.Sum2 | src/utils/serializer.py:100-101 | `sum((a, b))` succeeds iff both are numbers or booleans |
| Serializer.SerializeEach | src/utils/serializer.py:102-105 | one serialized assessment per input dict |
| Serializer.SerializeEachAt | src/utils/serializer.py:102-105 | the i-th result is the i-th dict serialized with `quantity` overridden |
| Serializer.OnlyKeyFor | src/utils/serializer.py:19 | in a dict with distinct keys only the key itself formats to an underscore-free name |
| Serializer.IntFieldKept | src/utils/serializer.py:14-51 | an int field given an int under its own name holds that int |
| Serializer.AssessmentQuantity | src/utils/serializer.py:98-105 | `SerializeAssessments`, `serialize_assessments`: each serialized assessment's quantity is the single clients of the elite tier for the assessment named 'Elite' and of the ultimate tier for every other |
| Hints.TableShape | src/utils/hints.py:4-40 | `HintTable`, the `HINTS` dict: every hint list holds one time per single client of its key (one Optimal and one Ultimate in a six-element mix), starts at 7:15, is strictly increasing and on five-minute marks, and has a single 'Check-in' entry |
| Hints.FormatHintsKey | src/utils/hints.py:42-43 | `(data['num_single_clients'], data['num_couple_clients'])` when the assessment's `data` dict holds both keys, a KeyError when either is missing, the error of reading `data` when the assessment has none, and a TypeError when `data` is not a dict |
| Hints.FormattedKeyMisses | src/utils/hints.py:42-43 | a formatted key is a pair and the table's keys are six-tuples, so a lookup with it never finds hints |
| Kwargs.AsInt | src/utils/solver.py:298-347 | an argument compares equal to an int exactly when it is an int or a bool |
| Kwargs.AddInt | src/utils/solver.py:390 | `order - 1` / `order + 1` succeed exactly for an int or bool argument, with the sum; TypeError otherwise |
| Kwargs.Bind | src/utils/solver.py:298-347 | `helper(client_id, **condition.args)` binds exactly when no argument repeats the client parameter, every argument names a parameter and every parameter without a default is given; then each parameter receives its argument or default, in order; TypeError otherwise |
| Controller.AssessmentObj.constructor | src/controllers/controller.py:30 | an assessment as the database returns it, with its id, name, enabled flag and `data` dict |
| Controller.BuildMaps | src/controllers/controller.py:23-28 | the loop builds exactly the names map and the ids map |
| Controller.Named | src/controllers/controller.py:25-27 | the activities listed under a name all have that name |
| Controller.FirstNames | src/controllers/controller.py:25-27 | a name is listed iff some activity has it |
| Controller.LastWithId | src/controllers/controller.py:24-28 | the activity found has the id; none found means no activity has it |
| Controller.NamesMapGroups | src/controllers/controller.py:25-27 | `NamesMap`, the names map the loop builds: each name maps to all the activities of that name, in input order |
| Controller.NamesMapOrder | src/controllers/controller.py:25-27 | `NamesMap`: the names map lists each name once, in order of first appearance |
| Controller.IdsMapLast | src/controllers/controller.py:24-28 | `IdsMap`, the ids map the loop builds: the ids map keeps, for each id, the last activity with it |
| Controller.Others | src/controllers/controller.py:43 | the other names are exactly the enabled names different from the assessment's own |
| Controller.OccursAt | src/controllers/controller.py:48-52 | an alternative that occurs in the name, ignoring case, makes the search match |
| Controller.OccursWhich | src/controllers/controller.py:48-52 | a match names an alternative that occurs in the name, ignoring case |
| Controller.PatternAlternatives | src/controllers/controller.py:44 | the pattern (a or b or …) holds the other names as its alternatives; no names give the one empty alternative of `()` |
| Controller.SearchPattern | src/controllers/controller.py:44-52 | `Search`, `re.search` with `re.IGNORECASE` on the other-names pattern: a name matches iff another enabled assessment's name occurs in it ignoring case, or there is no other enabled assessment (both directions) |
| Controller.Kept | src/controllers/controller.py:45-53 | no more groups are kept than the map has names |
| Controller.KeptExactly | src/controllers/controller.py:45-53 | every group whose name the pattern misses is kept |
| Controller.KeptOnly | src/controllers/controller.py:45-53 | every kept group belongs to a name the pattern misses |
| Controller.AloneKeepsNothing | src/controllers/controller.py:43-53 | with a single enabled assessment the pattern `()` matches every name, so it receives no activities |
| Controller.EnabledOnly | src/controllers/controller.py:32 | the kept assessments are exactly the enabled ones |
| Controller.NamesOf | src/controllers/controller.py:33 | the names of the enabled assessments, position for position |
| Controller.PreparedTwice | src/controllers/controller.py:36-53 | preparing an assessment's data twice gives what preparing it once gives |
| Controller.PrepareOne | src/controllers/controller.py:40-53 | the assessment's `data` becomes `Prepared` of its old `data`: it gains its fetched conditions, then the activity groups whose names the other-names pattern misses |
| Controller.PrepareEach | src/controllers/controller.py:36-53 | after the loop every listed assessment's `data` is what one preparation of its original `data` gives, even when it is listed twice |
| Controller.PrepareAssessments | src/controllers/controller.py:19-53 | builds the two maps and the enabled list; every enabled assessment's `data` gains its conditions and kept activity groups, a disabled one's `data` is unchanged, nothing else changes |
| ScheduleSpec.Minutes | src/utils/solver.py:27-29 | `int(td.total_seconds() // 60)` is the whole number of minutes, rounded towards minus infinity |
| ScheduleSpec.SortedByNameSpec | src/utils/solver.py:645-650 | the assessments setter keeps every assessment (same multiset) and puts them in non-decreasing name order |
| ScheduleSpec.OptionsMembers | src/utils/solver.py:97-102 | `Options`, the flattened option list of `RoomTasks` per activity: a task is among an assessment's options iff it is one of its (activity, room) pairs (both directions) |
| ScheduleSpec.OptionsSource | src/utils/solver.py:97-102 | every option comes from an (activity, room) pair |
| ScheduleSpec.OptionsHas | src/utils/solver.py:97-102 | every (activity, room) pair is an option |
| ScheduleSpec.AssessmentsStep | src/utils/solver.py:96-112 | one more assessment extends the schedules by `quantity` copies of its slot list, the offset by its quantity, its client-id entry by the next id range, and the room and assessment condition tables by its conditions |
| ScheduleSpec.AssessmentsExtend | src/utils/solver.py:96-112 | the loop's indexes after assessment `k` hold assessments `0 .. k` |
| ScheduleSpec.FirstOwner | src/utils/solver.py:69-81 | the assessment found lists the client; None iff no assessment lists it (both directions) |
| ScheduleSpec.SchedulesAt | src/utils/solver.py:107-112 | `Schedules`, the schedules the initialisation appends: with no negative quantity the number of clients is the sum of quantities and client `c` of the `k`-th range gets the `k`-th assessment's slot list |
| ScheduleSpec.SchedulesLength | src/utils/solver.py:107-112 | `Schedules`: with no negative quantity there is one schedule per client |
| ScheduleSpec.ClientIdsOf | src/utils/solver.py:111-112 | with distinct ids an assessment's entry is exactly its client range |
| ScheduleSpec.ClientIdsMissing | src/utils/solver.py:111 | an id no assessment has maps to no clients |
| ScheduleSpec.OffsetMonotone | src/utils/solver.py:112 | the running client offset never decreases |
| ScheduleSpec.OwnerOfClient | src/utils/solver.py:69-81 | `Owners`, the assessment `__get_assessment_by_client_id` returns for each client: every client of the `k`-th range is owned by the `k`-th assessment, whose slot list that client was given |
| ScheduleSpec.OwnerLookup | src/utils/solver.py:69-81 | the client-to-assessment lookup finds the `k`-th assessment for every client of its range |
| ScheduleSpec.OnlyOwnRange | src/utils/solver.py:111 | a client is listed under exactly one assessment: its own |
| ScheduleSpec.FirstOwnerAt | src/utils/solver.py:78-80 | the scan returns the only assessment listing the client |
| VariableSpec.MinMaxDuration | src/utils/solver.py:122-127 | the duration bounds hold every option's duration, and each bound is the duration of some option |
| VariableSpec.OptsStep | src/utils/solver.py:148-176 | option `k` of a multi-option slot adds its declarations, constraints and index entries after those of options `0 .. k-1` |
| VariableSpec.ClientsLastEnds | src/utils/solver.py:195 | `__last_activity_end_time_int_vars` gains, per client in order, the end of its last slot |
| VariableSpec.ClientsStep | src/utils/solver.py:119-195 | client `n` adds its slot declarations, constraints and index entries after those of clients `0 .. n-1` |
| VariableSpec.ClientsExtend | src/utils/solver.py:119-195 | a model holding clients `0 .. n-1`, extended by client `n`, holds clients `0 .. n` |
| VariableSpec.DefineVariables | src/utils/solver.py:114-195 | `__define_variables` raises (an IndexError at `activities[0]`) iff some slot of some client has no option |
| VariableSpec.SchedConsHas | src/utils/solver.py:121-193 | every constraint of a slot is among its client's constraints |
| VariableSpec.ClientsConsHas | src/utils/solver.py:119-195 | every constraint of every slot is among all clients' constraints |
| VariableSpec.DefinedSlotCons | src/utils/solver.py:114-195 | defining the variables adds the constraints of every slot of every client to the model |
| VariableSpec.OptsConsHas | src/utils/solver.py:148-176 | every constraint of an option is among its slot's constraints |
| VariableSpec.ChosenOption | src/utils/solver.py:146-178 | in a solution of a multi-option slot exactly one option literal is true and the slot takes that option's start, end, duration and room floor |
| VariableSpec.SlotMeaning | src/utils/solver.py:121-193 | in any solution a slot takes one of its options, ends at start plus duration, lies within the horizon and starts no earlier than the previous slot ends |
| GeneralSpec.ExactlyOnes | src/utils/solver.py:217-219 | one `AddExactlyOne` per activity of the client's assessment, over that (client, activity)'s literals, in activity order |
| GeneralSpec.ExactlyOnesStep | src/utils/solver.py:218-219 | activity `j` adds its `AddExactlyOne` after those of activities `0 .. j-1` |
| GeneralSpec.GeneralStep | src/utils/solver.py:212-223 | `GeneralUpTo`, the client loop of `__apply_general_constraints` after `k` clients: client `k` of the general-constraint loop runs on the model left by clients `0 .. k-1` |
| GeneralSpec.GeneralErrPersists | src/utils/solver.py:212-223 | `GeneralUpTo`: the first client that raises decides the outcome of the loop |
| GeneralSpec.GeneralAdvance | src/utils/solver.py:212-223 | one pass of the client loop: a failure is the outcome of the whole loop, a success the model after client `k` |
| GeneralSpec.Objective | src/utils/solver.py:83-90 | `__define_objective` fails iff the count of last ends differs from the total quantity or some client has no last end; otherwise it adds the makespan variable, its max-equality over the last ends and the minimisation |
| GeneralSpec.Quantities | src/utils/solver.py:86 | the quantities of the assessments, position for position |
| GeneralSpec.Somes | src/utils/solver.py:89 | the last-end variables, position for position |
| GeneralSpec.TransferMeaning | src/utils/solver.py:245-280 | in any solution the transfer literal between consecutive slots is set iff their floors differ; a transfer then runs from the earlier slot's end to the later slot's start; without one the later slot starts at most `max_gap` after the earlier ends |
| GeneralSpec.SumQuantitiesOffset | src/utils/solver.py:86-112 | the sum of the quantities is the client count the initialisation reaches |
| GeneralSpec.GeneralKeepsLastEnds | src/utils/solver.py:197-223 | the general constraints leave the recorded last ends alone |
| GeneralSpec.ObjectiveCountHolds | src/utils/solver.py:86-195 | with no negative quantity defining the variables records one last end per client, so the objective's count assertion holds |
| GeneralSpec.NegativeQuantityFailsObjective | src/utils/solver.py:86-109 | a negative quantity contributes no client but counts in the sum, so the assertion fails |
| GeneralSpec.EmptyAssessmentFailsObjective | src/utils/solver.py:89-195 | an assessment without activities gives its clients no last end (`previous_end` stays None): `AddMaxEquality` raises a TypeError |
| ConditionSpec.HashKey | src/utils/solver.py:363-364 | using an argument inside a dict key is a TypeError iff it is a list; otherwise the key finds what its integer value finds |
| ConditionSpec.Lookup | src/utils/solver.py:363-364 | `defaultdict[(client_id, v)]` is a TypeError iff `v` is a list; an int-like `v` reads that key's list, anything else the empty list |
| ConditionSpec.RelMinutes | src/utils/solver.py:377 | `(t - time_start)` in whole minutes; a TypeError unless `t` is a timedelta |
| ConditionSpec.SpanMinutes | src/utils/solver.py:524-542 | `t.total_seconds() // 60`; an AttributeError unless `t` is a timedelta |
| ConditionSpec.EachMembers | src/utils/solver.py:363-366 | every constraint a `for` loop emits comes from one element, and every element's constraints are emitted |
| ConditionSpec.Gated | src/utils/solver.py:365-366 | `if generate:` keeps the constraints iff `generate` is truthy |
| ConditionSpec.BeforeActivity | src/utils/solver.py:354-366 | BEFORE ACTIVITY raises only a TypeError (an unhashable id) |
| ConditionSpec.BeforeTime | src/utils/solver.py:368-380 | BEFORE TIME raises only a TypeError |
| ConditionSpec.AfterActivity | src/utils/solver.py:392-403 | AFTER ACTIVITY raises only a TypeError |
| ConditionSpec.AfterTime | src/utils/solver.py:405-416 | AFTER TIME raises only a TypeError |
| ConditionSpec.RightAfter | src/utils/solver.py:428-442 | RIGHT AFTER raises only a TypeError |
| ConditionSpec.RightBefore | src/utils/solver.py:444-457 | RIGHT BEFORE raises only a TypeError |
| ConditionSpec.BetweenActivities | src/utils/solver.py:459-476 | BETWEEN ACTIVITY raises only a TypeError |
| ConditionSpec.BetweenTimes | src/utils/solver.py:478-495 | BETWEEN TIME raises only a TypeError |
| ConditionSpec.SlotIndex | src/utils/solver.py:509-513 | `__activity_index_*_vars[(client_id, v)]` succeeds iff `v` is int-like and names a slot of a known client; otherwise a KeyError, or a TypeError for a list |
| ConditionSpec.BetweenOrders | src/utils/solver.py:497-513 | BETWEEN ORDER raises only a TypeError or a KeyError (the slot lookups) |
| ConditionSpec.WithinAfter | src/utils/solver.py:515-531 | WITHIN AFTER raises only a TypeError or an AttributeError |
| ConditionSpec.WithinBefore | src/utils/solver.py:533-549 | WITHIN BEFORE raises only a TypeError or an AttributeError |
| ConditionSpec.OrderLits | src/utils/solver.py:560 | the matching literals are exactly those whose key has this client, another activity and the given slot |
| ConditionSpec.BeforeOrder | src/utils/solver.py:382-390 | BEFORE ORDER succeeds iff `order` is int-like (`order - 1`), else a TypeError |
| ConditionSpec.AfterOrder | src/utils/solver.py:418-426 | AFTER ORDER succeeds iff `order` is int-like (`order + 1`), else a TypeError |
| ConditionSpec.BeforeCondition | src/utils/solver.py:298-306 | BEFORE is refused with the ValueError iff the option type is not ACTIVITY, TIME or ORDER |
| ConditionSpec.AfterCondition | src/utils/solver.py:307-315 | AFTER is refused iff the option type is not ACTIVITY, TIME or ORDER |
| ConditionSpec.RightAfterCondition | src/utils/solver.py:316-320 | RIGHT AFTER is refused iff the option type is not ACTIVITY |
| ConditionSpec.RightBeforeCondition | src/utils/solver.py:321-325 | RIGHT BEFORE is refused iff the option type is not ACTIVITY |
| ConditionSpec.BetweenCondition | src/utils/solver.py:326-334 | BETWEEN is refused iff the option type is not ACTIVITY, TIME or ORDER |
| ConditionSpec.WithinAfterCondition | src/utils/solver.py:335-339 | WITHIN AFTER is refused iff the option type is not ACTIVITY |
| ConditionSpec.WithinBeforeCondition | src/utils/solver.py:340-344 | WITHIN BEFORE is refused iff the option type is not ACTIVITY |
| ConditionSpec.FixedOrderCondition | src/utils/solver.py:345-349 | IN FIXED ORDER AS is refused iff the option type is not ORDER |
| ConditionSpec.ActivityDispatchTable | src/utils/solver.py:294-351 | a condition is refused with a ValueError iff its scope is not ACTIVITY or its (option, option type) pair is not one the dispatch accepts (both directions) |
| ConditionSpec.MemberScopeRejected | src/utils/solver.py:295-296 | a scope holding the enum member itself, not its `.value`, is always refused |
| ConditionSpec.PairsMembers | src/utils/solver.py:363-366 | the nested loops emit exactly one constraint per (outer, inner) pair |
| ConditionSpec.BeforeActivityMeaning | src/utils/solver.py:354-366 | in every solution of an emitted BEFORE ACTIVITY every end of the activity is no later than every start of the other |
| ConditionSpec.FixedOrderMeaning | src/utils/solver.py:551-563 | without `generate` nothing is emitted; with it exactly one `literal == 0` per matching literal |
| ConditionSpec.FixedOrderSolution | src/utils/solver.py:551-563 | in every solution of an emitted fixed order every matching literal is 0 |
| ConditionSpec.OrderShift | src/utils/solver.py:382-426 | BEFORE order `o` is the fixed order at `o - 1`, AFTER order `o` the fixed order at `o + 1` |
| RoomSpec.Lookup3 | src/utils/solver.py:603-634 | `defaultdict[(a, i, b)]` is a TypeError iff an id is a list; int-like ids read that key's list, other ids the empty list |
| RoomSpec.MaximumCapacity | src/utils/solver.py:591-604 | without `generate` nothing is emitted; with it, assessments of different activity counts fail the assertion; only a TypeError or that AssertionError can be raised |
| RoomSpec.UniqueRoom | src/utils/solver.py:606-618 | without `generate` nothing is emitted; with it, different activity counts fail the assertion; only a TypeError or that AssertionError can be raised |
| RoomSpec.SameRoom | src/utils/solver.py:620-637 | without `generate` nothing is emitted; with it, different activity counts fail the assertion; only a TypeError or that AssertionError can be raised |
| RoomSpec.RoomCondition | src/utils/solver.py:566-588 | a room condition is refused with a ValueError iff its scope is not ROOM or its (option, option type) pair is not one the dispatch accepts (both directions) |
| RoomSpec.SameRoomFromHas | src/utils/solver.py:632-637 | every client gets both `sum != 1` and `sum <= 2` over the two activities' literals for the room |
| RoomSpec.SameRoomMeaning | src/utils/solver.py:620-637 | in a solution, with one 0/1 literal per activity, both activities are held in the room or neither is, for every client |
| PhaseSpec.ClientLoopErr | src/utils/solver.py:294-351 | the first condition that raises decides a client's outcome |
| PhaseSpec.ActivityPhaseErr | src/utils/solver.py:293-351 | `ActivityPhase`, the client loop of `__apply_activity_constraints`: the first client that raises decides the activity phase |
| PhaseSpec.RoomLoopErr | src/utils/solver.py:568-588 | the first condition that raises decides a room's outcome |
| PhaseSpec.RoomPhaseErr | src/utils/solver.py:566-588 | `RoomPhase`, the room loop of `__apply_room_constraints`: the first room that raises decides the room phase |
| PhaseSpec.ClientLoopHas | src/utils/solver.py:294-351 | a successful client loop contains every condition's constraints |
| PhaseSpec.ActivityPhaseRan | src/utils/solver.py:293-351 | `ActivityPhase`: after a successful activity phase every client had an assessment and every one of its conditions contributed its constraints |
| PhaseSpec.ActivityPhaseHas | src/utils/solver.py:282-351 | after a successful activity phase every client had an assessment and each of its conditions had ACTIVITY scope, an accepted (option, type) pair and contributed all its constraints |
| PhaseSpec.RoomLoopHas | src/utils/solver.py:568-588 | a successful room loop contains every condition's constraints |
| PhaseSpec.RoomPhaseRan | src/utils/solver.py:566-588 | `RoomPhase`: after a successful room phase every condition of every room contributed its constraints |
| PhaseSpec.RoomPhaseHas | src/utils/solver.py:565-588 | after a successful room phase every condition filed under every room had ROOM scope, an accepted (option, type) pair and contributed all its constraints |
| Scheduler.ConstrainKeepsLastEnds | src/utils/solver.py:657-659 | `Shape`, the per-client slot counts the phases read: the three constraint phases record no last end |
| Scheduler.GeneratedReachesObjective | src/utils/solver.py:652-660 | when the variables and constraints are built, `generate` reaches the objective: it succeeds with the minimisation as the last constraint, or a client without slots makes it raise a TypeError |
| Scheduler.Solver.constructor | src/utils/solver.py:15-67 | the day bounds are kept; every span is kept in whole minutes; the horizon is the day length in minutes; no assessments, schedules, indexes or constraints yet |
| Scheduler.Solver.SetAssessments | src/utils/solver.py:645-650 | the assessments become the given ones sorted by name |
| Scheduler.Solver.GetAssessmentByClientId | src/utils/solver.py:69-81 | returns the first assessment (in sorted order) whose client ids include the client, None if none does |
| Scheduler.Solver.FileRoomConditions | src/utils/solver.py:103-104 | the room's conditions are appended, in order, to its list in `conditions_per_room` |
| Scheduler.Solver.FileActivityConditions | src/utils/solver.py:105-106 | the activity's conditions are appended, in order, to the assessment's list |
| Scheduler.Solver.CollectRooms | src/utils/solver.py:99-104 | one option per room of the activity, filing each room's conditions |
| Scheduler.Solver.CollectOptions | src/utils/solver.py:97-106 | the option list shared by every slot of the assessment, with its room and activity conditions filed |
| Scheduler.Solver.InitializeVariables | src/utils/solver.py:92-112 | appends `quantity` copies of each assessment's slot list to the schedules, files its client-id range and its room and activity conditions |
| Scheduler.Solver.DurationBounds | src/utils/solver.py:122-127 | the smallest and largest duration among the slot's options |
| Scheduler.Solver.DefineOption | src/utils/solver.py:148-176 | one option of a multi-option slot adds its optional interval, literal and floor, the five constraints it enforces when chosen, and its index entries |
| Scheduler.Solver.DefineOptions | src/utils/solver.py:146-178 | every option of the slot, then `AddExactlyOne` over their literals |
| Scheduler.Solver.DefineSlot | src/utils/solver.py:121-193 | one slot: its variables, the precedence on the previous slot's end, and either the options or the fixed floor of its only option |
| Scheduler.Solver.DefineClient | src/utils/solver.py:119-195 | the client's slots in order, then its last end; false exactly when some slot has no option |
| Scheduler.Solver.DefineVariables | src/utils/solver.py:114-195 | `__define_variables` raises IndexError iff the specification does, and otherwise leaves exactly the specification's model |
| Scheduler.Solver.DefineNextClient | src/utils/solver.py:119-195 | client `c` on a model holding clients `0 .. c-1` leaves a model holding clients `0 .. c` |
| Scheduler.Solver.DefineTransfer | src/utils/solver.py:256-280 | the transfer between slots `i` and `i+1`: its variables, the six constraints tying it to the slots' floors and times, and its index entries |
| Scheduler.Solver.ApplyTransferConstraint | src/utils/solver.py:253-280 | a transfer between every two consecutive slots of the client |
| Scheduler.Solver.ApplyMaxGapConstraint | src/utils/solver.py:245-251 | without a transfer, at most `max_gap` minutes between consecutive slots |
| Scheduler.Solver.ApplyExactlyOnes | src/utils/solver.py:217-219 | each activity of the client's assessment is chosen exactly once |
| Scheduler.Solver.ApplyGrid | src/utils/solver.py:221-223 | every slot of the client starts and ends on the interval grid |
| Scheduler.Solver.ApplyClientGeneral | src/utils/solver.py:213-223 | one pass of the client loop: a failure is the outcome of the whole loop, a success the model after client `c` |
| Scheduler.Solver.ApplyClient | src/utils/solver.py:213-223 | what the general-constraint loop does for one client, raising exactly when the specification does |
| Scheduler.Solver.ApplyGeneralHead | src/utils/solver.py:206-243 | the no-overlaps added before the client loop: over the transfers (twice when they may not be simultaneous) and over activity 201 |
| GeneralSpec.ClientsMapsTransfers | src/utils/solver.py:114-195 | `__define_variables` files nothing under `__transfer_time_interval_vars` |
| GeneralSpec.GeneralHeadNoTransfers | src/utils/solver.py:206-211 | in `generate` the transfer no-overlaps are added while `__transfer_time_interval_vars` is still empty (it is filled at src/utils/solver.py:280, inside the client loop), so they are over no interval and only the activity-201 no-overlap constrains anything |
| Scheduler.Solver.ApplyNoOverlapActivityConstraint | src/utils/solver.py:230-234 | one no-overlap over the intervals of every `(client, activity_id)` entry |
| Scheduler.Solver.ApplyGeneralConstraints | src/utils/solver.py:197-223 | `__apply_general_constraints` raises iff the specification does and otherwise leaves exactly its model |
| Scheduler.Solver.ApplyClientsGeneral | src/utils/solver.py:212-223 | the client loop's outcome equals the specification's: the model after all clients, or the first error |
| Scheduler.Solver.ApplyActivityConstraints | src/utils/solver.py:282-351 | `__apply_activity_constraints` raises iff the activity phase does and otherwise adds exactly its constraints |
| Scheduler.Solver.ApplyClientActivities | src/utils/solver.py:293-294 | client `c`'s conditions on a model holding those of clients `0 .. c-1`; a client without assessment raises AttributeError |
| Scheduler.Solver.ApplyClientConditions | src/utils/solver.py:294-351 | one client's conditions in turn; the first exception stops the loop |
| Scheduler.Solver.ApplyRoomConstraints | src/utils/solver.py:565-588 | `__apply_room_constraints` raises iff the room phase does and otherwise adds exactly its constraints |
| Scheduler.Solver.ApplyEveryRoom | src/utils/solver.py:566-588 | the room loop, in filing order |
| Scheduler.Solver.ApplyRoomConditions | src/utils/solver.py:568-588 | one room's conditions in turn; the first exception stops the loop |
| Scheduler.Solver.Generate | src/utils/solver.py:652-660 | without assessments the AssertionError and nothing changes; otherwise the indexes are initialised and each phase runs in turn, the first exception stopping the rest, ending in the specification's model |
| Scheduler.Solver.DefineObjective | src/utils/solver.py:83-90 | `__define_objective` raises iff the specification does and otherwise adds the makespan and its minimisation |
| LegacySchedule.PyInt | solver.py:124 | `int(v)` keeps an int unchanged, raises TypeError on None, lists and times, and on a string succeeds exactly when it holds a base-10 numeral, ValueError otherwise |
| LegacySchedule.PinnedSlot | solver.py:121-131 | a missing or negative order raises ValueError('Invalid order argument provided'); otherwise BEFORE pins one slot earlier, AFTER one later, any other ORDER option the order itself |
| LegacySchedule.PinRoomsSlots | solver.py:133-136 | pinning appends the activity's options, in order, to the named slot and changes no other slot |
| LegacySchedule.PinRoomsPool | solver.py:136 | each pinned option is removed from the pool exactly once (multiset balance) |
| LegacySchedule.PinRoomsErr | solver.py:135-136 | a slot index outside the list raises IndexError; the only other failure is ValueError from `remove` when the option is no longer in the pool |
| LegacySchedule.PinRoomsHeld | solver.py:133-136 | pinning one activity's options only moves tasks from pool to slots: the multiset of held tasks and the slot count are unchanged |
| LegacySchedule.PinCondsHeld | solver.py:120-136 | the same conservation over all of an activity's conditions |
| LegacySchedule.PinActsHeld | solver.py:119-136 | the same conservation over all activities of an assessment |
| LegacySchedule.PinnedKeepsOptions | solver.py:112-136 | the option pool is `RoomTasks` of each activity in turn: after pinning, pool and slots together hold exactly every option of every activity, and there is one slot per activity |
| LegacySchedule.PinCondsNone | solver.py:121-122 | conditions that are not ORDER conditions are skipped and change nothing |
| LegacySchedule.PinActsNone | solver.py:119-122 | an assessment without ORDER conditions leaves the pool and slots as they were |
| LegacySchedule.NoOrderSharesPool | solver.py:112-145 | `Fill`, the filling of the unpinned slots with the pool: with no ORDER conditions every slot of the assessment's schedule is the full option pool |
| LegacySchedule.InitLength | solver.py:138-147 | each assessment adds `quantity` schedules, so the schedule list grows by the sum of the quantities |
| LegacySchedule.InitScheduleAt | solver.py:138-147 | client c of assessment k (between the running offsets) gets that assessment's slot list |
| LegacySchedule.InitClientsOf | solver.py:146-147 | with distinct ids, assessment k's client list is extended by the consecutive id range starting at the previous quantities' sum |
| LegacySchedule.InitClientsMissing | solver.py:146 | an id that no processed assessment has keeps its client list |
| LegacySchedule.InitErrPersists | solver.py:111-126 | the first assessment that raises ends the loop and decides its outcome |
| LegacySchedule.PinRoomsStops | solver.py:133-136 | an error while pinning options stops the loop with that error |
| LegacySchedule.PinCondsStops | solver.py:120-126 | an error while walking the conditions stops the loop with that error |
| LegacySchedule.PinActsStops | solver.py:119-126 | an error while walking the activities stops the loop with that error |
| LegacyVariables.Slot | solver.py:154-222 | an empty slot raises IndexError (`activities[0]`); a single-option slot before any multi-option slot raises UnboundLocalError (stale `activity`); every other slot succeeds, appends its constraints, leaves the last-end list alone and moves `activity` on to its last option when it has several |
| LegacyVariables.SchedErr | solver.py:154-222 | an error on one slot ends the client's loop with that error |
| LegacyVariables.ClientsErr | solver.py:152-224 | an error on one client ends the loop over clients with that error |
| LegacyVariables.PlainMeans | solver.py:149-224 | a constraint list adds no circuit and no objective exactly when every constraint in it is a simple one |
| LegacyVariables.Sched | solver.py:154-222 | a client's slots, when none raises, leave the constraints and the carried `activity` at their specification functions and the last-end list alone |
| LegacyVariables.Client | solver.py:152-224 | one client appends its slots' constraints and exactly its last end |
| LegacyVariables.Clients | solver.py:152-224 | the clients' constraints and the `activity` carried from client to client match their specification functions, and one last-end entry per client has been appended, in client order |
| LegacyVariables.PlainClientsCons | solver.py:149-224 | defining the variables adds no circuit and no objective |
| LegacyVariables.SchedMultiAgrees | src/utils/solver.py:114-195 | when every slot has several options, the legacy definition gives the same declarations and constraints as the current one (the corrected behaviour) |
| LegacyVariables.StaleFloorMisplaces | solver.py:211 | a two-slot client whose single-option second slot is pinned to floor 2 (the stale option's floor) can never take its only option |
| LegacyVariables.UnboundOnFirstSlot | solver.py:211 | a first slot with a single option raises UnboundLocalError |
| LegacyRules.GapMeaning | solver.py:249-273 | for consecutive slots: the transfer literal is set exactly when the two floors differ; when set, the transfer interval runs from the first slot's end to the next slot's start and lasts the transfer time; when clear, the next slot starts no earlier than the first ends and within the maximum gap |
| LegacyRules.ExactlyOnes | solver.py:234-235 | one exactly-one constraint per activity of the client's assessment, over the option literals recorded for that client and activity id |
| LegacyRules.GeneralErrPersists | solver.py:232-241 | an error for one client ends the loop over clients with that error |
| LegacyRules.FirstOwner | solver.py:70-82 | the assessment found lists the client in its client list, and None is returned exactly when no assessment does |
| LegacyRules.OwnerOfClient | solver.py:70-82 | after initialisation with distinct ids and no negative quantity, every client of assessment k's id range is found to belong to assessment k |
| LegacyRules.Objective | solver.py:99-105 | raises AssertionError('Invalid number of last activities') exactly when the last ends do not number the sum of the quantities (or one is missing); otherwise declares a makespan in [0, horizon] equal to the latest last end, with nothing minimised |
| LegacyRules.SumQuantitiesOffset | solver.py:102 | the sum of the quantities is the number of clients handed out by initialisation |
| LegacyRules.PlainGaps | solver.py:249-278 | the gap rules add no circuit and no objective, and record no last end |
| LegacyRules.PlainGeneral | solver.py:226-241 | the general constraints add no circuit and no objective, and record no last end |
| LegacyRules.GeneratedPlain | solver.py:538-545 | `generate` adds no circuit and nothing to minimise (the precedence constraints at solver.py:280-330 are never applied), and its last constraint is the makespan equality |
| LegacyRules.ConstrainedPlain | solver.py:542-545 | the same for the steps after initialisation |
| LegacyRules.GeneralErrIsAttribute | solver.py:233-234 | the only way the general constraints fail is AttributeError, from a client with no assessment |
| LegacyRules.DefinedCount | solver.py:152-224 | `LegacyVariables.DefineVariables`, `__define_variables` from an unbound `activity`: on a fresh solver with no negative quantity, one last end is recorded per client: as many as the quantities add up to |
| LegacyRules.ConstrainedCountHolds | solver.py:99-105 | when the last ends number the quantities' sum, the count assertion never fires: the steps after defining the variables succeed or fail only with TypeError or AttributeError |
| LegacyRules.GeneratedCountHolds | solver.py:538-545 | on a fresh solver with no negative quantity whose variables could be defined, `generate` never fails the count assertion |
| LegacyRules.FindFromSpec | solver.py:84-97 | the search passes over conditions until the first that is IN_FIXED_ORDER_AS with order = number of activities - 1 (returned), a KeyError from one without an order, or the end (None) |
| LegacyRules.LastActivityConditionSpec | solver.py:84-97 | None exactly when every condition is passed over; a returned condition is the first that pins the last activity; any failure is KeyError |
| LegacyRules.ValidGivesLastEnd | solver.py:149-224 | every client of a valid assessment without ORDER conditions gets one slot per activity and records the end of its last slot |
| LegacyRules.NegativeQuantityPasses | solver.py:525-536 | validation accepts a quantity of -1, which gives no client but still counts against the last ends, so `generate` raises AssertionError('Invalid number of last activities') |
| LegacyScheduler.Solver.constructor | solver.py:19-68 | keeps start, end, floors and the simultaneous-transfers flag; interval, gap, transfer and horizon in whole minutes (floor division by 60); no assessments, no schedules, no client lists, an empty model |
| LegacyScheduler.Solver.SetAssessments | solver.py:519-523 | the setter stores the list as given |
| LegacyScheduler.Solver.GetAssessmentByClientId | solver.py:70-82 | the first assessment whose client list holds the id, None if there is none (see LegacyRules.FirstOwner) |
| LegacyScheduler.Solver.FindLastActivityCondition | solver.py:84-97 | the loop returns what the search specification gives (see LegacyRules.LastActivityConditionSpec) |
| LegacyScheduler.Solver.ValidateAssessment | solver.py:525-536 | false as soon as one of id, name, activities, quantity is falsy (0, empty), true otherwise |
| LegacyScheduler.Solver.PinOptions | solver.py:133-136 | the loop over an ORDER condition's rooms computes the pinning specification (properties in LegacySchedule.PinRoomsSlots/PinRoomsPool/PinRoomsErr) |
| LegacyScheduler.Solver.PinActivity | solver.py:120-136 | the loop over an activity's conditions computes the pinning specification |
| LegacyScheduler.Solver.PinAssessment | solver.py:112-136 | one assessment's option pool and slots after pinning (properties in LegacySchedule.PinnedKeepsOptions) |
| LegacyScheduler.Solver.InitializeVariables | solver.py:107-147 | fails exactly when the specification does, with its error; on success the schedules and client lists are the specification's (properties in LegacySchedule.InitLength/InitScheduleAt/InitClientsOf) |
| LegacyScheduler.Solver.DurationBounds | solver.py:155-160 | the smallest and largest duration of a slot's options, and `activity` left at the last option scanned |
| LegacyScheduler.Solver.DefineOption | solver.py:181-207 | one option appends its optional interval, literal and floor, the five constraints enforced when it is chosen, and its index entries |
| LegacyScheduler.Solver.DefineOptions | solver.py:179-209 | all options of a multi-option slot, then exactly one of their literals; `activity` ends at the last option |
| LegacyScheduler.Solver.DefineSlot | solver.py:155-222 | one slot: fails exactly as LegacyVariables.Slot does, otherwise the model and `activity` become its result |
| LegacyScheduler.Solver.DefineClient | solver.py:152-224 | one client's slots in order, then its last end; outcome as LegacyVariables.Client |
| LegacyScheduler.Solver.DefineVariables | solver.py:149-224 | every client in order; fails exactly when the specification `LegacyVariables.DefineVariables` does, otherwise the model is its result |
| LegacyScheduler.Solver.DefineNextClient | solver.py:152-224 | one loop step: a failure is the outcome of the whole loop, success extends the run by one client |
| LegacyScheduler.Solver.DefineGap | solver.py:251-278 | the transfer between slots i and i + 1: its variables, transfer and gap rules and index entries (meaning in LegacyRules.GapMeaning) |
| LegacyScheduler.Solver.ApplyGapConstraints | solver.py:243-278 | a transfer between every two consecutive slots of every client |
| LegacyScheduler.Solver.ApplyExactlyOnes | solver.py:234-235 | appends one exactly-one constraint per activity of the client's assessment |
| LegacyScheduler.Solver.ApplyGrid | solver.py:239-241 | every slot of the client starts and ends on the interval grid |
| LegacyScheduler.Solver.ApplyClientGeneral | solver.py:233-241 | one client's general constraints; a client without an assessment raises AttributeError |
| LegacyScheduler.Solver.ApplyGeneralConstraints | solver.py:226-241 | without simultaneous transfers no two transfers overlap; then every client's exactly-once choices, no-overlap and grid; the first failure is the outcome |
| LegacyScheduler.Solver.ApplyNextClient | solver.py:232-241 | one loop step: a failure is the outcome of the whole loop |
| LegacyScheduler.Solver.DefineObjective | solver.py:99-105 | fails exactly as LegacyRules.Objective does (the count assertion), otherwise the makespan is added |
| LegacyScheduler.Solver.Generate | solver.py:538-567 | AssertionError('Invalid assessments') and no change without assessments; otherwise the four phases in turn, the first exception stopping the rest; once they succeed, the model is solved and the outcome is `LegacyReadBack.Finished` as written |
| LegacyScheduler.Solver.Report | solver.py:547-567 | a status other than OPTIMAL is returned as it is; after OPTIMAL every client's list is collected as written (`LegacyReadBack.Collected`), the first KeyError stopping it, before OPTIMAL is returned |
| LegacyScheduler.Solver.ReadClient | solver.py:556-564 | one client's walk over its slots with `previous_activity_index` holding a fixed value, as `LegacyReadBack.ClientRowsAsWritten` gives it |
| LegacyReadBack.ClientRowsAsWrittenFail | solver.py:556-560 | with `previous_activity_index` None, a client with at least one slot raises KeyError at the first floor-literal read |
| LegacyReadBack.ClientRowsAsWrittenErr | solver.py:557-564 | once a slot's read fails, the walk's outcome is that error whatever slots follow |
| LegacyReadBack.CollectedErr | solver.py:553-565 | once a client's list fails, the collection's outcome is that error whatever clients follow |
| LegacyReadBack.CollectedAsWritten | solver.py:553-565 | the collection as written fails exactly when some client has a slot, and then with KeyError |
| LegacyReadBack.FinishedAsWritten | solver.py:547-567 | a non-OPTIMAL status is returned; after OPTIMAL, `generate` raises KeyError exactly when some client has a slot, and returns OPTIMAL otherwise |
| LegacyReadBack.SchedMapsFiled | solver.py:154-222 | defining a client's slot variables keeps every filed key and files the room literal of every option of every slot |
| LegacyReadBack.ClientsMapsFiled | solver.py:149-222 | `__define_variables` keeps every filed key and files the room literal of every option of every slot of every client |
| LegacyReadBack.GapsFiled | solver.py:243-278 | the gap constraints keep every filed key and file the transfer between every two consecutive slots of every client |
| LegacyReadBack.GeneratedFiled | solver.py:538-545 | a model that `generate` built files the room literal of every option and the transfer between every two consecutive slots: every key the intended read-back reads |
| LegacyReadBack.SlotReadFiled | solver.py:561-564 | with the slot's room literals filed, the read succeeds with at most one entry, the first option whose room literal is set, at the slot's start |
| LegacyReadBack.ClientRowsFiled | solver.py:556-564 | with the keys filed, the intended walk succeeds, and a transfer entry with start s is in the client's list exactly when the transfer into some slot after the first has its floor literal set and starts at s |
| LegacyReadBack.CollectedFiled | solver.py:553-565 | with the keys filed, the intended collection succeeds with one list per client |
| LegacyReadBack.GeneratedFinishes | solver.py:538-567 | on a model that `generate` built, the intended read-back never fails: `generate` returns the solver's status |
| ApiSetup.Item | src/utils/solver_v2.py:683-685 | `d[k]` succeeds exactly when the key is present, with its value; KeyError otherwise |
| ApiSetup.Subscript | src/utils/solver_v2.py:683-685 | subscripting anything but a dict raises TypeError |
| ApiSetup.Splat | src/utils/solver_v2.py:711 | `cls(**v)` raises TypeError unless `v` is a mapping, and otherwise builds the record |
| ApiSetup.SplatAll | src/utils/solver_v2.py:710-713 | the comprehension's records are, position by position, the records of its elements |
| ApiSetup.SplatAllFails | src/utils/solver_v2.py:710-713 | the comprehension raises the error of its first failing element |
| ApiSetup.SplatAllOk | src/utils/solver_v2.py:710-713 | the comprehension succeeds when every element does |
| ApiSetup.ScenarioOf | src/utils/solver_v2.py:680-687 | a successful build is a ScenarioAction record |
| ApiSetup.SettingsSpec | src/utils/solver_v2.py:689-698 | `SettingsOf`, the derived time settings: the start is the arrival time's hours, minutes and seconds in seconds; the end is 23:00; interval and transfer are 5 minutes; the gap is `max_gap`; the horizon is the floor of the minutes from start to end |
| ApiSetup.ScenarioPops | src/utils/solver_v2.py:679 | `ScenarioSetup`, the setter's result on its argument: without a `data` entry the setter raises KeyError; after it, the caller's dict has lost `data` and every other entry is unchanged |
| ApiSetup.SetData | src/utils/solver_v2.py:717-719 | assigning into `data` keeps the object's class |
| ApiSetup.Placements | src/utils/solver_v2.py:715-720 | every resource is placed, in input order |
| ApiSetup.Placed | src/utils/solver_v2.py:715-720 | the placed resources in input order |
| ApiSetup.PlacementRecords | src/utils/solver_v2.py:716-719 | a placed resource records its key in `data['room']` ('CLIENT' for a client resource, its room type otherwise), a hashable key, and is otherwise unchanged |
| ApiSetup.GroupsExact | src/utils/solver_v2.py:714-720 | the rooms map's group for a key lists, in input order, exactly the resources whose recorded room is that key |
| ApiSetup.Allocations | src/utils/solver_v2.py:732-735 | the popped allocations are each activity's `time_allocations` entry, position by position |
| ApiSetup.ActivityOf | src/utils/solver_v2.py:737-742 | a successful build is an Activity record |
| ApiSetup.ActivitiesOf | src/utils/solver_v2.py:736-744 | the activities are, position by position, the records built from each dict and its allocations |
| ApiSetup.FieldEntries | src/utils/solver_v2.py:747-753 | one index entry per allocation, keyed by the activity id and the allocation's name, holding id, room type, resource type and duration |
| ApiSetup.EntriesExact | src/utils/solver_v2.py:745-753 | every index entry belongs to an allocation of an activity with its id and holds that allocation's duration, and every allocation of every activity has an entry |
| ApiClients.SumNums | src/utils/solver_v2.py:89 | `sum(...)` succeeds exactly when every value is a number; TypeError otherwise |
| ApiClients.TierCount | src/utils/solver_v2.py:89 | an assessment name that is not a string has no `.lower()`: AttributeError |
| ApiClients.Renamed | src/utils/solver_v2.py:107-108 | only the id changes; it becomes 'MRI' exactly when 'MRI' occurs in it, and the result's id is settled (renaming again changes nothing) |
| ApiClients.RenamedIdem | src/utils/solver_v2.py:107-108 | renaming a renamed activity leaves it unchanged |
| ApiClients.RenameAll | src/utils/solver_v2.py:106-108 | a list renames exactly when every entry does, entry by entry in order |
| ApiClients.RenameAllIdem | src/utils/solver_v2.py:106-108 | renaming a renamed list changes nothing |
| ApiClients.Gather | src/utils/solver_v2.py:101-104 | gathering succeeds exactly when every id can be hashed as a dict key; TypeError otherwise |
| ApiClients.GetListTouch | src/utils/solver_v2.py:102-104 | reading a defaultdict entry leaves every list as it was |
| ApiClients.GatherSpec | src/utils/solver_v2.py:101-104 | a list id gathers the activities of each of its ids, concatenated in order, and changes no list of the index |
| ApiClients.WriteBackSpec | src/utils/solver_v2.py:106-108 | `WriteBack`, the in-place rename: after the in-place rename, every list read is its old list renamed, and every other key's list is untouched |
| ApiClients.Seq2Keys | src/utils/solver_v2.py:102-104 | one `(id, 'default_time')` key per id, in order |
| ApiClients.RoomTasks | src/utils/solver_v2.py:112-116 | one task per room of the type, in room order, with the activity's duration and id and the room's id and location; the floor count becomes the largest of its old value and the rooms' floors |
| ApiClients.EntryTasks | src/utils/solver_v2.py:106-116 | an activity is renamed first and then gets one task per room of its room type (resource type when the room type is falsy) |
| ApiClients.SlotTasks | src/utils/solver_v2.py:106-118 | every task of a slot has a settled id; the floor count bounds every task's floor and is its old value or one of their floors |
| ApiClients.SlotOf | src/utils/solver_v2.py:98-118 | one slot keeps the schedules, never lowers the floor count, and its tasks have settled ids within the floor count |
| ApiClients.ScheduleOf | src/utils/solver_v2.py:97-118 | one slot per activity id, in order |
| ApiClients.AssessmentClients | src/utils/solver_v2.py:88-120 | `AssessmentStep`, one assessment of `Expand` (`__initialize_variables`): an assessment with no clients changes nothing; one with n clients appends n copies (none when n is negative) of its schedule, which has a slot per activity id, and keeps the earlier schedules |
| ApiClients.SlotRenames | src/utils/solver_v2.py:98-118 | a slot's tasks come from the gathered lists, and afterwards exactly the slot's index lists are renamed in place, with settled ids |
| ApiVariables.DurationBounds | src/utils/solver_v2.py:134-139 | succeeds exactly when every duration is a number (TypeError otherwise), with the least and the greatest of them, both attained |
| ApiVariables.OptionsOf | src/utils/solver_v2.py:169-194 | the rooms of a multi-room slot only append constraints and only change the `rooms` index |
| ApiVariables.SlotStep | src/utils/solver_v2.py:132-202 | a defined slot has options and settings, appends constraints and leaves `ends_per_client` alone |
| ApiVariables.SlotFiled | src/utils/solver_v2.py:149-167 | the slot's start, end, floor and order are filed under (client, first activity id), and its start and end are appended to that id's per-activity lists, no other list changing |
| ApiVariables.SlotHasRules | src/utils/solver_v2.py:155-194 | a defined slot carries its grid, first-slot and exactly-one-room rules |
| ApiVariables.ClientSlots | src/utils/solver_v2.py:132-202 | slots 0 .. n-1 of a client each keep their rules and only append constraints |
| ApiVariables.ClientSlotsStep | src/utils/solver_v2.py:132-202 | one more slot adds its rules and keeps those of the slots before it |
| ApiVariables.PrevFirst | src/utils/solver_v2.py:128-164 | `previous_start` is the first start of the nearest earlier client that has slots |
| ApiVariables.ClientStep | src/utils/solver_v2.py:129-204 | one client: its slots' rules, then exactly one `ends_per_client` entry, its last end |
| ApiVariables.Clients | src/utils/solver_v2.py:128-204 | clients 0 .. n-1 add one `ends_per_client` entry each and their rules, the first-slot rule pointing at the nearest earlier client with slots |
| ApiVariables.ClientsStep | src/utils/solver_v2.py:129-204 | one more client adds its rules and keeps those of the clients before it |
| ApiVariables.DefineVars | src/utils/solver_v2.py:122-205 | AssertionError('Invalid schedules') without schedules; otherwise one `ends_per_client` entry per client and every slot's rules |
| ApiVariables.MultipleMod | src/utils/solver_v2.py:155-156 | a multiple of the interval leaves no remainder |
| ApiVariables.TruncModZero | src/utils/solver_v2.py:155-156 | the solver's truncating modulo is zero exactly when the floor modulo is |
| ApiVariables.SlotMeaning | src/utils/solver_v2.py:155-194 | in any solution a slot starts and ends on the interval grid, a multi-room slot takes exactly one room, and a first slot starts at 0 or strictly after the previous first start |
| ApiVariables.DefinedMeaning | src/utils/solver_v2.py:122-205 | the same for every slot of every client after the whole definition |
| ApiRules.ApartHolds | src/utils/solver_v2.py:267-269 | the rules `start != end` hold exactly when the start differs from every end |
| ApiRules.OthersHolds | src/utils/solver_v2.py:271-282 | the rules against the other starts (ends) hold exactly when the value differs from every other one |
| ApiRules.StartsApartHolds | src/utils/solver_v2.py:267-275 | the start rules hold exactly when every start differs from every end and from every other start |
| ApiRules.EndsApartHolds | src/utils/solver_v2.py:277-282 | the end rules hold exactly when every end differs from every other end |
| ApiRules.GapRulesExact | src/utils/solver_v2.py:264-282 | the gap rule for an activity holds exactly when its starts and ends are spread apart, and says nothing more |
| ApiRules.ReadCondition | src/utils/solver_v2.py:372-378 | TypeError for a condition that is not a dict; otherwise the type, activity id, criteria value, criteria type and between bounds are the subscripted entries, a missing one raising KeyError |
| ApiRules.ClockOf | src/utils/solver_v2.py:381-382 | a time string parses exactly when the parser accepts it (ValueError otherwise, TypeError for a non-string), giving hours, minutes and seconds in seconds |
| ApiRules.WholeOf | src/utils/solver_v2.py:384 | `int(v)` succeeds exactly when the conversion does, with that int |
| ApiRules.Parse | src/utils/solver_v2.py:380-395 | TIME values parse as times and ORDER values as ints outside BETWEEN, both bounds inside BETWEEN, WITHIN values as times, and ACTIVITY values are kept as given; errors are TypeError or ValueError |
| ApiRules.Look | src/utils/solver_v2.py:444-594 | `d[(client, id)]` succeeds exactly when the id hashes and the key is present; TypeError or KeyError otherwise |
| ApiRules.MinutesFrom | src/utils/solver_v2.py:551-552 | minutes from the first arrival rounded down; TypeError while the scenario action is unset |
| ApiRules.BetweenOrdersMeaning | src/utils/solver_v2.py:557-568 | `BetweenOrders`, the corrected between-orders rule: the corrected rule places the order strictly between the start and end bounds |
| ApiRules.BetweenOrdersAsWrittenEmpty | src/utils/solver_v2.py:557-568 | `BetweenOrdersAsWritten`: the rule as written (line 427 passes start and end as `order_before` and `order_after`) holds exactly when end < order < start, so no order satisfies it when start <= end |
| ApiRules.BetweenOrdersWitness | src/utils/solver_v2.py:566-568 | order 2 with bounds 1 and 3 meets the corrected rule and fails the rule as written |
| ApiRules.Dispatch | src/utils/solver_v2.py:397-438 | an unknown condition type raises ValueError('Invalid condition option'); an unsupported criteria type for BEFORE, AFTER, BETWEEN, RIGHT_AFTER or IN_FIXED_ORDER_AS raises ValueError; WITHIN with ORDER criteria raises AttributeError; otherwise one or two rules |
| ApiRules.DispatchMeaningOneSided | src/utils/solver_v2.py:398-415 | the BEFORE and AFTER rules hold exactly when the schedule meets the condition |
| ApiRules.DispatchMeaningBetween | src/utils/solver_v2.py:421-429 | the BETWEEN rules hold exactly when the schedule meets the condition (for ORDER: end < order < start, as written) |
| ApiRules.DispatchMeaningRest | src/utils/solver_v2.py:416-436 | the RIGHT_AFTER, WITHIN and IN_FIXED_ORDER_AS rules hold exactly when the schedule meets the condition |
| ApiRules.DispatchMeaning | src/utils/solver_v2.py:397-438 | the rules one condition adds for a client hold exactly when that client's schedule meets the condition |
| ApiRules.Concat | src/utils/solver_v2.py:371-438 | the loop succeeds exactly when every item does, and fails with the first failing item's error |
| ApiRules.ForClients | src/utils/solver_v2.py:397 | a condition applies to all clients exactly when it applies to each |
| ApiRules.ForClientsMeaning | src/utils/solver_v2.py:397-438 | a condition's rules over all clients hold exactly when every client meets it |
| ApiRules.Prepare | src/utils/solver_v2.py:372-395 | reading and parsing succeed together, and a non-dict condition raises TypeError |
| ApiRules.ConditionRulesMeaning | src/utils/solver_v2.py:372-438 | `ConditionRules`, one condition read, parsed and applied to every client: one condition's rules hold exactly when every client obeys it |
| ApiRules.ConditionsOf | src/utils/solver_v2.py:372 | the conditions are `assessment.data['activity_conditions']`, iterated; AttributeError for a value without attributes |
| ApiRules.AssessmentRulesMeaning | src/utils/solver_v2.py:372-438 | `AssessmentRules`, every condition of one assessment: an assessment's rules hold exactly when every client meets every one of its conditions |
| ApiRules.ActivityRules | src/utils/solver_v2.py:358-438 | the phase succeeds exactly when every assessment's conditions do |
| ApiRules.ActivityRulesMeaning | src/utils/solver_v2.py:358-438 | a solution meets the phase's rules exactly when every condition of every assessment holds for every client |
| ApiRules.RoomsOfMembers | src/utils/solver_v2.py:659-660 | a pair is listed exactly when the `rooms` dict maps (client, activity, room id) to that literal |
| ApiRules.SortedRooms | src/utils/solver_v2.py:663-664 | the sorted room pairs are a permutation of the listed ones, ordered by room id |
| ApiRules.SameRoom | src/utils/solver_v2.py:648-667 | AssertionError('Invalid number of rooms for same room constraint') when the two activities have different room counts, TypeError when room ids do not compare; otherwise one rule per room |
| ApiRules.SameRoomMeaning | src/utils/solver_v2.py:659-667 | the rules hold exactly when, room by room in id order, the two room literals agree |
| ApiRules.SameRoomSameIds | src/utils/solver_v2.py:663-667 | when both activities list the same room ids, the pairs matched by position name the same room |
| ApiRules.ClientPairings | src/utils/solver_v2.py:223-224 | a client's pairings succeed exactly when check-in pairs with lunch and with checkout |
| ApiRules.ClientPairingsMeaning | src/utils/solver_v2.py:223-224 | the pairings hold exactly when the check-in shares its room with lunch and with checkout |
| ApiRules.Pairings | src/utils/solver_v2.py:221-224 | the same-room pairings of all clients succeed exactly when every client's do |
| ApiRules.GeneralRules | src/utils/solver_v2.py:221-244 | the interpreted general rules succeed exactly when every client's pairings do |
| ApiRules.GeneralRulesMeaning | src/utils/solver_v2.py:221-244 | a solution meets them exactly when every client's check-in shares its room with lunch and checkout and the MRI slots are spread apart |
| ApiGenerate.Lookup | src/utils/solver_v2.py:840-841 | `d[k]` succeeds exactly when the key is present, with its value; KeyError otherwise |
| ApiGenerate.StartsOfMembers | src/utils/solver_v2.py:835 | `StartsOf`, the client's filed starts: the pairs are exactly the activities filed under the client, each with its start's value |
| ApiGenerate.RoomChosen | src/utils/solver_v2.py:839 | the search fails only with StopIteration |
| ApiGenerate.RoomChosenSpec | src/utils/solver_v2.py:839 | the room is that of the first set room literal of the client's activity, and StopIteration is raised exactly when there is none |
| ApiGenerate.ActivityRow | src/utils/solver_v2.py:839-848 | a row keeps the activity's id and start |
| ApiGenerate.ActivityRows | src/utils/solver_v2.py:838-848 | one row per activity, in order, keyed by the activities' ids and starts |
| ApiGenerate.TransferStep | src/utils/solver_v2.py:850-858 | a missing precedence, floor or end entry raises KeyError whatever the transfer's client; at most one row per transfer |
| ApiGenerate.TransferRows | src/utils/solver_v2.py:850-858 | the only failure is KeyError |
| ApiGenerate.TransferRowsExact | src/utils/solver_v2.py:850-858 | a Transfer row is in the client's schedule exactly when some transfer of that client has both its precedence and its floor literal set, with that transfer's start and end |
| ApiGenerate.OrderedStarts | src/utils/solver_v2.py:835-836 | the client's activities are a permutation of the filed starts, sorted by start |
| ApiGenerate.ClientRowsSpec | src/utils/solver_v2.py:833-859 | `ClientRows`, one client of the read-back loop: a client's schedule is sorted by start and is a permutation of its activity rows plus its Transfer rows, the activity rows covering every filed start once |
| ApiGenerate.ActivityRowsStop | src/utils/solver_v2.py:838-839 | a client's rows fail with StopIteration when one of its activities has no set room literal and the ones before it have rows |
| ApiGenerate.ActivityRowsOk | src/utils/solver_v2.py:838-848 | the rows succeed when every activity has a row |
| ApiGenerate.Extract | src/utils/solver_v2.py:831-861 | one schedule per client |
| ApiGenerate.ExtractAt | src/utils/solver_v2.py:833-859 | `Collect`, the loop over the clients that `Extract` runs: client c's schedule, at position c, is that client's rows |
| ApiSolver.BuiltParts | src/utils/solver_v2.py:807-815 | `Built`, the build of `generate`: a build that succeeds is initialisation, then the variables, then the general and activity rules, then the objective, in that order |
| ApiSolver.BuiltMeaning | src/utils/solver_v2.py:807-815 | `Built`: any solution of a built model meets the variables' rules, every client's same-room pairings, the MRI spread and every activity condition for every client |
| ApiSolver.Constrained | src/utils/solver_v2.py:811-815 | a failing variables phase leaves the model as it was; once the variables are defined the model keeps their declarations, index and last ends, and every constraint they added stays in it whichever later phase raises |
| ApiSolver.Staged | src/utils/solver_v2.py:810-815 | a failing initialisation leaves the schedules, floor count and indexes as they were; a completed one leaves them as it made them, whatever a later phase does |
| ApiSolver.StagedBuilt | src/utils/solver_v2.py:810-815 | the phases run on the fields end without exception exactly when the build succeeds, with the build's result, and otherwise with the build's exception |
| ApiSolver.AssignTimes | src/utils/solver_v2.py:689-698 | succeeds exactly when `SettingsOf` does, with its settings; a bad arrival time assigns nothing; a missing or non-numeric `max_gap` leaves start, end (23:00) and interval (5) assigned and the rest as they were; the flag and the horizon are assigned only on success |
| ApiSolver.Popped | src/utils/solver_v2.py:732-735 | each dict as `pop('time_allocations')` leaves it |
| ApiSolver.AllocationsFails | src/utils/solver_v2.py:732-735 | the first activity without `time_allocations` makes the comprehension raise KeyError |
| ApiSolver.PlacementsFails | src/utils/solver_v2.py:715-720 | the grouping stops with the error of its first failing resource |
| ApiSolver.AllEntriesFails | src/utils/solver_v2.py:746-753 | the index stops with the error of its first failing activity |
| ApiSolver.ActivityRowsFails | src/utils/solver_v2.py:838-848 | a client's rows stop with the error of its first failing activity |
| ApiSolver.TransferRowsFails | src/utils/solver_v2.py:850-858 | the Transfer loop stops with KeyError at its first failing transfer |
| ApiSolver.ClientRowsOf | src/utils/solver_v2.py:833-859 | a client's schedule fails with its activity rows' error, then its Transfer rows' error, and otherwise is their concatenation sorted by start |
| ApiSolver.ExtractFails | src/utils/solver_v2.py:833-859 | the loop over the clients stops with the error of its first failing client |
| ApiSolver.ActivityRowsOf | src/utils/solver_v2.py:838-848 | the loop over a client's activities computes their rows (properties in ApiGenerate.ActivityRows/RoomChosenSpec) |
| ApiSolver.TransferRowsOf | src/utils/solver_v2.py:850-858 | the loop over `transfer_starts` computes the Transfer rows (properties in ApiGenerate.TransferRowsExact) |
| ApiSolver.ClientSchedule | src/utils/solver_v2.py:834-859 | one client's schedule as `generate` builds it (properties in ApiGenerate.ClientRowsSpec) |
| ApiSolver.AppendEntries | src/utils/solver_v2.py:747-753 | the inner loop appends every entry to its key's list, in order |
| ApiSolver.PopAllocations | src/utils/solver_v2.py:732-735 | the allocations as the comprehension gives them; on KeyError, `ds[i]` is the first dict without `time_allocations` (every dict before it has one), the dicts before it have lost the key and the rest are untouched |
| ApiSolver.Solver.constructor | src/utils/solver_v2.py:17-71 | every setter slot unset, no schedules, floor count 0, an empty model, nothing generated |
| ApiSolver.Solver.SetScenarioAction | src/utils/solver_v2.py:675-698 | without `data`: KeyError and nothing changes; otherwise the caller's dict loses `data`; a failed record build changes nothing else; once the record is built it is stored and the time fields become what `AssignTimes` makes of them, so an exception keeps the fields assigned before it; success leaves exactly the settings `ScenarioSetup` derives |
| ApiSolver.Solver.SetResources | src/utils/solver_v2.py:706-720 | a failed record build raises and changes nothing; otherwise the resources are set and grouped, success giving the placed resources and the rooms map, a failure leaving them as the loop stopped them |
| ApiSolver.Solver.GroupResources | src/utils/solver_v2.py:714-720 | the grouping loop: every resource records its key and joins that key's group in input order; a failing resource stops it where it was |
| ApiSolver.Solver.SetActivities | src/utils/solver_v2.py:728-753 | a missing allocation raises KeyError with the dicts before it popped and nothing set; a failed record build raises with nothing set; otherwise the activities are set and the index holds their entries, or the entries of the activities before the first failing one |
| ApiSolver.Solver.IndexActivities | src/utils/solver_v2.py:745-753 | the index loop: all entries on success, the entries of the activities before the first failing one otherwise |
| ApiSolver.Solver.SetAssessments | src/utils/solver_v2.py:761-771 | succeeds exactly when every record builds, setting them in order; a failure changes nothing |
| ApiSolver.Solver.SetGeneralConditions | src/utils/solver_v2.py:779-788 | succeeds exactly when every record builds, setting them in order; a failure changes nothing |
| ApiSolver.Solver.SetRoomConditions | src/utils/solver_v2.py:790-805 | the setter replaces the assessments with Condition records (a failure changes nothing), and the getter returns the activities |
| ApiSolver.Solver.Prepare | src/utils/solver_v2.py:807-815 | AssertionError('Invalid assessments') without assessments, changing nothing; otherwise the fields and the exception are those `Staged` gives: every phase that completed keeps its effects |
| ApiSolver.Solver.Build | src/utils/solver_v2.py:810-815 | the phases from initialisation to the objective, each writing its results to the fields before the next runs: the indexes, schedules and floor count and the model end as `Staged` gives them, with its exception |
| ApiSolver.Solver.ReadSchedules | src/utils/solver_v2.py:831-861 | the result is the schedules of all clients; on success they are stored; on failure the stored list holds the schedules of the clients before the failing one |
| ApiSolver.Solver.SolveAndRead | src/utils/solver_v2.py:817-861 | ValueError('Cannot generate schedule') unless the status is OPTIMAL or FEASIBLE, otherwise the extracted schedules |
| ApiSolver.Solver.Generate | src/utils/solver_v2.py:807-861 | AssertionError('Invalid assessments') without assessments; a failing phase raises with the fields as `Staged` leaves them (the completed phases' effects kept, nothing generated); otherwise the built model is solved and, when solved, every client's schedule is returned |
| ApiSolver.Solver.SetTimes | src/utils/solver_v2.py:689-698 | the time fields are assigned in the source's order, ending as `AssignTimes` gives them from the fields found |
| ApiSolver.Solver.Constrain | src/utils/solver_v2.py:811-815 | the phases after the initialisation, each writing the model it leaves before the next runs, ending as `Constrained` gives |

## Left out

- The CP-SAT search itself: the current scheduler stops at the built model (its `Solve` is not modelled), and the earlier and API schedulers' `generate` take the solver's answer as a `solve` parameter; `AddNoOverlap`, `AddCircuit` and `Minimize` are recorded in `CpModel` but `Holds` treats them as always satisfied.
- Wall-clock timing (`datetime.now()` around each phase of src/utils/solver_v2.py) and the `SOLVER_MAX_TIME_MINUTES` environment read at src/utils/solver_v2.py:818: I/O, not behaviour.
- The `__main__` demo blocks (src/utils/solver.py:711-1073, solver.py:569-927) and the current scheduler's result printing (src/utils/solver.py:668-707): console output only. The earlier scheduler's read-back (solver.py:553-565) is modelled by `LegacyReadBack`, which returns the collected lists and leaves out only the `print` calls.
- The Flask plumbing of main.py and app.py, the database stubs of db.py, the database reads in the controller (they become the data passed in) and `json.dumps`: I/O.
- The `pass` method stubs (solver.py:333-511 apart from the before-order and after-order rules, serializer.py:78-88, src/utils/solver.py:236-237): they do nothing and are not modelled.
- The earlier scheduler's precedence constraints (solver.py:280-330): `generate` never calls them.
- The commented-out room constraints at src/utils/solver_v2.py:596-624.
- The API scheduler's general constraints that only add no-overlap, unique-room, capacity and transfer constraints (src/utils/solver_v2.py:290-356, and the capacity and unique-room helpers they call at src/utils/solver_v2.py:627-646): the transfer dictionaries are the `transfers` parameter, and because only that constraint fills `gaps`, `ApiSolver.Built` records `Minimize(SumOf([]))` as the objective.
- JSON floats: the value type `PyVal` has no float, so `int()` truncation of a float field is not modelled; `timedelta.total_seconds()` is modelled as whole seconds, and `timedelta` overflow is not modelled.
- `datetime.strptime(v, "%H:%M:%S")` (src/utils/solver_v2.py:381-394) is abstracted as a `clock` parameter that maps a time string to its hour, minute and second, or to nothing when the string does not match the format (the ValueError); `ApiRules.ClockOf` turns the triple into seconds, as the `timedelta(hours=…, minutes=…, seconds=…)` that follows does.
- Unicode: `Text` lowers ASCII letters only, so `Controller.Search` models `re.IGNORECASE` for ASCII text.
- Text.ParseInt: Python's `int()` also reads non-ASCII decimal digits (any Unicode category Nd character, such as Arabic-Indic or full-width digits); `Text.ParseInt` reads the ASCII digits only. Whitespace (`str.isspace`), the sign and single underscores between digits are modelled.
- Serializer.IntOf: a string of non-ASCII decimal digits, which `int()` converts, is reported as a ValueError (see Text.ParseInt).
- LegacySchedule.PyInt: a string of non-ASCII decimal digits, which `int()` converts, is reported as a ValueError (see Text.ParseInt).
- ApiRules.WholeOf: a string of non-ASCII decimal digits, which `int()` converts, is reported as a ValueError (see Text.ParseInt).
- Controller.Search: the name pattern is matched as a list of literal alternatives; regular-expression metacharacters inside a name are not interpreted.
- Serializer.Call: the `fold` flag, which bit 7 of the month character sets in a pickled-state string, is not represented in `DateTime`; the model keeps the month with that bit cleared, as CPython does, and drops the flag, which changes neither the date nor its stamp. Bytes arguments do not arise from JSON and are not modelled.
- Records.Flatten: a datetime built from pickled state is not range-checked, so its day, hour, minute or second can lie outside the usual bounds; CPython's `strftime` then raises a ValueError, while the model writes the stamp.
- Serializer.PairOf: dictionary keys are strings in `PyVal`, so a non-string hashable key, which Python accepts, is reported as a `TypeError`.
- Aliasing: caller dictionaries and lists (a resource's data dictionary, the controller's name-to-list maps) are modelled as values, so a later change through another reference is not seen.
- ApiClients.WriteBack: the in-place renaming of MRI activities is modelled by returning the renamed value, checked against `ApiClients.WriteBackSpec`.
- ApiVariables.ClientStep: the `previous_start` variable threaded through the per-client loop is passed and returned as a value.
- ApiVariables.DefineVars, ApiRules.GeneralRules, ApiRules.ActivityRules: the per-client constraint loops are folds over values rather than loops over a shared model object.
- ApiSolver.Built, ApiSolver.Constrained, ApiSolver.Staged: within one phase the work is all-or-nothing; when an exception stops a phase midway (an assessment of the initialisation, a client of the variables, a between-orders or activity loop), what that phase already wrote is not recorded. The effects of the phases completed before it are (`Staged`), as are the partial states the setters leave.
- ApiSolver.Solver.TimeSettings: the phases read the seven time fields as one settings record, present once all are set; when a first `scenario_action` call stopped at `max_gap`, the start, end and interval are set but the record counts as unset, so the phases fail with the TypeError of unset settings even where the source would read the start alone.
- Scheduler.Solver.Generate and LegacyScheduler.Solver.Generate: on failure the ensures give the exception raised but not the model left behind.
- The API scheduler's index omits the interval variables and `rooms_per_activity`, which only the unmodelled constraints above read.
- ApiGenerate.ActivityRow: the contract states the id and start only; the room, floor and end come from the body, and `ApiGenerate.RoomChosenSpec` states the room choice.
- ApiSetup.ScenarioOf, ApiSetup.SetData, ApiSetup.ActivityOf: the contracts state the resulting class only; the fields are copied as the body shows.
- ApiClients.TierCount: the contract states the `AttributeError` case only.
- ApiGenerate.Extract: the contract states the length; `ApiGenerate.ExtractAt` states the content.
- ApiVariables.OptionsOf and ApiVariables.SlotStep: their own contracts are structural; `ApiVariables.SlotMeaning` states what the options mean.

## Findings

| source | as written | input that shows it | evidently intended | confidence | as-written member | corrected member |
|---|---|---|---|---|---|---|
| solver.py:211 | a slot with a single option fixes the client's floor to `activity.room_floor`, where `activity` is the loop variable left over from the previous multi-option slot | slots [[t1 on floor 1, t2 on floor 2], [t3 on floor 1]] pin the second slot to floor 2; a first slot with a single option raises UnboundLocalError | `activities[0].room_floor`, as src/utils/solver.py:180 writes it | not executed | LegacyVariables.StaleFloorMisplaces, LegacyVariables.UnboundOnFirstSlot | VariableSpec.SlotMeaning, LegacyVariables.SchedMultiAgrees |
| src/utils/solver_v2.py:557-568 | the between-orders rule receives (start, end) as (order_before, order_after) and then requires order > end and order < start | start 1, end 3: no order satisfies order > 3 and order < 1, so every schedule is infeasible | start < order < end | not executed | ApiRules.BetweenOrdersAsWrittenEmpty | ApiRules.BetweenOrdersMeaning, ApiRules.BetweenOrdersWitness |
| solver.py:556-560 | `previous_activity_index` starts at None and is never reassigned, so `not previous_activity_index` holds at every slot and the floor literal is read under `(client, None, slot)`, a key the gap constraints never file | any model the solver reports OPTIMAL with a client that has at least one slot: `generate` raises KeyError instead of returning OPTIMAL | the index follows the slots, and the transfer into each slot after the first is read under `(client, slot - 1, slot)` | not executed | LegacyReadBack.FinishedAsWritten, LegacyReadBack.ClientRowsAsWrittenFail | LegacyReadBack.GeneratedFinishes, LegacyReadBack.ClientRowsFiled |
