/** `src/utils/serializer.py`: the camelCase to snake_case key conversion, the construction of
    dataclasses from JSON dicts over their declared field types, and the two derivations of
    solver inputs from a scenario action. */
module Serializer {
  import opened Wrappers
  import opened PyDict
  import opened Text
  import opened Records

  // `format_field`.

  /** `re.sub(r'[A-Z]', lambda m: '_' + m.group(0).lower(), key)`. */
  function FormatField(s: string): (r: string)
    ensures forall i :: 0 <= i < |r| ==> !IsUpper(r[i])
    ensures |r| >= |s|
  {
    if s == [] then []
    else (if IsUpper(s[0]) then ['_', Lower(s[0])] else [s[0]]) + FormatField(s[1..])
  }

  predicate NoUpper(s: string) {
    forall i :: 0 <= i < |s| ==> !IsUpper(s[i])
  }

  /** A key without capitals is left as it is. */
  lemma {:induction false} FormatFieldPlain(s: string)
    requires NoUpper(s)
    ensures FormatField(s) == s
  {
    if s != [] {
      FormatFieldPlain(s[1..]);
    }
  }

  /** Every capital leaves an underscore behind. */
  lemma {:induction false} FormatFieldUnderscore(s: string, i: nat)
    requires i < |s| && IsUpper(s[i])
    ensures '_' in FormatField(s)
  {
    if i > 0 {
      FormatFieldUnderscore(s[1..], i - 1);
      assert FormatField(s) == FormatField(s)[..|FormatField(s)| - |FormatField(s[1..])|] + FormatField(s[1..]);
    }
  }

  /** So only the name itself formats to a name without underscores. */
  lemma FormatFieldOnly(k: string, t: string)
    requires FormatField(k) == t && '_' !in t
    ensures k == t
  {
    forall i | 0 <= i < |k|
      ensures !IsUpper(k[i])
    {
      if IsUpper(k[i]) {
        FormatFieldUnderscore(k, i);
      }
    }
    FormatFieldPlain(k);
  }

  /** A snake_case name: no capitals, and every underscore is followed by a lower-case letter. */
  predicate Snake(s: string) {
    NoUpper(s) && forall i :: 0 <= i < |s| && s[i] == '_' ==> i + 1 < |s| && IsLower(s[i + 1])
  }

  /** `format_field` undoes the key conversion of `Record.to_json` on snake_case names. */
  lemma {:induction false} FormatCamel(s: string)
    requires Snake(s)
    ensures FormatField(CamelKey(s)) == s
  {
    if s != [] {
      if s[0] == '_' {
        assert IsLower(s[1]);
        assert Snake(s[2..]) by {
          forall i | 0 <= i < |s[2..]| && s[2..][i] == '_'
            ensures i + 1 < |s[2..]| && IsLower(s[2..][i + 1])
          {
            assert s[i + 2] == '_';
          }
        }
        FormatCamel(s[2..]);
        assert s == [s[0], s[1]] + s[2..];
      } else {
        assert Snake(s[1..]) by {
          forall i | 0 <= i < |s[1..]| && s[1..][i] == '_'
            ensures i + 1 < |s[1..]| && IsLower(s[1..][i + 1])
          {
            assert s[i + 1] == '_';
          }
        }
        FormatCamel(s[1..]);
        assert s == [s[0]] + s[1..];
      }
    }
  }

  /** And the key conversion undoes `format_field` on names without underscores. */
  lemma {:induction false} CamelFormat(s: string)
    requires '_' !in s
    ensures CamelKey(FormatField(s)) == s
  {
    if s != [] {
      assert '_' !in s[1..];
      CamelFormat(s[1..]);
      var r := FormatField(s[1..]);
      if IsUpper(s[0]) {
        assert FormatField(s) == ['_', Lower(s[0])] + r;
        assert (['_', Lower(s[0])] + r)[2..] == r;
      } else {
        assert FormatField(s) == [s[0]] + r;
        assert ([s[0]] + r)[1..] == r;
      }
      assert s == [s[0]] + s[1..];
    }
  }

  // Calling a type on one value.

  /** `int(v)`: numbers and booleans, and strings holding a base-10 numeral (`Text.ParseInt`). */
  function IntOf(v: PyVal): (r: Result<PyVal>)
    ensures r.Ok? ==> r.value.PInt?
    ensures r.Err? ==> if v.PStr? then r.error.ValueError? else r.error == TypeError
    ensures v.PStr? ==> r.Ok? == ParseInt(v.s).Some?
  {
    match v
    case PInt(_) => Ok(v)
    case PBool(b) => Ok(PInt(if b then 1 else 0))
    case PStr(s) => (match ParseInt(s) case Some(i) => Ok(PInt(i)) case None => Err(ValueError("invalid literal for int()")))
    case _ => Err(TypeError)
  }

  /** `str(v)`: `show` renders the values whose `str` is their `repr` (lists, dicts, records,
      enum members, datetimes). */
  function StrOf(v: PyVal, show: PyVal -> string): (r: string)
    ensures v.PStr? ==> r == v.s
  {
    match v
    case PStr(s) => s
    case PInt(i) => ShowInt(i)
    case PBool(b) => if b then "True" else "False"
    case PNone => "None"
    case _ => show(v)
  }

  /** `bool(v)`: records, enum members and datetimes are always true. */
  predicate Truthy(v: PyVal) {
    match v
    case PNone => false
    case PBool(b) => b
    case PInt(i) => i != 0
    case PStr(s) => s != []
    case PList(xs) => xs != []
    case PDict(d) => d != []
    case _ => true
  }

  /** `E(v)`: a member of `E` is returned as it is; anything else is looked up by value. */
  function EnumOf(e: EnumCls, v: PyVal): (r: Result<PyVal>)
    ensures r.Ok? ==> r.value.PEnum? && r.value.m.cls == e
    ensures r.Err? ==> r.error.ValueError?
  {
    if v.PEnum? && v.m.cls == e then Ok(v)
    else match ByValue(e, v)
      case Ok(m) => Ok(PEnum(m))
      case Err(x) => Err(x)
  }

  /** One element of `dict(xs)`: an iterable of exactly two items, the key and the value; a
      TypeError for an element that is not iterable or a key that cannot be hashed, a ValueError
      for another length.  A `PDict` holds string keys, so a key of another hashable kind is
      refused with a TypeError as well. */
  function PairOf(x: PyVal): (r: Result<(string, PyVal)>)
    ensures r.Ok? <==> Iter(x).Ok? && |Iter(x).value| == 2 && Iter(x).value[0].PStr?
    ensures r.Ok? ==> Iter(x).value == [PStr(r.value.0), r.value.1]
    ensures Iter(x).Ok? && |Iter(x).value| != 2 ==> r.Err? && r.error.ValueError?
  {
    var items :- Iter(x);
    if |items| != 2 then Err(ValueError("dictionary update sequence element has the wrong length"))
    else if !Hashable(items[0]) || !items[0].PStr? then Err(TypeError)
    else Ok((items[0].s, items[1]))
  }

  /** `dict(xs)` for the elements `xs` of an iterable: the pairs in order, a later pair with the
      same key replacing the value in place; the first element that is not a pair stops it. */
  function DictFrom(xs: seq<PyVal>): (r: Result<Dict<string, PyVal>>)
    ensures r.Ok? <==> forall i :: 0 <= i < |xs| ==> PairOf(xs[i]).Ok?
  {
    if xs == [] then Ok([])
    else
      var d :- DictFrom(xs[..|xs| - 1]);
      var p :- PairOf(xs[|xs| - 1]);
      Ok(Put(d, p.0, p.1))
  }

  /** The pair `i` of the elements is the last one with key `k`. */
  predicate LastFor(xs: seq<PyVal>, k: string, i: int)
    requires forall j :: 0 <= j < |xs| ==> PairOf(xs[j]).Ok?
  {
    0 <= i < |xs| && PairOf(xs[i]).value.0 == k && forall j :: i < j < |xs| ==> PairOf(xs[j]).value.0 != k
  }

  /** `dict(xs)` maps a key to the value of the last pair with that key, and holds no other key. */
  lemma {:induction false} DictFromLast(xs: seq<PyVal>, k: string)
    requires DictFrom(xs).Ok?
    ensures Get(DictFrom(xs).value, k).None? <==> forall i :: 0 <= i < |xs| ==> PairOf(xs[i]).value.0 != k
    ensures forall i :: LastFor(xs, k, i) ==> Get(DictFrom(xs).value, k) == Some(PairOf(xs[i]).value.1)
  {
    if xs != [] {
      var init := xs[..|xs| - 1];
      var p := PairOf(xs[|xs| - 1]).value;
      var d := DictFrom(init).value;
      assert DictFrom(xs).value == Put(d, p.0, p.1);
      DictFromLast(init, k);
      if p.0 == k {
        GetPutSame(d, p.0, p.1);
      } else {
        GetPutOther(d, p.0, p.1, k);
        forall i | LastFor(xs, k, i) ensures LastFor(init, k, i) {
          assert xs[i] == init[i];
        }
        assert forall i :: 0 <= i < |init| ==> xs[i] == init[i];
      }
    }
  }

  /** `dict(v)`: a dict is copied, anything else is iterated for its pairs. */
  function DictOf(v: PyVal): (r: Result<PyVal>)
    ensures v.PDict? ==> r == Ok(v)
    ensures !v.PDict? ==> (r.Ok? <==> Iter(v).Ok? && DictFrom(Iter(v).value).Ok?)
    ensures r.Ok? ==> r.value.PDict?
  {
    if v.PDict? then Ok(v)
    else
      var items :- Iter(v);
      var d :- DictFrom(items);
      Ok(PDict(d))
  }

  /** An empty string or list makes an empty dict, a two-character string a one-entry dict, and
      a longer string a ValueError; an int is not iterable. */
  lemma DictOfStrings()
    ensures DictOf(PStr("")) == Ok(PDict([])) && DictOf(PList([])) == Ok(PDict([]))
    ensures DictOf(PList([PStr("ab")])) == Ok(PDict([("a", PStr("b"))]))
    ensures DictOf(PList([PStr("abc")])).Err? && DictOf(PList([PStr("abc")])).error.ValueError?
    ensures DictOf(PInt(1)) == Err(TypeError)
  {
    assert Iter(PStr("ab")).value == [PStr("a"), PStr("b")];
    assert |Iter(PStr("abc")).value| == 3;
    assert [PStr("ab")][..0] == [];
  }

  // `datetime(v)` with one argument.

  /** CPython's `datetime` constructor reads a single str argument of ten characters whose
      third character, with bit 7 cleared, is a month 1 .. 12 as pickled state. */
  predicate PickleState(s: string) {
    |s| == 10 && 1 <= (s[2] as int) % 128 <= 12
  }

  /** Every character fits in one Latin-1 byte. */
  predicate Latin1(s: string) {
    forall i :: 0 <= i < |s| ==> (s[i] as int) < 256
  }

  /** The datetime a ten-byte state encodes, with no range checks: the year in two bytes, month
      (bit 7, the `fold` flag, cleared), day, hour, minute and second in one each, and the
      microseconds in three. */
  function FromState(s: string): DateTime
    requires |s| == 10
  {
    DateTime((s[0] as int) * 256 + s[1] as int, (s[2] as int) % 128, s[3] as int, s[4] as int,
             s[5] as int, s[6] as int, (s[7] as int) * 65536 + (s[8] as int) * 256 + s[9] as int)
  }

  /** The state a datetime pickles to, as a string of Latin-1 characters. */
  function StateOf(t: DateTime): (s: string)
    requires ValidTime(t)
    ensures |s| == 10 && PickleState(s) && Latin1(s)
  {
    [(t.year / 256) as char, (t.year % 256) as char, t.month as char, t.day as char, t.hour as char,
     t.minute as char, t.second as char, (t.micro / 65536) as char, (t.micro / 256 % 256) as char,
     (t.micro % 256) as char]
  }

  /** `t(v)` for a declared type `t`.  `datetime(v)` succeeds only on a pickled-state string
      (`PickleState`), a ValueError when that string is not Latin-1, and is a TypeError on any
      other value, which it takes for a year without a month.  A dataclass takes `v` as its first
      field.  `NoneType(v)`, and calling a `List[...]` alias or a union, raise a TypeError. */
  function Call(t: FieldType, v: PyVal, show: PyVal -> string): (r: Result<PyVal>)
    ensures t.NoneT? || t.ListT? || t.UnionT? ==> r == Err(TypeError)
    ensures t.TimeT? ==> (r.Ok? <==> v.PStr? && PickleState(v.s) && Latin1(v.s))
    ensures t.TimeT? && r.Err? ==> (r.error == TypeError <==> !(v.PStr? && PickleState(v.s)))
  {
    match t
    case IntT => IntOf(v)
    case StrT => Ok(PStr(StrOf(v, show)))
    case BoolT => Ok(PBool(Truthy(v)))
    case DictT => DictOf(v)
    case TimeT =>
      if !(v.PStr? && PickleState(v.s)) then Err(TypeError)
      else if Latin1(v.s) then Ok(PTime(FromState(v.s)))
      else Err(ValueError("Failed to encode latin1 string when unpickling a datetime object"))
    case EnumT(e) => EnumOf(e, v)
    case ClsT(d) => if d.fields == [] then Err(TypeError) else Construct(d, [(d.fields[0].name, v)])
    case _ => Err(TypeError)
  }

  /** The union loop: each member type is called on the value in turn; the first call that
      returns wins, and when every call raises the value is kept as it is.  (The loop's
      `_type is None` test never holds, as a union lists `NoneType`, not `None`.) */
  function TryUnion(ms: seq<FieldType>, v: PyVal, show: PyVal -> string): PyVal {
    if ms == [] then v
    else match Call(ms[0], v, show)
      case Ok(w) => w
      case Err(_) => TryUnion(ms[1..], v, show)
  }

  /** The first member whose call returns decides the value. */
  lemma {:induction false} UnionFirstWins(ms: seq<FieldType>, v: PyVal, show: PyVal -> string, i: nat)
    requires i < |ms| && Call(ms[i], v, show).Ok?
    requires forall j :: 0 <= j < i ==> Call(ms[j], v, show).Err?
    ensures TryUnion(ms, v, show) == Call(ms[i], v, show).value
  {
    if i > 0 {
      UnionFirstWins(ms[1..], v, show, i - 1);
    }
  }

  /** When every member raises, the raw value is kept. */
  lemma {:induction false} UnionAllFail(ms: seq<FieldType>, v: PyVal, show: PyVal -> string)
    requires forall j :: 0 <= j < |ms| ==> Call(ms[j], v, show).Err?
    ensures TryUnion(ms, v, show) == v
  {
    if ms != [] {
      UnionAllFail(ms[1..], v, show);
    }
  }

  /** A client's `client_room: Resource | None` given as a JSON object stays that dict: the
      `Resource` call binds the dict to `created` and misses `updated`, and `NoneType` raises. */
  lemma ClientRoomKept(d: Dict<string, PyVal>, show: PyVal -> string)
    ensures TryUnion([ClsT(ResourceClass()), NoneT], PDict(d), show) == PDict(d)
  {
    var c := ResourceClass();
    var args := [(c.fields[0].name, PDict(d))];
    assert Keys(args) == ["created"];
    DefaultArg(c.fields[1], args);
    BindNeedsField(c.fields, args, 1);
    UnionAllFail([ClsT(ResourceClass()), NoneT], PDict(d), show);
  }

  // `serialize_as_dataclass`.

  /** The position of the field named `k`. */
  function FieldIndex(fs: seq<Field>, k: string): (r: Option<nat>)
    ensures r.Some? ==> r.value < |fs| && fs[r.value].name == k && IsField(k, fs)
    ensures r.None? ==> !IsField(k, fs) && forall i :: 0 <= i < |fs| ==> fs[i].name != k
  {
    if fs == [] then None
    else if fs[0].name == k then Some(0)
    else match FieldIndex(fs[1..], k)
      case Some(i) => Some(i + 1)
      case None => None
  }

  /** The values `for a in v` visits: a list's items, a string's characters, a dict's keys. */
  function Iter(v: PyVal): (r: Result<seq<PyVal>>)
    ensures r.Err? <==> !(v.PList? || v.PStr? || v.PDict?)
  {
    match v
    case PList(xs) => Ok(xs)
    case PStr(s) => Ok(seq(|s|, i requires 0 <= i < |s| => PStr([s[i]])))
    case PDict(d) => var ks := Keys(d); Ok(seq(|ks|, i requires 0 <= i < |ks| => PStr(ks[i])))
    case _ => Err(TypeError)
  }

  /** How an attribute is converted for its declared type `t`: a union by the union loop, a
      `List[e]` element-wise by serializing each element as an `e`, a class of `MODELS` or
      `solver_model.MODELS` by serializing the dict into it, anything else by calling `t`. */
  function Convert(t: FieldType, v: PyVal, show: PyVal -> string): Result<PyVal>
    decreases t, 1
  {
    match t
    case UnionT(ms) => Ok(TryUnion(ms, v, show))
    case ListT(elem) =>
      var items :- Iter(v);
      var out :- ItemsFrom(elem, items, [], show);
      Ok(PList(out))
    case ClsT(d) =>
      if d.name.TransferActivity? then Call(t, v, show)
      else if v.PDict? then Serialized(d, v.entries, show)
      else Err(TypeError)
    case _ => Call(t, v, show)
  }

  /** `[serialize_as_dataclass(elem, **a) for a in items]`, appended to `acc`: a TypeError for
      an item that is not a dict or an element type that is not a dataclass. */
  function ItemsFrom(elem: FieldType, items: seq<PyVal>, acc: seq<PyVal>, show: PyVal -> string): Result<seq<PyVal>>
    decreases elem, 0, |items|
  {
    if items == [] then Ok(acc)
    else
      var x :- if elem.ClsT? && items[0].PDict? then Serialized(elem.c, items[0].entries, show) else Err(TypeError);
      ItemsFrom(elem, items[1..], acc + [x], show)
  }

  /** The attributes loop from keyword `kws[0]` on, with `acc` collected so far: a keyword
      whose formatted name is not a field, or whose value is None, is skipped; any other is
      converted and stored under the formatted name. */
  function AttrsFrom(c: Class, kws: Dict<string, PyVal>, acc: Dict<string, PyVal>, show: PyVal -> string): Result<Dict<string, PyVal>>
    decreases c, 2, |kws|
  {
    if kws == [] then Ok(acc)
    else
      var k := FormatField(kws[0].0);
      match FieldIndex(c.fields, k)
      case None => AttrsFrom(c, kws[1..], acc, show)
      case Some(j) =>
        if kws[0].1 == PNone then AttrsFrom(c, kws[1..], acc, show)
        else
          assert c.fields[j] in c.fields;
          var a :- Convert(c.fields[j].ty, kws[0].1, show);
          AttrsFrom(c, kws[1..], Put(acc, k, a), show)
  }

  /** `serialize_as_dataclass(c, **kws)`: a keyword `o` collides with the positional
      parameter `o`, so the call raises a TypeError before the body runs. */
  function Serialized(c: Class, kws: Dict<string, PyVal>, show: PyVal -> string): Result<PyVal>
    decreases c, 3
  {
    if Get(kws, "o").Some? then Err(TypeError)
    else
      var attrs :- AttrsFrom(c, kws, [], show);
      Construct(c, attrs)
  }

  method SerializeAsDataclass(c: Class, kwargs: Dict<string, PyVal>, show: PyVal -> string) returns (r: Result<PyVal>)
    ensures r == Serialized(c, kwargs, show)
    decreases c, 3
  {
    if Get(kwargs, "o").Some? {
      return Err(TypeError);
    }
    var attributes: Dict<string, PyVal> := [];
    var i := 0;
    while i < |kwargs|
      invariant i <= |kwargs|
      invariant AttrsFrom(c, kwargs, [], show) == AttrsFrom(c, kwargs[i..], attributes, show)
    {
      var (field, attribute) := kwargs[i];
      assert kwargs[i..][1..] == kwargs[i + 1..];
      var formatted := FormatField(field);
      var index := FieldIndex(c.fields, formatted);
      if index.None? || attribute == PNone {
        i := i + 1;
        continue;
      }
      var fieldType := c.fields[index.value].ty;
      assert c.fields[index.value] in c.fields;
      var converted := ConvertAttribute(fieldType, attribute, show);
      if converted.Err? {
        return Err(converted.error);
      }
      attributes := Put(attributes, formatted, converted.value);
      i := i + 1;
    }
    r := Construct(c, attributes);
  }

  method ConvertAttribute(t: FieldType, v: PyVal, show: PyVal -> string) returns (r: Result<PyVal>)
    ensures r == Convert(t, v, show)
    decreases t, 1
  {
    match t {
      case UnionT(ms) =>
        var i := 0;
        while i < |ms|
          invariant i <= |ms|
          invariant TryUnion(ms, v, show) == TryUnion(ms[i..], v, show)
        {
          assert ms[i..][1..] == ms[i + 1..];
          var attempt := Call(ms[i], v, show);
          if attempt.Ok? {
            return Ok(attempt.value);
          }
          i := i + 1;
        }
        r := Ok(v);
      case ListT(elem) =>
        var items := Iter(v);
        if items.Err? {
          return Err(items.error);
        }
        var out: seq<PyVal> := [];
        var i := 0;
        while i < |items.value|
          invariant i <= |items.value|
          invariant ItemsFrom(elem, items.value, [], show) == ItemsFrom(elem, items.value[i..], out, show)
        {
          var a := items.value[i];
          assert items.value[i..][1..] == items.value[i + 1..];
          if !(elem.ClsT? && a.PDict?) {
            return Err(TypeError);
          }
          var x := SerializeAsDataclass(elem.c, a.entries, show);
          if x.Err? {
            return Err(x.error);
          }
          out := out + [x.value];
          i := i + 1;
        }
        r := Ok(PList(out));
      case ClsT(d) =>
        if d.name.TransferActivity? {
          r := Call(t, v, show);
        } else if v.PDict? {
          r := SerializeAsDataclass(d, v.entries, show);
        } else {
          r := Err(TypeError);
        }
      case _ =>
        r := Call(t, v, show);
    }
  }

  // What `serialize_as_dataclass` passes to the constructor.

  /** A keyword whose formatted name is not a field, or whose value is None, makes no
      difference: the result is that of the call without it. */
  lemma {:induction false} AttrsDrop(c: Class, kws: Dict<string, PyVal>, acc: Dict<string, PyVal>, show: PyVal -> string, i: nat)
    requires i < |kws| && (FieldIndex(c.fields, FormatField(kws[i].0)).None? || kws[i].1 == PNone)
    ensures AttrsFrom(c, kws, acc, show) == AttrsFrom(c, kws[..i] + kws[i + 1..], acc, show)
  {
    if i == 0 {
      assert kws[..0] + kws[1..] == kws[1..];
    } else {
      var rest, tail := kws[..i] + kws[i + 1..], kws[1..];
      assert rest[0] == kws[0] && tail[i - 1] == kws[i];
      assert rest[1..] == tail[..i - 1] + tail[i..];
      var k := FormatField(kws[0].0);
      match FieldIndex(c.fields, k)
      case None => AttrsDrop(c, tail, acc, show, i - 1);
      case Some(j) =>
        if kws[0].1 == PNone {
          AttrsDrop(c, tail, acc, show, i - 1);
        } else {
          assert c.fields[j] in c.fields;
          match Convert(c.fields[j].ty, kws[0].1, show)
          case Err(_) =>
          case Ok(a) => AttrsDrop(c, tail, Put(acc, k, a), show, i - 1);
        }
    }
  }

  /** Only a field name can end up among the attributes. */
  lemma {:induction false} AllKnownPut(d: Dict<string, PyVal>, fs: seq<Field>, k: string, v: PyVal)
    requires AllKnown(d, fs) && IsField(k, fs)
    ensures AllKnown(Put(d, k, v), fs)
  {
    if d != [] && d[0].0 != k {
      AllKnownPut(d[1..], fs, k, v);
    }
  }

  lemma {:induction false} AttrsKnown(c: Class, kws: Dict<string, PyVal>, acc: Dict<string, PyVal>, show: PyVal -> string, r: Dict<string, PyVal>)
    requires AttrsFrom(c, kws, acc, show) == Ok(r) && AllKnown(acc, c.fields)
    ensures AllKnown(r, c.fields)
  {
    if kws != [] {
      var k := FormatField(kws[0].0);
      match FieldIndex(c.fields, k)
      case None => AttrsKnown(c, kws[1..], acc, show, r);
      case Some(j) =>
        if kws[0].1 == PNone {
          AttrsKnown(c, kws[1..], acc, show, r);
        } else {
          assert c.fields[j] in c.fields;
          var a := Convert(c.fields[j].ty, kws[0].1, show).value;
          AllKnownPut(acc, c.fields, k, a);
          AttrsKnown(c, kws[1..], Put(acc, k, a), show, r);
        }
    }
  }

  /** A name that no non-None keyword formats to keeps what it had. */
  lemma {:induction false} AttrsUntouched(c: Class, kws: Dict<string, PyVal>, acc: Dict<string, PyVal>, show: PyVal -> string, r: Dict<string, PyVal>, k: string)
    requires AttrsFrom(c, kws, acc, show) == Ok(r)
    requires forall i :: 0 <= i < |kws| && kws[i].1 != PNone ==> FormatField(kws[i].0) != k
    ensures Get(r, k) == Get(acc, k)
  {
    if kws != [] {
      var k0 := FormatField(kws[0].0);
      match FieldIndex(c.fields, k0)
      case None => AttrsUntouched(c, kws[1..], acc, show, r, k);
      case Some(j) =>
        if kws[0].1 == PNone {
          AttrsUntouched(c, kws[1..], acc, show, r, k);
        } else {
          assert c.fields[j] in c.fields;
          var a := Convert(c.fields[j].ty, kws[0].1, show).value;
          AttrsUntouched(c, kws[1..], Put(acc, k0, a), show, r, k);
          GetPutOther(acc, k0, a, k);
        }
    }
  }

  /** The last non-None keyword that formats to a field's name gives that field its converted
      value. */
  lemma {:induction false} AttrsGiven(c: Class, kws: Dict<string, PyVal>, acc: Dict<string, PyVal>, show: PyVal -> string, r: Dict<string, PyVal>, i: nat)
    requires AttrsFrom(c, kws, acc, show) == Ok(r) && i < |kws|
    requires FieldIndex(c.fields, FormatField(kws[i].0)).Some? && kws[i].1 != PNone
    requires forall j :: i < j < |kws| && kws[j].1 != PNone ==> FormatField(kws[j].0) != FormatField(kws[i].0)
    ensures var t := c.fields[FieldIndex(c.fields, FormatField(kws[i].0)).value].ty;
      Convert(t, kws[i].1, show).Ok? && Get(r, FormatField(kws[i].0)) == Some(Convert(t, kws[i].1, show).value)
  {
    var k0 := FormatField(kws[0].0);
    match FieldIndex(c.fields, k0)
    case None => AttrsGiven(c, kws[1..], acc, show, r, i - 1);
    case Some(j) =>
      if kws[0].1 == PNone {
        AttrsGiven(c, kws[1..], acc, show, r, i - 1);
      } else {
        assert c.fields[j] in c.fields;
        var a := Convert(c.fields[j].ty, kws[0].1, show).value;
        if i == 0 {
          AttrsUntouched(c, kws[1..], Put(acc, k0, a), show, r, k0);
          GetPutSame(acc, k0, a);
        } else {
          AttrsGiven(c, kws[1..], Put(acc, k0, a), show, r, i - 1);
        }
      }
  }

  /** A keyword that converts with an error makes the whole call fail. */
  lemma {:induction false} AttrsFail(c: Class, kws: Dict<string, PyVal>, acc: Dict<string, PyVal>, show: PyVal -> string, i: nat)
    requires i < |kws| && FieldIndex(c.fields, FormatField(kws[i].0)).Some? && kws[i].1 != PNone
    requires Convert(c.fields[FieldIndex(c.fields, FormatField(kws[i].0)).value].ty, kws[i].1, show).Err?
    ensures AttrsFrom(c, kws, acc, show).Err?
  {
    if i > 0 {
      var k0 := FormatField(kws[0].0);
      match FieldIndex(c.fields, k0)
      case None => AttrsFail(c, kws[1..], acc, show, i - 1);
      case Some(j) =>
        if kws[0].1 == PNone {
          AttrsFail(c, kws[1..], acc, show, i - 1);
        } else {
          assert c.fields[j] in c.fields;
          match Convert(c.fields[j].ty, kws[0].1, show)
          case Err(_) =>
          case Ok(a) => AttrsFail(c, kws[1..], Put(acc, k0, a), show, i - 1);
        }
    }
  }

  lemma {:induction false} FieldIndexOf(fs: seq<Field>, j: nat)
    requires NamesDistinct(fs) && j < |fs|
    ensures FieldIndex(fs, fs[j].name) == Some(j)
  {
    if j > 0 {
      assert fs[0].name != fs[j].name;
      FieldIndexOf(fs[1..], j - 1);
    }
  }

  /** The constructor never sees an unknown keyword: the instance is built from the converted
      attributes, and a missing required field is the only way construction itself can fail. */
  lemma SerializedBuilds(c: Class, kws: Dict<string, PyVal>, show: PyVal -> string, attrs: Dict<string, PyVal>)
    requires AttrsFrom(c, kws, [], show) == Ok(attrs)
    ensures AllKnown(attrs, c.fields)
    ensures Serialized(c, kws, show) == if "o" in Keys(kws) then Err(TypeError) else Construct(c, attrs)
  {
    AttrsKnown(c, kws, [], show, attrs);
    GetSpec(kws, "o");
  }

  /** A keyword named `o` makes the call raise a TypeError, whatever the other keywords are:
      it would bind the class parameter a second time. */
  lemma SerializedKeywordO(c: Class, kws: Dict<string, PyVal>, show: PyVal -> string, i: nat)
    requires i < |kws| && kws[i].0 == "o"
    ensures Serialized(c, kws, show) == Err(TypeError)
  {
    assert Keys(kws)[i] == "o";
    GetSpec(kws, "o");
  }

  /** A field named by a (last) non-None keyword holds that keyword's converted value. */
  lemma SerializedGiven(c: Class, kws: Dict<string, PyVal>, show: PyVal -> string, o: PyVal, j: nat, i: nat)
    requires Serialized(c, kws, show) == Ok(o) && NamesDistinct(c.fields) && j < |c.fields|
    requires i < |kws| && FormatField(kws[i].0) == c.fields[j].name && kws[i].1 != PNone
    requires forall i' :: i < i' < |kws| && kws[i'].1 != PNone ==> FormatField(kws[i'].0) != c.fields[j].name
    ensures GetAttr(o, c.fields[j].name) == Convert(c.fields[j].ty, kws[i].1, show)
  {
    var attrs := AttrsFrom(c, kws, [], show).value;
    FieldIndexOf(c.fields, j);
    AttrsGiven(c, kws, [], show, attrs, i);
    InstanceField(c, attrs, j, o);
  }

  /** A field no non-None keyword names holds its default. */
  lemma SerializedDefault(c: Class, kws: Dict<string, PyVal>, show: PyVal -> string, o: PyVal, j: nat)
    requires Serialized(c, kws, show) == Ok(o) && NamesDistinct(c.fields) && j < |c.fields|
    requires forall i :: 0 <= i < |kws| && kws[i].1 != PNone ==> FormatField(kws[i].0) != c.fields[j].name
    ensures GetAttr(o, c.fields[j].name) == FieldArg(c.fields[j], [])
  {
    var attrs := AttrsFrom(c, kws, [], show).value;
    AttrsUntouched(c, kws, [], show, attrs, c.fields[j].name);
    GetSpec(attrs, c.fields[j].name);
    InstanceField(c, attrs, j, o);
    DefaultArg(c.fields[j], attrs);
    DefaultArg(c.fields[j], []);
  }

  /** A non-None keyword formatting to `created` whose value `datetime(v)` accepts. */
  predicate CreatedState(kws: Dict<string, PyVal>, i: int) {
    && 0 <= i < |kws| && kws[i].1 != PNone && FormatField(kws[i].0) == "created"
    && kws[i].1.PStr? && PickleState(kws[i].1.s) && Latin1(kws[i].1.s)
  }

  /** A record with the `Base` fields (`Resource`, `Activity`, `Condition`, ...) is serialized
      only when a `created` keyword is given and every non-None `created` value is a pickled
      datetime state: any other value makes `datetime(v)` raise, and without one the required
      field is missing. */
  lemma BaseRecordsNeedState(c: Class, kws: Dict<string, PyVal>, show: PyVal -> string)
    requires c.fields != [] && c.fields[0] == BaseFields()[0]
    ensures Serialized(c, kws, show).Ok? ==> exists i :: CreatedState(kws, i)
    ensures Serialized(c, kws, show).Ok? ==>
      forall i :: 0 <= i < |kws| && kws[i].1 != PNone && FormatField(kws[i].0) == "created" ==> CreatedState(kws, i)
  {
    if Get(kws, "o").Some? {
    } else if i :| 0 <= i < |kws| && kws[i].1 != PNone && FormatField(kws[i].0) == "created" && !CreatedState(kws, i) {
      assert FieldIndex(c.fields, "created") == Some(0);
      AttrsFail(c, kws, [], show, i);
    } else if !(exists i :: CreatedState(kws, i)) && AttrsFrom(c, kws, [], show).Ok? {
      var attrs := AttrsFrom(c, kws, [], show).value;
      AttrsUntouched(c, kws, [], show, attrs, "created");
      GetSpec(attrs, "created");
      DefaultArg(c.fields[0], attrs);
      BindNeedsField(c.fields, attrs, 0);
    }
  }

  /** `datetime` reads back the state a valid datetime pickles to. */
  lemma StateRoundTrip(t: DateTime, show: PyVal -> string)
    requires ValidTime(t)
    ensures Call(TimeT, PStr(StateOf(t)), show) == Ok(PTime(t))
  {
    var s := StateOf(t);
    var u := t.micro;
    assert u / 256 == u / 65536 * 256 + u / 256 % 256 && u == u / 256 * 256 + u % 256;
    assert FromState(s).micro == u;
    assert FromState(s).year == t.year;
  }

  /** `datetime('\x07\xe4\x01\x01\x00\x00\x00\x00\x00\x00')` is midnight on 1 January 2020;
      with bit 7 set on the month character the month is still January. */
  lemma StateExample(show: PyVal -> string)
    ensures Call(TimeT, PStr([7 as char, 228 as char, 1 as char, 1 as char, 0 as char, 0 as char, 0 as char, 0 as char, 0 as char, 0 as char]), show)
      == Ok(PTime(DateTime(2020, 1, 1, 0, 0, 0, 0)))
    ensures Call(TimeT, PStr([7 as char, 228 as char, 129 as char, 1 as char, 0 as char, 0 as char, 0 as char, 0 as char, 0 as char, 0 as char]), show)
      == Ok(PTime(DateTime(2020, 1, 1, 0, 0, 0, 0)))
  {
    var t := DateTime(2020, 1, 1, 0, 0, 0, 0);
    StateRoundTrip(t, show);
    assert StateOf(t) == [7 as char, 228 as char, 1 as char, 1 as char, 0 as char, 0 as char, 0 as char, 0 as char, 0 as char, 0 as char];
    var f := StateOf(t)[2 := 129 as char];
    assert f == [7 as char, 228 as char, 129 as char, 1 as char, 0 as char, 0 as char, 0 as char, 0 as char, 0 as char, 0 as char];
    assert Latin1(f) by {
      forall i | 0 <= i < |f| ensures (f[i] as int) < 256 {
        assert i != 2 ==> f[i] == StateOf(t)[i];
      }
    }
    assert PickleState(f) && FromState(f) == t;
  }


  // `serialize_scenario_action_as_solver_args`.

  /** A solver argument: a `timedelta` in whole seconds, a count or a flag. */
  datatype Arg = Duration(secs: int) | Count(n: int) | Flag(b: bool)

  /** `datetime.strptime(v, "%H:%M:%S")` reduced to the seconds since midnight: a TypeError for a
      value that is not a string, a ValueError when `clock` (the parser) rejects the string. */
  function ArrivalSecs(sa: PyVal, clock: string -> Option<(nat, nat, nat)>): (r: Result<int>)
    ensures r.Ok? ==>
      GetAttr(sa, "first_client_arrival_time").Ok? && GetAttr(sa, "first_client_arrival_time").value.PStr? &&
      clock(GetAttr(sa, "first_client_arrival_time").value.s).Some?
  {
    var v :- GetAttr(sa, "first_client_arrival_time");
    if !v.PStr? then Err(TypeError)
    else match clock(v.s)
      case None => Err(ValueError("time data does not match format '%H:%M:%S'"))
      case Some((h, m, s)) => Ok(h * 3600 + m * 60 + s)
  }

  /** `int(sa.<name>)`. */
  function IntAttr(sa: PyVal, name: string): (r: Result<int>)
    ensures GetAttr(sa, name) == Ok(PNone) ==> r == Err(TypeError)
  {
    var v :- GetAttr(sa, name);
    var n :- IntOf(v);
    Ok(n.i)
  }

  /** The solver's fixed inputs derived from a scenario action: the arrival time's h:m:s as the
      start, 23:59:59 as the end, five-minute intervals and transfers, two floors, `max_gap`
      minutes as the maximum gap, `doctors_on_duty` doctors and the simultaneous-transfers flag.
      The first step that raises decides the error. */
  method SolverArgs(sa: PyVal, clock: string -> Option<(nat, nat, nat)>) returns (r: Result<Dict<string, Arg>>)
    ensures r.Ok? <==>
      ArrivalSecs(sa, clock).Ok? && IntAttr(sa, "max_gap").Ok? && IntAttr(sa, "doctors_on_duty").Ok? &&
      GetAttr(sa, "allow_simultaneous_transfers").Ok?
    ensures GetAttr(sa, "doctors_on_duty") == Ok(PNone) ==> r.Err?
    ensures r.Ok? ==>
      var (h, m, s) := clock(GetAttr(sa, "first_client_arrival_time").value.s).value;
      r.value ==
        [ ("time_start", Duration(3600 * h + 60 * m + s)),
          ("time_end", Duration(86399)),
          ("time_max_interval", Duration(300)),
          ("time_max_gap", Duration(60 * IntAttr(sa, "max_gap").value)),
          ("time_transfer", Duration(300)),
          ("num_floors", Count(2)),
          ("num_doctors", Count(IntAttr(sa, "doctors_on_duty").value)),
          ("simultaneous_transfers", Flag(Truthy(GetAttr(sa, "allow_simultaneous_transfers").value))) ]
  {
    // Every key is new, so each assignment appends.
    var args: Dict<string, Arg> := [];
    var start := ArrivalSecs(sa, clock);
    if start.Err? {
      return Err(start.error);
    }
    args := args + [("time_start", Duration(start.value))];
    args := args + [("time_end", Duration(23 * 3600 + 59 * 60 + 59))];
    args := args + [("time_max_interval", Duration(5 * 60))];
    var maxGap := IntAttr(sa, "max_gap");
    if maxGap.Err? {
      return Err(maxGap.error);
    }
    args := args + [("time_max_gap", Duration(maxGap.value * 60))];
    args := args + [("time_transfer", Duration(5 * 60))];
    args := args + [("num_floors", Count(2))];
    var doctors := IntAttr(sa, "doctors_on_duty");
    if doctors.Err? {
      return Err(doctors.error);
    }
    args := args + [("num_doctors", Count(doctors.value))];
    var simultaneous := GetAttr(sa, "allow_simultaneous_transfers");
    if simultaneous.Err? {
      return Err(simultaneous.error);
    }
    args := args + [("simultaneous_transfers", Flag(Truthy(simultaneous.value)))];
    return Ok(args);
  }

  /** A scenario action built without `doctors_on_duty` holds None there, so deriving the solver
      arguments from it raises a TypeError. */
  lemma DoctorsDefault(args: Dict<string, PyVal>, o: PyVal)
    requires Construct(ScenarioActionClass(), args) == Ok(o) && "doctors_on_duty" !in Keys(args)
    ensures GetAttr(o, "doctors_on_duty") == Ok(PNone) && IntAttr(o, "doctors_on_duty") == Err(TypeError)
  {
    var c := ScenarioActionClass();
    ScenarioActionNames();
    InstanceField(c, args, 4, o);
    DefaultArg(c.fields[4], args);
  }

  // `serialize_assessments`.

  /** `sum((a, b))`: numbers and booleans add up, anything else is a TypeError. */
  function Sum2(a: PyVal, b: PyVal): (r: Result<int>)
    ensures r.Ok? <==> Num(a).Some? && Num(b).Some?
  {
    if Num(a).Some? && Num(b).Some? then Ok(Num(a).value + Num(b).value) else Err(TypeError)
  }

  /** The single clients of one tier of the scenario data: female plus male; couples are not
      counted. */
  function Singles(data: PyVal, tier: string): Result<int> {
    var t :- GetAttr(data, tier);
    var female :- GetAttr(t, "single_female");
    var male :- GetAttr(t, "single_male");
    Sum2(female, male)
  }

  /** The quantity an assessment dict receives: the elite singles for the assessment named
      'Elite', the ultimate singles for every other. */
  function QuantityFor(a: Dict<string, PyVal>, elites: int, ultimates: int): int {
    if Get(a, "name") == Some(PStr("Elite")) then elites else ultimates
  }

  /** `[serialize_as_dataclass(c, **{**a, 'quantity': q}) for a in assessments]`. */
  function SerializeEach(c: Class, assessments: seq<Dict<string, PyVal>>, elites: int, ultimates: int, show: PyVal -> string): (r: Result<seq<PyVal>>)
    ensures r.Ok? ==> |r.value| == |assessments|
  {
    if assessments == [] then Ok([])
    else
      var a := assessments[0];
      var first :- Serialized(c, Put(a, "quantity", PInt(QuantityFor(a, elites, ultimates))), show);
      var rest :- SerializeEach(c, assessments[1..], elites, ultimates, show);
      Ok([first] + rest)
  }

  /** `serialize_assessments`: the single clients of both tiers are counted first, then every
      assessment dict is built into a solver-model `Assessment` with its tier's count as
      quantity. */
  function SerializeAssessments(data: PyVal, assessments: seq<Dict<string, PyVal>>, show: PyVal -> string): Result<seq<PyVal>> {
    var elites :- Singles(data, "client_elite");
    var ultimates :- Singles(data, "client_ultimate");
    SerializeEach(SmAssessmentClass(), assessments, elites, ultimates, show)
  }

  lemma QuantityPlain()
    ensures NoUpper("quantity") && '_' !in "quantity" && SmAssessmentClass().fields[3].name == "quantity"
  { }

  lemma SmAssessmentNames()
    ensures NamesDistinct(SmAssessmentClass().fields)
  { }

  lemma {:induction false} SerializeEachAt(c: Class, assessments: seq<Dict<string, PyVal>>, elites: int, ultimates: int, show: PyVal -> string, out: seq<PyVal>, i: nat)
    requires SerializeEach(c, assessments, elites, ultimates, show) == Ok(out) && i < |assessments|
    ensures var a := assessments[i];
      Serialized(c, Put(a, "quantity", PInt(QuantityFor(a, elites, ultimates))), show) == Ok(out[i])
  {
    if i > 0 {
      SerializeEachAt(c, assessments[1..], elites, ultimates, show, SerializeEach(c, assessments[1..], elites, ultimates, show).value, i - 1);
    }
  }

  /** The one keyword of a dict that formats to a name without underscores is that name. */
  lemma OnlyKeyFor(d: Dict<string, PyVal>, i: nat, k: string)
    requires KeysDistinct(d) && i < |d| && d[i].0 == k && '_' !in k
    ensures forall j :: 0 <= j < |d| && j != i ==> FormatField(d[j].0) != k
  {
    forall j | 0 <= j < |d| && j != i
      ensures FormatField(d[j].0) != k
    {
      if FormatField(d[j].0) == k {
        FormatFieldOnly(d[j].0, k);
      }
    }
  }

  /** An int field given an int keyword under its own name holds that int. */
  lemma IntFieldKept(c: Class, j: nat, kws: Dict<string, PyVal>, n: int, show: PyVal -> string, o: PyVal)
    requires Serialized(c, kws, show) == Ok(o) && NamesDistinct(c.fields) && j < |c.fields|
    requires c.fields[j].ty == IntT && NoUpper(c.fields[j].name) && '_' !in c.fields[j].name
    requires KeysDistinct(kws) && Get(kws, c.fields[j].name) == Some(PInt(n))
    ensures GetAttr(o, c.fields[j].name) == Ok(PInt(n))
  {
    var name := c.fields[j].name;
    GetSpec(kws, name);
    var k :| 0 <= k < |kws| && kws[k] == (name, PInt(n));
    OnlyKeyFor(kws, k, name);
    FormatFieldPlain(name);
    SerializedGiven(c, kws, show, o, j, k);
  }

  /** Each serialized assessment's quantity is the single clients of its tier: elite for the
      assessment named 'Elite', ultimate for every other. */
  lemma AssessmentQuantity(data: PyVal, assessments: seq<Dict<string, PyVal>>, show: PyVal -> string, out: seq<PyVal>, i: nat)
    requires SerializeAssessments(data, assessments, show) == Ok(out) && i < |assessments| && KeysDistinct(assessments[i])
    ensures Singles(data, "client_elite").Ok? && Singles(data, "client_ultimate").Ok? && i < |out|
    ensures GetAttr(out[i], "quantity") == Ok(PInt(
      if Get(assessments[i], "name") == Some(PStr("Elite")) then Singles(data, "client_elite").value
      else Singles(data, "client_ultimate").value))
  {
    var elites := Singles(data, "client_elite").value;
    var ultimates := Singles(data, "client_ultimate").value;
    var a := assessments[i];
    var q := QuantityFor(a, elites, ultimates);
    SerializeEachAt(SmAssessmentClass(), assessments, elites, ultimates, show, out, i);
    GetPutSame(a, "quantity", PInt(q));
    PutKeepsDistinct(a, "quantity", PInt(q));
    SmAssessmentNames();
    QuantityPlain();
    IntFieldKept(SmAssessmentClass(), 3, Put(a, "quantity", PInt(q)), q, show, out[i]);
  }
}
