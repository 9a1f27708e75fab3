/** The bookkeeping of `Controller.retrieve_generated_scenario` (`src/controllers/controller.py`):
    activities indexed by name and by id, the enabled assessments, and for each of those the
    activity groups whose names do not mention another enabled assessment. */
module Controller {
  import opened Wrappers
  import opened PyDict
  import opened Text
  import opened Records

  /** An activity as the database returns it; only its id and name matter here. */
  datatype Activity = Activity(activityId: string, activityName: string)

  /** A value stored in an assessment's `data` dict. */
  datatype Data = Conditions(v: PyVal) | Groups(groups: seq<seq<Activity>>) | Other(v: PyVal)

  /** An assessment record: `data` is updated in place. */
  class AssessmentObj {
    const assessmentId: string
    const assessmentName: string
    const enabled: bool
    var data: Dict<string, Data>

    constructor(id: string, name: string, enabled: bool, data: Dict<string, Data>)
      ensures assessmentId == id && assessmentName == name && this.enabled == enabled && this.data == data
    {
      assessmentId := id;
      assessmentName := name;
      this.enabled := enabled;
      this.data := data;
    }
  }

  // The two activity maps.

  /** `activity_names_map` after the first `|acts|` activities. */
  function NamesMap(acts: seq<Activity>): Dict<string, seq<Activity>> {
    if acts == [] then []
    else
      var a := acts[|acts| - 1];
      Append(NamesMap(acts[..|acts| - 1]), a.activityName, a)
  }

  /** `activity_ids_map` after the first `|acts|` activities. */
  function IdsMap(acts: seq<Activity>): Dict<string, Activity> {
    if acts == [] then []
    else
      var a := acts[|acts| - 1];
      Put(IdsMap(acts[..|acts| - 1]), a.activityId, a)
  }

  method BuildMaps(activities: seq<Activity>) returns (names: Dict<string, seq<Activity>>, ids: Dict<string, Activity>)
    ensures names == NamesMap(activities) && ids == IdsMap(activities)
  {
    names := [];
    ids := [];
    for i := 0 to |activities|
      invariant names == NamesMap(activities[..i]) && ids == IdsMap(activities[..i])
    {
      var activity := activities[i];
      assert activities[..i + 1][..i] == activities[..i];
      names := Append(names, activity.activityName, activity);
      ids := Put(ids, activity.activityId, activity);
    }
    assert activities[..|activities|] == activities;
  }

  /** The activities named `n`, in input order. */
  function Named(acts: seq<Activity>, n: string): (r: seq<Activity>)
    ensures forall a :: a in r ==> a in acts && a.activityName == n
  {
    if acts == [] then []
    else Named(acts[..|acts| - 1], n) + (if acts[|acts| - 1].activityName == n then [acts[|acts| - 1]] else [])
  }

  /** The distinct names, in order of first appearance. */
  function FirstNames(acts: seq<Activity>): (r: seq<string>)
    ensures forall n :: n in r <==> exists a :: a in acts && a.activityName == n
  {
    if acts == [] then []
    else
      var prev := FirstNames(acts[..|acts| - 1]);
      var a := acts[|acts| - 1];
      assert forall b :: b in acts <==> b in acts[..|acts| - 1] || b == a;
      if a.activityName in prev then prev else prev + [a.activityName]
  }

  /** The last activity with id `id`. */
  function LastWithId(acts: seq<Activity>, id: string): (r: Option<Activity>)
    ensures r.Some? ==> r.value in acts && r.value.activityId == id
    ensures r.None? ==> forall a :: a in acts ==> a.activityId != id
  {
    if acts == [] then None
    else if acts[|acts| - 1].activityId == id then Some(acts[|acts| - 1])
    else
      assert forall b :: b in acts ==> b in acts[..|acts| - 1] || b == acts[|acts| - 1];
      LastWithId(acts[..|acts| - 1], id)
  }

  lemma KeysAppend<K, V>(d: Dict<K, seq<V>>, k: K, v: V)
    ensures Keys(Append(d, k, v)) == if k in Keys(d) then Keys(d) else Keys(d) + [k]
  {
    AppendIsExtend(d, k, v);
    ExtendIsPut(d, k, [v]);
    KeysPut(d, k, GetList(d, k) + [v]);
  }

  /** Each name maps to all the activities of that name, in input order. */
  lemma {:induction false} NamesMapGroups(acts: seq<Activity>, n: string)
    ensures GetList(NamesMap(acts), n) == Named(acts, n)
  {
    if acts != [] {
      var a := acts[|acts| - 1];
      NamesMapGroups(acts[..|acts| - 1], n);
      AppendGetList(NamesMap(acts[..|acts| - 1]), a.activityName, a, n);
    }
  }

  /** The names map lists each name once, in order of first appearance. */
  lemma {:induction false} NamesMapOrder(acts: seq<Activity>)
    ensures Keys(NamesMap(acts)) == FirstNames(acts)
  {
    if acts != [] {
      var a := acts[|acts| - 1];
      NamesMapOrder(acts[..|acts| - 1]);
      KeysAppend(NamesMap(acts[..|acts| - 1]), a.activityName, a);
    }
  }

  /** The ids map keeps, for each id, the last activity with it. */
  lemma {:induction false} IdsMapLast(acts: seq<Activity>, id: string)
    ensures Get(IdsMap(acts), id) == LastWithId(acts, id)
  {
    if acts != [] {
      var a := acts[|acts| - 1];
      if a.activityId == id {
        GetPutSame(IdsMap(acts[..|acts| - 1]), id, a);
      } else {
        IdsMapLast(acts[..|acts| - 1], id);
        GetPutOther(IdsMap(acts[..|acts| - 1]), a.activityId, a, id);
      }
    }
  }

  // The exclusion pattern.

  /** `[name for name in names if name != own]`. */
  function Others(names: seq<string>, own: string): (r: seq<string>)
    ensures own !in r
    ensures forall n :: n in r <==> n in names && n != own
  {
    if names == [] then []
    else (if names[0] != own then [names[0]] else []) + Others(names[1..], own)
  }

  /** `f'({"|".join(others)})'`. */
  function Pattern(others: seq<string>): string {
    "(" + Join('|', others) + ")"
  }

  /** `re.search(p, s, re.IGNORECASE) is not None` for a pattern that is one group of literal
      alternatives: some alternative occurs in `s`, ignoring ASCII case.  An empty alternative
      occurs everywhere. */
  predicate Search(p: string, s: string) {
    |p| >= 2 && Occurs(Split(p[1..|p| - 1], '|'), s)
  }

  predicate Occurs(alts: seq<string>, s: string) {
    alts != [] && (Contains(LowerStr(s), LowerStr(alts[0])) || Occurs(alts[1..], s))
  }

  lemma {:induction false} OccursAt(alts: seq<string>, s: string, i: nat)
    requires i < |alts| && Contains(LowerStr(s), LowerStr(alts[i]))
    ensures Occurs(alts, s)
  {
    if i > 0 {
      OccursAt(alts[1..], s, i - 1);
    }
  }

  lemma {:induction false} OccursWhich(alts: seq<string>, s: string) returns (i: nat)
    requires Occurs(alts, s)
    ensures i < |alts| && Contains(LowerStr(s), LowerStr(alts[i]))
  {
    if Contains(LowerStr(s), LowerStr(alts[0])) {
      i := 0;
    } else {
      i := OccursWhich(alts[1..], s);
      i := i + 1;
    }
  }

  /** Names without `|` come back out of the pattern as its alternatives; no names give the one
      empty alternative of `()`. */
  lemma PatternAlternatives(others: seq<string>)
    requires forall i :: 0 <= i < |others| ==> '|' !in others[i]
    ensures var p := Pattern(others); Split(p[1..|p| - 1], '|') == if others == [] then [""] else others
  {
    var p := Pattern(others);
    assert p[1..|p| - 1] == Join('|', others);
    if others != [] {
      SplitJoin('|', others);
    }
  }

  /** A name is matched exactly when another enabled assessment's name occurs in it, ignoring
      case, or when there is no other enabled assessment at all. */
  lemma SearchPattern(others: seq<string>, s: string)
    requires forall i :: 0 <= i < |others| ==> '|' !in others[i]
    ensures Search(Pattern(others), s) <==>
      others == [] || exists i :: 0 <= i < |others| && Contains(LowerStr(s), LowerStr(others[i]))
  {
    PatternAlternatives(others);
    if others == [] {
      assert Contains(LowerStr(s), LowerStr(""));
    } else if Search(Pattern(others), s) {
      var i := OccursWhich(others, s);
    } else {
      forall i | 0 <= i < |others|
        ensures !Contains(LowerStr(s), LowerStr(others[i]))
      {
        if Contains(LowerStr(s), LowerStr(others[i])) {
          OccursAt(others, s, i);
        }
      }
    }
  }

  /** `[names_map[n] for n in names_map if re.search(pattern, n, re.IGNORECASE) is None]`. */
  function Kept(names: Dict<string, seq<Activity>>, pattern: string): (r: seq<seq<Activity>>)
    ensures |r| <= |names|
  {
    if names == [] then []
    else (if Search(pattern, names[0].0) then [] else [names[0].1]) + Kept(names[1..], pattern)
  }

  /** The groups kept are those whose names the pattern misses, in the map's order. */
  lemma {:induction false} KeptExactly(names: Dict<string, seq<Activity>>, pattern: string, i: nat)
    requires i < |names| && !Search(pattern, names[i].0)
    ensures names[i].1 in Kept(names, pattern)
  {
    if i > 0 {
      KeptExactly(names[1..], pattern, i - 1);
    }
  }

  lemma {:induction false} KeptOnly(names: Dict<string, seq<Activity>>, pattern: string, g: seq<Activity>) returns (i: nat)
    requires g in Kept(names, pattern)
    ensures i < |names| && names[i].1 == g && !Search(pattern, names[i].0)
  {
    if !Search(pattern, names[0].0) && g == names[0].1 {
      i := 0;
    } else {
      i := KeptOnly(names[1..], pattern, g);
      i := i + 1;
    }
  }

  /** With a single enabled assessment the pattern is `()`, which matches every name, so the
      assessment receives no activities. */
  lemma {:induction false} AloneKeepsNothing(names: Dict<string, seq<Activity>>)
    ensures Kept(names, Pattern([])) == []
  {
    if names != [] {
      SearchPattern([], names[0].0);
      AloneKeepsNothing(names[1..]);
    }
  }

  // The assessments.

  /** `[a for a in assessments if a.enabled]`. */
  function EnabledOnly(assessments: seq<AssessmentObj>): (r: seq<AssessmentObj>)
    ensures forall a :: a in r ==> a in assessments && a.enabled
    ensures forall a :: a in assessments && a.enabled ==> a in r
  {
    if assessments == [] then []
    else (if assessments[0].enabled then [assessments[0]] else []) + EnabledOnly(assessments[1..])
  }

  function NamesOf(assessments: seq<AssessmentObj>): (r: seq<string>)
    ensures |r| == |assessments| && forall i :: 0 <= i < |r| ==> r[i] == assessments[i].assessmentName
  {
    if assessments == [] then [] else [assessments[0].assessmentName] + NamesOf(assessments[1..])
  }

  /** What an enabled assessment's `data` holds afterwards: its activity conditions, fetched by
      `conditionsOf`, and the groups whose names mention no other enabled assessment. */
  function Prepared(data: Dict<string, Data>, a: AssessmentObj, names: Dict<string, seq<Activity>>, enabledNames: seq<string>,
                    conditionsOf: string -> PyVal): Dict<string, Data>
  {
    var d := Put(data, "activity_conditions", Conditions(conditionsOf(a.assessmentId)));
    Put(d, "activities", Groups(Kept(names, Pattern(Others(enabledNames, a.assessmentName)))))
  }

  lemma PreparedTwice(data: Dict<string, Data>, a: AssessmentObj, names: Dict<string, seq<Activity>>, enabledNames: seq<string>,
                      conditionsOf: string -> PyVal)
    ensures Prepared(Prepared(data, a, names, enabledNames, conditionsOf), a, names, enabledNames, conditionsOf) ==
      Prepared(data, a, names, enabledNames, conditionsOf)
  {
    var c := Conditions(conditionsOf(a.assessmentId));
    var g := Groups(Kept(names, Pattern(Others(enabledNames, a.assessmentName))));
    var d1 := Put(data, "activity_conditions", c);
    var d2 := Put(d1, "activities", g);
    GetPutSame(data, "activity_conditions", c);
    assert "activities" != "activity_conditions";
    GetPutOther(d1, "activities", g, "activity_conditions");
    PutSameValue(d2, "activity_conditions", c);
    GetPutSame(d1, "activities", g);
    PutSameValue(d2, "activities", g);
  }

  /** Assigning a key the value it already has changes nothing. */
  lemma {:induction false} PutSameValue<K, V>(d: Dict<K, V>, k: K, v: V)
    requires Get(d, k) == Some(v)
    ensures Put(d, k, v) == d
  {
    if d != [] && d[0].0 != k {
      PutSameValue(d[1..], k, v);
    }
  }

  /** The two writes into one enabled assessment's `data`: its conditions, then the activity
      groups its pattern keeps. */
  method PrepareOne(assessment: AssessmentObj, names: Dict<string, seq<Activity>>, enabledNames: seq<string>,
                    conditionsOf: string -> PyVal)
    modifies assessment
    ensures assessment.data == Prepared(old(assessment.data), assessment, names, enabledNames, conditionsOf)
  {
    assessment.data := Put(assessment.data, "activity_conditions", Conditions(conditionsOf(assessment.assessmentId)));
    var others := Others(enabledNames, assessment.assessmentName);
    var pattern := Pattern(others);
    assessment.data := Put(assessment.data, "activities", Groups(Kept(names, pattern)));
  }

  /** The loop over the enabled assessments: each one's `data` is prepared (an assessment listed
      twice ends as if prepared once). */
  method PrepareEach(enabled: seq<AssessmentObj>, names: Dict<string, seq<Activity>>, enabledNames: seq<string>,
                     conditionsOf: string -> PyVal)
    modifies set a | a in enabled
    ensures forall a :: a in enabled ==> a.data == Prepared(old(a.data), a, names, enabledNames, conditionsOf)
  {
    for i := 0 to |enabled|
      invariant forall j :: 0 <= j < i ==> enabled[j].data == Prepared(old(enabled[j].data), enabled[j], names, enabledNames, conditionsOf)
      invariant forall a :: a in enabled ==>
        a.data == old(a.data) || a.data == Prepared(old(a.data), a, names, enabledNames, conditionsOf)
    {
      var assessment := enabled[i];
      PrepareOne(assessment, names, enabledNames, conditionsOf);
      PreparedTwice(old(assessment.data), assessment, names, enabledNames, conditionsOf);
    }
  }

  /** The bookkeeping of `retrieve_generated_scenario`: the activity maps, the enabled
      assessments, and each enabled assessment's conditions and activity groups written into its
      `data`.  Nothing else changes. */
  method PrepareAssessments(activities: seq<Activity>, assessments: seq<AssessmentObj>, conditionsOf: string -> PyVal)
    returns (names: Dict<string, seq<Activity>>, ids: Dict<string, Activity>, enabled: seq<AssessmentObj>)
    modifies set a | a in assessments
    ensures names == NamesMap(activities) && ids == IdsMap(activities)
    ensures enabled == EnabledOnly(assessments)
    ensures forall a :: a in assessments && a.enabled ==>
      a.data == Prepared(old(a.data), a, names, NamesOf(enabled), conditionsOf)
    ensures forall a :: a in assessments && !a.enabled ==> a.data == old(a.data)
  {
    names, ids := BuildMaps(activities);
    enabled := EnabledOnly(assessments);
    PrepareEach(enabled, names, NamesOf(enabled), conditionsOf);
  }
}
