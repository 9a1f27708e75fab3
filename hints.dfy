/** `src/utils/hints.py`: suggested check-in times for two known client mixes, and the key
    built from an assessment to look them up. */
module Hints {
  import opened Wrappers
  import opened PyDict
  import opened Records

  /** `timedelta(hours=h, minutes=m)` in seconds. */
  function At(h: int, m: int): int { 3600 * h + 60 * m }

  /** A mix of clients: single Optimal, couple Optimal, single Ultimate, couple Ultimate,
      single Core and couple Core, as a tuple. */
  type Mix = seq<PyVal>

  function MixOf(so: int, co: int, su: int, cu: int, sc: int, cc: int): Mix {
    [PInt(so), PInt(co), PInt(su), PInt(cu), PInt(sc), PInt(cc)]
  }

  const CheckIn := "Check-in, Consent & Change"

  function LargeDay(): seq<int> {
    [At(7, 15), At(7, 45), At(8, 10), At(8, 20), At(9, 0), At(9, 45), At(10, 20), At(10, 45)]
  }

  function SmallDay(): seq<int> {
    [At(7, 15), At(7, 35), At(7, 50), At(8, 20), At(8, 30)]
  }

  /** `HINTS`: per client mix, the check-in start of each single client in turn. */
  function HintTable(): Dict<Mix, Dict<string, seq<int>>> {
    [ (MixOf(3, 0, 5, 0, 0, 0), [(CheckIn, LargeDay())]),
      (MixOf(2, 0, 3, 0, 0, 0), [(CheckIn, SmallDay())]) ]
  }

  /** Times that start at 7:15, strictly increase and fall on five-minute marks. */
  predicate Schedulable(ts: seq<int>) {
    && |ts| > 0 && ts[0] == At(7, 15)
    && (forall i :: 0 < i < |ts| ==> ts[i - 1] < ts[i])
    && (forall i :: 0 <= i < |ts| ==> ts[i] % 300 == 0)
  }

  /** Every hint list has one time per single client of the mix (single Optimal plus single
      Ultimate), starts at 7:15, strictly increases and keeps to five-minute marks. */
  lemma TableShape(j: nat)
    requires j < |HintTable()|
    ensures var (mix, hints) := HintTable()[j];
      |mix| == 6 && hints == [(CheckIn, hints[0].1)] && Schedulable(hints[0].1) &&
      |hints[0].1| == mix[0].i + mix[2].i
  {
    if j == 0 {
      assert Schedulable(LargeDay());
    } else {
      assert Schedulable(SmallDay());
    }
  }

  /** `format_hints_key(assessment)`: the assessment's `data['num_single_clients']` and
      `data['num_couple_clients']`, a KeyError when either is missing. */
  function FormatHintsKey(assessment: PyVal): (r: Result<seq<PyVal>>)
    ensures r.Ok? ==> |r.value| == 2
    ensures GetAttr(assessment, "data").Err? ==> r == Err(GetAttr(assessment, "data").error)
    ensures GetAttr(assessment, "data").Ok? && !GetAttr(assessment, "data").value.PDict? ==> r == Err(TypeError)
    ensures GetAttr(assessment, "data").Ok? && GetAttr(assessment, "data").value.PDict? ==>
      var entries := GetAttr(assessment, "data").value.entries;
      && (Get(entries, "num_single_clients").Some? && Get(entries, "num_couple_clients").Some? ==>
            r == Ok([Get(entries, "num_single_clients").value, Get(entries, "num_couple_clients").value]))
      && (Get(entries, "num_single_clients").None? || Get(entries, "num_couple_clients").None? ==> r == Err(KeyError))
  {
    var data :- GetAttr(assessment, "data");
    if !data.PDict? then Err(TypeError)
    else match (Get(data.entries, "num_single_clients"), Get(data.entries, "num_couple_clients"))
      case (Some(singles), Some(couples)) => Ok([singles, couples])
      case _ => Err(KeyError)
  }

  /** A pair is never a six-element mix, so a key built by `format_hints_key` finds no hints. */
  lemma FormattedKeyMisses(assessment: PyVal)
    requires FormatHintsKey(assessment).Ok?
    ensures Get(HintTable(), FormatHintsKey(assessment).value) == None
  {
    var k := FormatHintsKey(assessment).value;
    TableShape(0);
    TableShape(1);
    assert HintTable()[1..][1..] == [];
  }
}
