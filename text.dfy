/** String helpers shared by the model: ASCII case mapping, decimal rendering and parsing,
    Python's string order, substring search, join and split. */
module Text {
  import opened Wrappers

  predicate IsUpper(c: char) { 'A' <= c <= 'Z' }
  predicate IsLower(c: char) { 'a' <= c <= 'z' }
  predicate IsDigit(c: char) { '0' <= c <= '9' }

  /** `str.upper` on one character, for the ASCII letters. */
  function Upper(c: char): char {
    if IsLower(c) then (c as int - 32) as char else c
  }

  /** `str.lower` on one character, for the ASCII letters. */
  function Lower(c: char): char {
    if IsUpper(c) then (c as int + 32) as char else c
  }

  function LowerStr(s: string): (r: string)
    ensures |r| == |s| && forall i :: 0 <= i < |s| ==> r[i] == Lower(s[i])
  {
    if s == [] then [] else [Lower(s[0])] + LowerStr(s[1..])
  }

  function DigitChar(d: int): char
    requires 0 <= d < 10
  {
    ('0' as int + d) as char
  }

  function DigitValue(c: char): int
    requires IsDigit(c)
  {
    c as int - '0' as int
  }

  /** Decimal digits of a natural number, most significant first, no leading zeros. */
  function ShowNat(n: nat): (s: string)
    ensures |s| > 0 && forall i :: 0 <= i < |s| ==> IsDigit(s[i])
  {
    if n < 10 then [DigitChar(n)] else ShowNat(n / 10) + [DigitChar(n % 10)]
  }

  /** `str(i)` for an int. */
  function ShowInt(i: int): string {
    if i < 0 then "-" + ShowNat(-i) else ShowNat(i)
  }

  /** `'%0wd' % n`: at least w digits, padded with leading zeros. */
  function Pad(n: nat, w: nat): (s: string)
    ensures |s| >= w && forall i :: 0 <= i < |s| ==> IsDigit(s[i])
  {
    var digits := ShowNat(n);
    if |digits| >= w then digits else seq(w - |digits|, _ => '0') + digits
  }

  predicate AllDigits(s: string) { forall i :: 0 <= i < |s| ==> IsDigit(s[i]) }

  /** The value of a non-empty run of decimal digits. */
  function DigitsValue(s: string): (n: nat)
    requires AllDigits(s)
  {
    if s == [] then 0 else DigitsValue(s[..|s| - 1]) * 10 + DigitValue(s[|s| - 1])
  }

  /** `str.isspace`: the whitespace `int()` ignores around a numeral. */
  predicate IsSpace(c: char) {
    var k := c as int;
    || k == 0x20 || 0x09 <= k <= 0x0D || 0x1C <= k <= 0x1F || k == 0x85 || k == 0xA0 || k == 0x1680
    || 0x2000 <= k <= 0x200A || k == 0x2028 || k == 0x2029 || k == 0x202F || k == 0x205F || k == 0x3000
  }

  /** `str.lstrip()`. */
  function TrimStart(s: string): (r: string)
    ensures |r| <= |s|
    ensures r == [] || !IsSpace(r[0])
  {
    if s != [] && IsSpace(s[0]) then TrimStart(s[1..]) else s
  }

  /** `str.rstrip()`. */
  function TrimEnd(s: string): (r: string)
    ensures |r| <= |s|
    ensures r == [] || !IsSpace(r[|r| - 1])
  {
    if s != [] && IsSpace(s[|s| - 1]) then TrimEnd(s[..|s| - 1]) else s
  }

  /** `str.strip()`. */
  function Strip(s: string): string {
    TrimEnd(TrimStart(s))
  }

  /** Positions `i` and `i + 1` of `s` both hold '_'. */
  predicate DoubleUnderscore(s: string, i: int) {
    0 <= i < |s| - 1 && s[i] == '_' && s[i + 1] == '_'
  }

  /** A base-10 numeral as `int()` reads it: decimal digits, a single '_' allowed between two
      of them. */
  predicate Numeral(s: string) {
    && |s| > 0 && IsDigit(s[0]) && IsDigit(s[|s| - 1])
    && (forall i :: 0 <= i < |s| ==> IsDigit(s[i]) || s[i] == '_')
    && (forall i :: 0 <= i < |s| ==> !DoubleUnderscore(s, i))
  }

  /** The value of a numeral, the underscores skipped. */
  function NumeralValue(s: string): nat
    requires forall i :: 0 <= i < |s| ==> IsDigit(s[i]) || s[i] == '_'
  {
    if s == [] then 0
    else if s[|s| - 1] == '_' then NumeralValue(s[..|s| - 1])
    else NumeralValue(s[..|s| - 1]) * 10 + DigitValue(s[|s| - 1])
  }

  /** `int(s)` for a string: surrounding whitespace, then an optional sign followed by a
      numeral. */
  function ParseInt(s: string): Option<int> {
    var t := Strip(s);
    if |t| > 0 && (t[0] == '-' || t[0] == '+') then
      if Numeral(t[1..]) then
        Some(if t[0] == '-' then -(NumeralValue(t[1..]) as int) else NumeralValue(t[1..]))
      else None
    else if Numeral(t) then Some(NumeralValue(t))
    else None
  }

  /** Without underscores a numeral's value is its digits' value. */
  lemma {:induction false} NumeralDigits(s: string)
    requires AllDigits(s)
    ensures NumeralValue(s) == DigitsValue(s)
  {
    if s != [] {
      NumeralDigits(s[..|s| - 1]);
    }
  }

  /** `Strip` leaves a string that neither starts nor ends with whitespace as it is. */
  lemma StripBare(s: string)
    requires s == [] || (!IsSpace(s[0]) && !IsSpace(s[|s| - 1]))
    ensures Strip(s) == s
  {
  }

  lemma {:induction false} DigitsValueShowNat(n: nat)
    ensures DigitsValue(ShowNat(n)) == n
  {
    if n >= 10 {
      var s := ShowNat(n);
      assert s[..|s| - 1] == ShowNat(n / 10);
      DigitsValueShowNat(n / 10);
    }
  }

  /** A run of digits is a numeral with the same value. */
  lemma DigitsNumeral(s: string)
    requires s != [] && AllDigits(s)
    ensures Numeral(s) && NumeralValue(s) == DigitsValue(s)
  {
    NumeralDigits(s);
  }

  /** `int(str(i)) == i`. */
  lemma ParseShowInt(i: int)
    ensures ParseInt(ShowInt(i)) == Some(i)
  {
    var s := ShowInt(i);
    var d := ShowNat(if i < 0 then -i else i);
    DigitsNumeral(d);
    DigitsValueShowNat(if i < 0 then -i else i);
    if i < 0 {
      assert s == "-" + d && s[1..] == d;
    }
    assert !IsSpace(s[0]) && !IsSpace(s[|s| - 1]);
    StripBare(s);
  }

  /** `int(' 1_000\n') == 1000`. */
  lemma ParseIntSpaced()
    ensures ParseInt(" 1_000\n") == Some(1000)
  {
    var t := "1_000";
    assert TrimStart(" 1_000\n") == "1_000\n";
    assert TrimEnd("1_000\n") == t by { assert "1_000\n"[..5] == t; }
    assert Numeral(t);
    assert "1"[..0] == [] && "1_"[..1] == "1" && "1_0"[..2] == "1_";
    assert "1_00"[..3] == "1_0" && t[..4] == "1_00";
    assert NumeralValue("1_") == 1;
    assert NumeralValue("1_0") == 10;
    assert NumeralValue("1_00") == 100;
  }

  /** `int('1__0')` raises: two underscores in a row. */
  lemma ParseIntDoubleUnderscore()
    ensures ParseInt("1__0").None?
  {
    StripBare("1__0");
    assert DoubleUnderscore("1__0", 1);
  }

  /** `int('- 1')` raises: no whitespace after the sign. */
  lemma ParseIntSpacedSign()
    ensures ParseInt("- 1").None?
  {
    StripBare("- 1");
    assert "- 1"[1..] == " 1";
    assert !Numeral(" 1") by { assert !IsDigit(" 1"[0]); }
  }

  lemma {:induction false} DigitsValuePad(n: nat, w: nat)
    ensures DigitsValue(Pad(n, w)) == n
  {
    var digits := ShowNat(n);
    DigitsValueShowNat(n);
    if |digits| < w {
      LeadingZeros(w - |digits|, digits);
    }
  }

  lemma {:induction false} LeadingZeros(k: nat, s: string)
    requires AllDigits(s)
    ensures AllDigits(seq(k, _ => '0') + s) && DigitsValue(seq(k, _ => '0') + s) == DigitsValue(s)
    decreases |s|, k
  {
    var z := seq(k, _ => '0');
    if s == [] {
      assert z + s == z;
      ZerosValue(k);
    } else {
      assert (z + s)[..|z + s| - 1] == z + s[..|s| - 1];
      LeadingZeros(k, s[..|s| - 1]);
    }
  }

  lemma {:induction false} ZerosValue(k: nat)
    ensures DigitsValue(seq(k, _ => '0')) == 0
  {
    if k > 0 {
      assert seq(k, _ => '0')[..k - 1] == seq(k - 1, _ => '0');
      ZerosValue(k - 1);
    }
  }

  /** Python's `a <= b` on strings: lexicographic by code point, a prefix first. */
  predicate StrLe(a: string, b: string) {
    if a == [] then true
    else if b == [] then false
    else if a[0] != b[0] then a[0] < b[0]
    else StrLe(a[1..], b[1..])
  }

  lemma {:induction false} StrLeTotal(a: string, b: string)
    ensures StrLe(a, b) || StrLe(b, a)
  {
    if a != [] && b != [] && a[0] == b[0] {
      StrLeTotal(a[1..], b[1..]);
    }
  }

  lemma {:induction false} StrLeTrans(a: string, b: string, c: string)
    requires StrLe(a, b) && StrLe(b, c)
    ensures StrLe(a, c)
  {
    if a != [] && b != [] && c != [] && a[0] == b[0] && b[0] == c[0] {
      StrLeTrans(a[1..], b[1..], c[1..]);
    }
  }

  lemma {:induction false} StrLeAntisym(a: string, b: string)
    requires StrLe(a, b) && StrLe(b, a)
    ensures a == b
  {
    if a != [] && b != [] {
      StrLeAntisym(a[1..], b[1..]);
      assert a == [a[0]] + a[1..] && b == [b[0]] + b[1..];
    }
  }

  /** `sub in s`. */
  predicate Contains(s: string, sub: string) {
    (|sub| <= |s| && s[..|sub|] == sub) || (s != [] && Contains(s[1..], sub))
  }

  /** `'|'.join(parts)` for a one-character separator. */
  function Join(sep: char, parts: seq<string>): string {
    if parts == [] then ""
    else if |parts| == 1 then parts[0]
    else parts[0] + [sep] + Join(sep, parts[1..])
  }

  /** `s.split(sep)` for a one-character separator: always at least one part. */
  function Split(s: string, sep: char): (parts: seq<string>)
    ensures |parts| > 0
  {
    if s == [] then [""]
    else
      var rest := Split(s[1..], sep);
      if s[0] == sep then [""] + rest else [[s[0]] + rest[0]] + rest[1..]
  }

  lemma {:induction false} SplitNoSep(s: string, sep: char, tail: string)
    requires sep !in s
    ensures Split(s + [sep] + tail, sep) == [s] + Split(tail, sep)
    ensures Split(s, sep) == [s]
  {
    if s == [] {
      assert s + [sep] + tail == [sep] + tail;
      assert ([sep] + tail)[1..] == tail;
    } else {
      assert (s + [sep] + tail)[1..] == s[1..] + [sep] + tail;
      SplitNoSep(s[1..], sep, tail);
      assert [s[0]] + s[1..] == s;
    }
  }

  /** Splitting a join gives the parts back when no part contains the separator. */
  lemma {:induction false} SplitJoin(sep: char, parts: seq<string>)
    requires |parts| > 0
    requires forall i :: 0 <= i < |parts| ==> sep !in parts[i]
    ensures Split(Join(sep, parts), sep) == parts
  {
    if |parts| == 1 {
      SplitNoSep(parts[0], sep, "");
    } else {
      SplitJoin(sep, parts[1..]);
      SplitNoSep(parts[0], sep, Join(sep, parts[1..]));
    }
  }
}
