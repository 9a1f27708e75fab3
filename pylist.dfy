/** The Python list operations the schedulers rely on, with their edge cases: `[x] * n` for any
    int `n`, `range(lo, hi)`, indexing with negative positions, `list.remove`, `sum`. */
module PyList {
  import opened Wrappers

  /** `[x] * n`: empty when `n <= 0`. */
  function Repeat<T>(x: T, n: int): (r: seq<T>)
    ensures |r| == if n > 0 then n else 0
    ensures forall j :: 0 <= j < |r| ==> r[j] == x
    decreases if n > 0 then n else 0
  {
    if n <= 0 then [] else [x] + Repeat(x, n - 1)
  }

  /** `list(range(lo, hi))`. */
  function Range(lo: int, hi: int): (r: seq<int>)
    ensures |r| == if hi > lo then hi - lo else 0
    ensures forall j :: 0 <= j < |r| ==> r[j] == lo + j
    decreases hi - lo
  {
    if hi <= lo then [] else [lo] + Range(lo + 1, hi)
  }

  lemma RangeMembers(lo: int, hi: int, x: int)
    ensures x in Range(lo, hi) <==> lo <= x < hi
  {
    if lo <= x < hi { assert Range(lo, hi)[x - lo] == x; }
  }

  /** The position `xs[n]` reads: negative `n` counts from the end; IndexError outside. */
  function Index(len: nat, n: int): (r: Result<nat>)
    ensures r.Ok? <==> -(len as int) <= n < len
    ensures r.Ok? ==> r.value < len && (r.value == n || r.value == n + len)
    ensures r.Err? ==> r.error == IndexError
  {
    if 0 <= n < len then Ok(n) else if -(len as int) <= n < 0 then Ok(n + len) else Err(IndexError)
  }

  /** `xs.remove(x)`: drops the first element equal to `x`; ValueError if there is none. */
  function Remove<T(==)>(xs: seq<T>, x: T): (r: Result<seq<T>>)
    ensures r.Ok? <==> x in xs
    ensures r.Err? ==> r.error.ValueError?
  {
    if xs == [] then Err(ValueError("list.remove(x): x not in list"))
    else if xs[0] == x then Ok(xs[1..])
    else
      match Remove(xs[1..], x)
      case Err(e) => Err(e)
      case Ok(rest) => Ok([xs[0]] + rest)
  }

  /** Removing takes out exactly one occurrence. */
  lemma {:induction false} RemoveOne<T>(xs: seq<T>, x: T)
    requires x in xs
    ensures multiset(Remove(xs, x).value) == multiset(xs) - multiset{x}
    ensures multiset(Remove(xs, x).value) + multiset{x} == multiset(xs)
    ensures |Remove(xs, x).value| == |xs| - 1
  {
    assert xs == [xs[0]] + xs[1..];
    if xs[0] != x {
      RemoveOne(xs[1..], x);
    }
  }

  /** The occurrence removed is the first, and the rest keep their order. */
  lemma {:induction false} RemoveFirst<T>(xs: seq<T>, x: T) returns (i: nat)
    requires x in xs
    ensures i < |xs| && xs[i] == x && x !in xs[..i]
    ensures Remove(xs, x).value == xs[..i] + xs[i + 1..]
  {
    if xs[0] == x {
      i := 0;
    } else {
      var j := RemoveFirst(xs[1..], x);
      i := j + 1;
      assert xs[..i] == [xs[0]] + xs[1..][..j];
      assert xs[i + 1..] == xs[1..][j + 1..];
    }
  }

  function Sum(xs: seq<int>): int {
    if xs == [] then 0 else xs[0] + Sum(xs[1..])
  }

  /** Concatenation of a list of lists. */
  function Flatten<T>(xss: seq<seq<T>>): seq<T> {
    if xss == [] then [] else xss[0] + Flatten(xss[1..])
  }

  /** Appending in two steps is appending the two parts at once. */
  lemma AppendAssoc<T>(a: seq<T>, b: seq<T>, c: seq<T>)
    ensures a + b + c == a + (b + c)
  {
  }
}
