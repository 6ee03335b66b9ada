/** Values shared by the model: optional request fields, the loosely typed values
    kept in a `customStats` map, and JavaScript's `x || default` on them. */
module Common {

  datatype Option<T> = None | Some(value: T)

  /** A clock reading (milliseconds); every `new Date()` of the program becomes a parameter. */
  type Time = int

  /** A value stored in a `customStats` map: the program stores counters and ship names there. */
  datatype Value = Num(n: int) | Str(s: string)

  type CustomStats = map<string, Value>

  /** JavaScript truthiness of a stored value: 0 and the empty string are falsy. */
  predicate Truthy(v: Value) {
    match v
    case Num(n) => n != 0
    case Str(s) => s != ""
  }

  /** `n || d` for a number that is present: a zero falls back to `d`. */
  function Or(n: int, d: int): (r: int)
    ensures n != 0 ==> r == n
    ensures n == 0 ==> r == d
  {
    if n != 0 then n else d
  }

  /** `x || d` for a request field that may be undefined: undefined and 0 fall back to `d`. */
  function NumOr(x: Option<int>, d: int): (r: int)
    ensures x.Some? && x.value != 0 ==> r == x.value
    ensures x.None? || x.value == 0 ==> r == d
  {
    if x.Some? then Or(x.value, d) else d
  }

  /** `m.get(key) || d`: the stored value when it is present and truthy, else `d`. */
  function ValueOr(m: CustomStats, key: string, d: Value): (r: Value)
    ensures key in m && Truthy(m[key]) ==> r == m[key]
    ensures !(key in m && Truthy(m[key])) ==> r == d
  {
    if key in m && Truthy(m[key]) then m[key] else d
  }

  function Max(a: int, b: int): (r: int)
    ensures r >= a && r >= b
    ensures r == a || r == b
  {
    if a >= b then a else b
  }

  function Min(a: int, b: int): (r: int)
    ensures r <= a && r <= b
    ensures r == a || r == b
  {
    if a <= b then a else b
  }

  /** `Array.prototype.filter`: the elements of `s` that `keep` accepts, in their order. */
  function Filter<T(!new)>(s: seq<T>, keep: T -> bool): (r: seq<T>)
    ensures |r| <= |s|
    ensures forall x :: x in r <==> x in s && keep(x)
  {
    if |s| == 0 then []
    else (if keep(s[0]) then [s[0]] else []) + Filter(s[1..], keep)
  }

  /** Filtering keeps the input order: filtering a concatenation filters each part in turn. */
  lemma {:induction false} FilterAppend<T(!new)>(a: seq<T>, b: seq<T>, keep: T -> bool)
    ensures Filter(a + b, keep) == Filter(a, keep) + Filter(b, keep)
  {
    if |a| == 0 {
      assert a + b == b;
    } else {
      assert (a + b)[0] == a[0];
      assert (a + b)[1..] == a[1..] + b;
      FilterAppend(a[1..], b, keep);
    }
  }

  /** A sequence whose every element is accepted passes through the filter unchanged. */
  lemma {:induction false} FilterKeepsAll<T(!new)>(s: seq<T>, keep: T -> bool)
    requires forall i :: 0 <= i < |s| ==> keep(s[i])
    ensures Filter(s, keep) == s
  {
    if |s| > 0 {
      FilterKeepsAll(s[1..], keep);
    }
  }
}
