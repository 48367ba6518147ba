/** JavaScript values as they reach the request handlers, and the falsiness
    rules the handlers' `if (!x)` guards and `filter(Boolean)` calls rely on. */
module Js {

  datatype Option<+T> = None | Some(value: T)

  /** A value taken from a JSON request body (or `undefined` for a missing key).
      Numbers are reals: JSON carries no NaN, so every number is finite.
      Arrays and objects are always truthy, so their contents are not kept. */
  datatype JsValue =
    | Undefined
    | Null
    | Bool(b: bool)
    | Num(n: real)
    | Str(s: string)
    | Compound

  /** JavaScript's ToBoolean on the values above. */
  predicate Truthy(v: JsValue)
  {
    match v
    case Undefined => false
    case Null => false
    case Bool(b) => b
    case Num(n) => n != 0.0
    case Str(s) => s != ""
    case Compound => true
  }

  /** A query-string value is either absent (`undefined`) or a string; it is
      truthy exactly when it is present and non-empty. */
  predicate Present(q: Option<string>)
  {
    q.Some? && q.value != ""
  }

  /** The JavaScript value a query-string entry denotes. */
  function FromQuery(q: Option<string>): (v: JsValue)
    ensures Truthy(v) <==> Present(q)
    ensures Present(q) ==> v == Str(q.value)
  {
    match q
    case None => Undefined
    case Some(s) => Str(s)
  }

  /** `vs.some(v => !v)`, evaluated left to right as a chain `!a || !b || ...`:
      true when some value is falsy. */
  function AnyFalsy(vs: seq<JsValue>): (r: bool)
    ensures r <==> exists i :: 0 <= i < |vs| && !Truthy(vs[i])
  {
    if vs == [] then false
    else if !Truthy(vs[0]) then true
    else
      var rest := AnyFalsy(vs[1..]);
      assert forall i :: 1 <= i < |vs| ==> vs[i] == vs[1..][i - 1];
      rest
  }

  /** `vs.filter(Boolean)`: the truthy values, in order. */
  function FilterBoolean(vs: seq<JsValue>): (r: seq<JsValue>)
    ensures |r| <= |vs|
    ensures forall i :: 0 <= i < |r| ==> Truthy(r[i])
    ensures forall i :: 0 <= i < |vs| && Truthy(vs[i]) ==> vs[i] in r
    ensures (forall i :: 0 <= i < |vs| ==> Truthy(vs[i])) ==> r == vs
    ensures forall x :: x in r ==> x in vs
    ensures |vs| == 1 ==> (r == vs <==> Truthy(vs[0])) && (r == [] <==> !Truthy(vs[0]))
  {
    if vs == [] then []
    else
      var rest := FilterBoolean(vs[1..]);
      assert forall i :: 1 <= i < |vs| ==> vs[i] == vs[1..][i - 1];
      if Truthy(vs[0]) then [vs[0]] + rest else rest
  }

  /** `filter(Boolean)` works element by element and keeps the order: filtering
      a concatenation filters each part in turn. With the one-element case
      above, this fixes the result of every call. */
  lemma {:induction false} FilterBooleanAppend(a: seq<JsValue>, b: seq<JsValue>)
    ensures FilterBoolean(a + b) == FilterBoolean(a) + FilterBoolean(b)
    decreases |a|
  {
    if a == [] {
      assert a + b == b;
    } else {
      assert (a + b)[0] == a[0];
      assert (a + b)[1..] == a[1..] + b;
      FilterBooleanAppend(a[1..], b);
    }
  }

  /** `xs.slice(start, end)`: a negative bound counts from the end, and both
      bounds are clamped to the array. */
  function Slice<T>(xs: seq<T>, start: int, end: int): (r: seq<T>)
    ensures 0 <= start && end < 0 && -end <= |xs| && start <= |xs| + end ==> r == xs[start..|xs| + end]
    ensures |r| <= |xs|
  {
    var from := if start < 0 then Max(|xs| + start, 0) else Min(start, |xs|);
    var to := if end < 0 then Max(|xs| + end, 0) else Min(end, |xs|);
    if from < to then xs[from..to] else []
  }

  function Max(a: int, b: int): int { if a < b then b else a }

  function Min(a: int, b: int): int { if a < b then a else b }
}
