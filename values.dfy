/**
 * Dynamically typed Python values as they occur in the core: the loaded JSON
 * configuration, a decoded service reply and the generation-parameter dict.
 */
module Values {

  datatype Value =
    | VNull
    | VBool(b: bool)
    | VInt(i: int)
    | VStr(s: string)
    | VList(items: seq<Value>)
    | VDict(fields: map<string, Value>)

  /** Python truthiness (`if v:` / `not v`). */
  predicate Truthy(v: Value) {
    match v
    case VNull => false
    case VBool(b) => b
    case VInt(i) => i != 0
    case VStr(s) => s != ""
    case VList(xs) => xs != []
    case VDict(m) => m != map[]
  }

  /** `isinstance(v, int)`: in Python a `bool` is an `int` too. */
  predicate IsPyInt(v: Value) {
    v.VInt? || v.VBool?
  }

  /** The integer a `bool` or `int` stands for (`True == 1`). */
  function AsInt(v: Value): int
    requires IsPyInt(v)
  {
    if v.VInt? then v.i else if v.b then 1 else 0
  }

  /** Python's `==` on these values: `True == 1`, and lists and dicts compare element by element. */
  predicate PyEq(a: Value, b: Value)
    decreases a
  {
    if IsPyInt(a) && IsPyInt(b) then AsInt(a) == AsInt(b)
    else
      match a
      case VList(xs) => b.VList? && |xs| == |b.items| && forall k :: 0 <= k < |xs| ==> PyEq(xs[k], b.items[k])
      case VDict(m) => b.VDict? && m.Keys == b.fields.Keys && forall k :: k in m ==> PyEq(m[k], b.fields[k])
      case _ => a == b
  }

  /** Every value equals itself. */
  lemma {:induction false} PyEqRefl(a: Value)
    ensures PyEq(a, a)
    decreases a
  {
    match a
    case VList(xs) =>
      forall k | 0 <= k < |xs|
        ensures PyEq(xs[k], xs[k])
      {
        PyEqRefl(xs[k]);
      }
    case VDict(m) =>
      forall k | k in m
        ensures PyEq(m[k], m[k])
      {
        PyEqRefl(m[k]);
      }
    case _ =>
  }

  /** `x in xs` for a list: some element equals `x`. */
  predicate PyIn(x: Value, xs: seq<Value>) {
    exists k :: 0 <= k < |xs| && PyEq(x, xs[k])
  }
}

/** Ordered rule checks that report the first rule that fails. */
module Rules {
  import opened Wrappers

  /** One rule: whether it passes and what is reported when it does not. */
  datatype Check<E> = Check(passes: bool, failure: E)

  /** The failure of the first rule that does not pass, or None when all pass. */
  function FirstFailure<E>(checks: seq<Check<E>>): (r: Option<E>)
    ensures r.None? <==> forall i :: 0 <= i < |checks| ==> checks[i].passes
    ensures r.Some? ==>
              exists i :: 0 <= i < |checks| && !checks[i].passes && checks[i].failure == r.value
                          && forall j :: 0 <= j < i ==> checks[j].passes
  {
    if checks == [] then None
    else if !checks[0].passes then Some(checks[0].failure)
    else
      var rest := FirstFailure(checks[1..]);
      assert forall i :: 1 <= i < |checks| ==> checks[i] == checks[1..][i - 1];
      rest
  }
}
