/** Small numeric helpers shared by every part of the model: the optional value
    that stands for JavaScript's null, clamping as written with Math.max/Math.min,
    and the index a `Math.random()` draw selects from a non-empty array. */
module Util {

  datatype Option<T> = None | Some(value: T)
  {
    function GetOr(default: T): T
    {
      match this
      case Some(v) => v
      case None => default
    }
  }

  /** Shapes are identified by an integer handed out when they are created
      (the source keys its side tables by object identity). */
  type ShapeId = nat

  function Max(a: real, b: real): real
  {
    if a >= b then a else b
  }

  function Min(a: real, b: real): real
  {
    if a <= b then a else b
  }

  /** `Math.max(lo, Math.min(hi, v))`. */
  function Clamp(lo: real, hi: real, v: real): (r: real)
    requires lo <= hi
    ensures lo <= r <= hi
    ensures lo <= v <= hi ==> r == v
    ensures v < lo ==> r == lo
    ensures hi < v ==> r == hi
  {
    Max(lo, Min(hi, v))
  }

  function Clamp01(v: real): (r: real)
    ensures 0.0 <= r <= 1.0
  {
    Clamp(0.0, 1.0, v)
  }

  /** The element index `Math.floor(Math.random() * len)` selects, for a draw `u`
      from Math.random's range [0, 1). */
  function Pick(len: nat, u: real): (i: nat)
    requires 0 < len && 0.0 <= u < 1.0
    ensures i < len
  {
    PickBelow(len, u);
    (u * len as real).Floor
  }

  lemma PickBelow(len: nat, u: real)
    requires 0 < len && 0.0 <= u < 1.0
    ensures 0.0 <= u * len as real < len as real
  {
    assert u * len as real <= u * len as real;
  }

  /** No element appears twice. */
  ghost predicate Distinct<T>(s: seq<T>)
  {
    forall i, j :: 0 <= i < j < |s| ==> s[i] != s[j]
  }

  lemma DistinctAppend<T>(s: seq<T>, x: T)
    requires Distinct(s) && x !in s
    ensures Distinct(s + [x])
  {
  }
}
