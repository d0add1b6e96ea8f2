/** Small helpers shared by the modules of the model: JavaScript's optional
    values, Math.min / Math.max on integers, and Array.prototype.find. */
module Common {

  /** A value that may be `undefined`. */
  datatype Option<+T> = None | Some(value: T)

  function Min(a: int, b: int): (r: int)
    ensures r <= a && r <= b
    ensures r == a || r == b
  {
    if a <= b then a else b
  }

  function Max(a: int, b: int): (r: int)
    ensures r >= a && r >= b
    ensures r == a || r == b
  {
    if a >= b then a else b
  }

  /** Index of the first element of `s` that satisfies `matches`, the way
      `Array.prototype.find` scans from the front and stops at the first hit. */
  function FirstIndex<T>(s: seq<T>, matches: T -> bool): (r: Option<nat>)
    ensures r.Some? ==> r.value < |s| && matches(s[r.value])
    ensures r.Some? ==> forall j :: 0 <= j < r.value ==> !matches(s[j])
    ensures r.None? ==> forall j :: 0 <= j < |s| ==> !matches(s[j])
  {
    if s == [] then None
    else if matches(s[0]) then Some(0)
    else match FirstIndex(s[1..], matches)
      case None => None
      case Some(i) => Some(i + 1)
  }

  /** The element `find` returns, or `undefined`. */
  function Find<T>(s: seq<T>, matches: T -> bool): (r: Option<T>)
    ensures r.Some? ==> r.value in s && matches(r.value)
    ensures r.None? <==> forall j :: 0 <= j < |s| ==> !matches(s[j])
    ensures r.Some? ==> exists i :: 0 <= i < |s| && s[i] == r.value &&
                                    forall j :: 0 <= j < i ==> !matches(s[j])
  {
    match FirstIndex(s, matches)
    case None => None
    case Some(i) => Some(s[i])
  }
}
