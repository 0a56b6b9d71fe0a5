/** Small helpers shared by the model: an optional value (Kotlin's nullable
    `T?`) and the first-index search behind Kotlin's `indexOfFirst`/`find`. */
module Util {

  datatype Option<+T> = None | Some(value: T)

  /** Index of the first element satisfying `p`, or None when there is none. */
  function IndexOfFirst<T>(s: seq<T>, p: T -> bool): (r: Option<nat>)
    ensures r.Some? ==> r.value < |s| && p(s[r.value])
    ensures r.Some? ==> forall j :: 0 <= j < r.value ==> !p(s[j])
    ensures r.None? <==> forall j :: 0 <= j < |s| ==> !p(s[j])
  {
    if |s| == 0 then None
    else if p(s[0]) then Some(0)
    else match IndexOfFirst(s[1..], p)
      case None => None
      case Some(i) => Some(i + 1)
  }
}
