/** First-match linear search over a sequence, the shape shared by every decoder of
    Task.Priority and Task.Role: walk the enum's values in declaration order and return
    the first one that matches, or report that none does. */
module Search {

  datatype Option<+T> = None | Some(value: T)

  /** Index of the first element of `vs` satisfying `matches`, or None when no element does. */
  function FirstIndex<T>(vs: seq<T>, matches: T -> bool): (r: Option<nat>)
    ensures r.Some? ==> r.value < |vs| && matches(vs[r.value])
    ensures r.Some? ==> forall j :: 0 <= j < r.value ==> !matches(vs[j])
    ensures r.None? <==> forall j :: 0 <= j < |vs| ==> !matches(vs[j])
  {
    if |vs| == 0 then None
    else if matches(vs[0]) then Some(0)
    else
      match FirstIndex(vs[1..], matches)
      case None => None
      case Some(k) => Some(k + 1)
  }
}
