/** `Array.prototype.findIndex` and `find`: the first element satisfying a test. */
module SeqUtil {
  import opened Wrappers

  function FirstIndexWhere<T>(s: seq<T>, p: T -> bool): (r: Option<nat>)
    ensures r.Some? ==> r.value < |s| && p(s[r.value])
    ensures r.Some? ==> forall j :: 0 <= j < r.value ==> !p(s[j])
    ensures r.None? <==> forall j :: 0 <= j < |s| ==> !p(s[j])
  {
    if s == [] then None
    else if p(s[0]) then Some(0)
    else match FirstIndexWhere(s[1..], p)
      case None => None
      case Some(k) => Some(k + 1)
  }

  function Find<T>(s: seq<T>, p: T -> bool): (r: Option<T>)
    ensures r.None? <==> forall j :: 0 <= j < |s| ==> !p(s[j])
    ensures r.Some? ==> exists i :: 0 <= i < |s| && s[i] == r.value && p(s[i]) &&
                          forall j :: 0 <= j < i ==> !p(s[j])
  {
    match FirstIndexWhere(s, p)
    case None => None
    case Some(i) => Some(s[i])
  }

  /** Two tests that agree on every element find the same index. */
  lemma {:induction false} FirstIndexWhereSamePredicate<T>(s: seq<T>, p: T -> bool, q: T -> bool)
    requires forall e :: p(e) == q(e)
    ensures FirstIndexWhere(s, p) == FirstIndexWhere(s, q)
  {
    if s != [] {
      FirstIndexWhereSamePredicate(s[1..], p, q);
    }
  }
}
