/** Ids, and the two failure-carrying types the models share. */
module Wrappers {

  type Id = nat

  datatype Option<+T> = None | Some(value: T) {
    function GetOr(default: T): T {
      match this
      case Some(v) => v
      case None => default
    }
  }

  datatype Result<+T, +E> = Ok(value: T) | Err(error: E)

  /** The error of the first check that fails. */
  function FirstFailing<E>(checks: seq<(bool, E)>): (r: Option<E>)
    ensures r.None? <==> forall i :: 0 <= i < |checks| ==> !checks[i].0
    ensures r.Some? ==> exists i :: 0 <= i < |checks| && checks[i].0 && checks[i].1 == r.value && forall j :: 0 <= j < i ==> !checks[j].0
  {
    if checks == [] then None
    else if checks[0].0 then Some(checks[0].1)
    else
      var rest := FirstFailing(checks[1..]);
      assert forall i :: 1 <= i < |checks| ==> checks[i] == checks[1..][i - 1];
      rest
  }

  lemma FirstThenRest<E>(checks: seq<(bool, E)>)
    requires checks != []
    ensures FirstFailing(checks) == if checks[0].0 then Some(checks[0].1) else FirstFailing(checks[1..])
  {
  }
}
