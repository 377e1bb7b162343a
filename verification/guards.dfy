/** Every handler of the two-factor API runs a fixed chain of checks and aborts
    at the first one that fails. This module gives that shape an independent,
    declarative definition against which each handler is compared. */
module Guards {
  import opened Wrappers

  /** One check of a handler: whether it passes, and the error it reports
      when it does not. */
  datatype Guard<+E> = Guard(passes: bool, error: E)

  predicate AllPass<E>(gs: seq<Guard<E>>) {
    forall i :: 0 <= i < |gs| ==> gs[i].passes
  }

  /** The error of the earliest failing check, if any check fails. */
  function FirstFailure<E>(gs: seq<Guard<E>>): (r: Option<E>)
    ensures r.None? <==> AllPass(gs)
    ensures r.Some? ==>
      exists i :: 0 <= i < |gs| && !gs[i].passes && gs[i].error == r.value &&
        AllPass(gs[..i])
  {
    if |gs| == 0 then None
    else if !gs[0].passes then
      assert AllPass(gs[..0]);
      Some(gs[0].error)
    else
      var rest := FirstFailure(gs[1..]);
      assert forall i :: 0 <= i < |gs| - 1 ==> gs[1..][..i] == gs[1..i + 1];
      rest
  }

  /** The reported error is decided by order: a failing check hides every
      later one. */
  lemma FirstFailureOrder<E>(gs: seq<Guard<E>>, k: nat)
    requires k < |gs| && !gs[k].passes && AllPass(gs[..k])
    ensures FirstFailure(gs) == Some(gs[k].error)
  {
  }
}
