/**
 * Ordered form validation. Each form of the app tests its fields one by one
 * and stops at the first test that fails, reporting only that one. This
 * module states that discipline once, as a reference for the form-specific
 * validators.
 */
module Validation {
  import opened Wrappers

  /** One test of a form: whether it passes, and what is reported if not. */
  datatype Check<E> = Check(passes: bool, error: E)

  /** The error of the first failing check, or None when all pass. */
  function FirstFailure<E>(checks: seq<Check<E>>): (r: Option<E>)
  {
    if checks == [] then None
    else if !checks[0].passes then Some(checks[0].error)
    else FirstFailure(checks[1..])
  }

  /** Nothing is reported exactly when every check passes. */
  lemma {:induction false} FirstFailureNoneIffAllPass<E>(checks: seq<Check<E>>)
    ensures FirstFailure(checks).None? <==> forall i :: 0 <= i < |checks| ==> checks[i].passes
  {
    if checks != [] {
      FirstFailureNoneIffAllPass(checks[1..]);
      assert forall i :: 1 <= i < |checks| ==> checks[i] == checks[1..][i - 1];
    }
  }

  /** A failing check whose predecessors all pass is the one reported. */
  lemma {:induction false} FirstFailureReportsEarliest<E>(checks: seq<Check<E>>, k: nat)
    requires k < |checks| && !checks[k].passes
    requires forall i :: 0 <= i < k ==> checks[i].passes
    ensures FirstFailure(checks) == Some(checks[k].error)
  {
    if k > 0 {
      FirstFailureReportsEarliest(checks[1..], k - 1);
    }
  }
}
