/** Decisions that are made by running checks in order and pushing a reason for each that fails. */
module Findings {

  datatype Check<R> = Check(reason: R, failed: bool)

  /** The reasons of the failed checks, in order. */
  function FailedReasons<R>(checks: seq<Check<R>>): seq<R> {
    if checks == [] then []
    else
      var last := |checks| - 1;
      FailedReasons(checks[..last]) + if checks[last].failed then [checks[last].reason] else []
  }

  lemma {:induction false} FailedReasonsExact<R>(checks: seq<Check<R>>, reason: R)
    ensures reason in FailedReasons(checks) <==> Check(reason, true) in checks
  {
    if checks != [] {
      var last := |checks| - 1;
      FailedReasonsExact(checks[..last], reason);
      assert checks == checks[..last] + [checks[last]];
    }
  }

  /** `checks` is the account of what has been checked so far. */
  method PushIf<R>(failed: bool, reason: R, reasons: seq<R>, ghost checks: seq<Check<R>>)
    returns (result: seq<R>, ghost checked: seq<Check<R>>)
    requires reasons == FailedReasons(checks)
    ensures checked == checks + [Check(reason, failed)]
    ensures result == FailedReasons(checked)
  {
    result := reasons;
    checked := checks + [Check(reason, failed)];
    assert checked[..|checks|] == checks;
    if failed {
      result := result + [reason];
    }
  }
}
