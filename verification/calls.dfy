/**
 * Running an ordered list of API calls the way every resource operation does:
 * each call reports its own error, and the operation returns at the first
 * failure, so later calls are never issued.
 */
module Calls {

  /** Whether the `i`-th issued call fails; calls past the supplied outcomes succeed. */
  predicate Fails(outcomes: seq<bool>, i: nat) {
    i < |outcomes| && !outcomes[i]
  }

  /** What was issued, and whether the last issued call failed. */
  datatype Run<A> = Run(issued: seq<A>, failed: bool)

  function Execute<A>(calls: seq<A>, outcomes: seq<bool>): (r: Run<A>)
    ensures |r.issued| <= |calls| && r.issued == calls[..|r.issued|]
    ensures !r.failed ==> r.issued == calls
    ensures r.failed ==> |r.issued| >= 1 && Fails(outcomes, |r.issued| - 1)
    ensures forall i :: 0 <= i < |r.issued| && (i < |r.issued| - 1 || !r.failed) ==> !Fails(outcomes, i)
    decreases |calls|
  {
    if |calls| == 0 then Run([], false)
    else if Fails(outcomes, 0) then Run([calls[0]], true)
    else
      var tail := if |outcomes| > 0 then outcomes[1..] else [];
      var rest := Execute(calls[1..], tail);
      ShiftFails(outcomes, tail, if rest.failed then |rest.issued| - 1 else |rest.issued|);
      Run([calls[0]] + rest.issued, rest.failed)
  }

  lemma ShiftFails(outcomes: seq<bool>, tail: seq<bool>, n: int)
    requires tail == if |outcomes| > 0 then outcomes[1..] else []
    requires !Fails(outcomes, 0)
    requires forall i :: 0 <= i < n ==> !Fails(tail, i)
    ensures forall i :: 0 <= i < n + 1 ==> !Fails(outcomes, i)
  {
    forall i | 0 < i < n + 1 ensures !Fails(outcomes, i) {
      assert !Fails(tail, i - 1);
    }
  }

  /** When every call succeeds, every call is issued. */
  lemma ExecuteAllSucceed<A>(calls: seq<A>, outcomes: seq<bool>)
    requires forall i :: 0 <= i < |calls| ==> !Fails(outcomes, i)
    ensures Execute(calls, outcomes) == Run(calls, false)
  {
  }

  /** A failing call is the last one issued: nothing after it runs. */
  lemma ExecuteStopsAtFailure<A>(calls: seq<A>, outcomes: seq<bool>, k: nat)
    requires k < |calls| && Fails(outcomes, k)
    requires forall i :: 0 <= i < k ==> !Fails(outcomes, i)
    ensures Execute(calls, outcomes) == Run(calls[..k + 1], true)
  {
  }
}
