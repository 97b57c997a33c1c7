/** The retry policy `withRetry` (frontend/src/App.js): call the operation; on
    failure, while the remaining budget is positive, wait and call it again with
    the budget decreased by one; once the budget is spent, rethrow the last
    error unchanged. The wait itself is not modelled, only counted. */
module Retry {
  import opened Outcomes

  /** Default budget of re-attempts (MAX_RETRIES). */
  const MAX_RETRIES: int := 3

  /** One run of the policy: what it returns or rethrows, how many times the
      operation was invoked, and how many delays were awaited. */
  datatype Run<T> = Run(result: Attempt<T>, calls: nat, waits: nat)

  /** The number of re-attempts a budget allows: a budget of zero or less
      allows none. */
  function Budget(retries: int): nat
  {
    if retries > 0 then retries else 0
  }

  /** Reference semantics, following the source's recursion: the operation's
      invocations are `attempts(from)`, `attempts(from + 1)`, ...

      The contract characterises the run completely: the operation is invoked
      between 1 and Budget + 1 times, every invocation but the last failed, the
      result is the last invocation's outcome, there is one wait between two
      invocations, and a failure is returned only once the budget is spent. */
  function Retried<T>(attempts: Script<T>, from: nat, retries: int): (r: Run<T>)
    decreases Budget(retries)
    ensures 1 <= r.calls <= Budget(retries) + 1
    ensures r.waits == r.calls - 1
    ensures r.result == attempts(from + r.calls - 1)
    ensures forall j: nat :: from <= j < from + r.calls - 1 ==> attempts(j).Err?
    ensures r.result.Err? ==> r.calls == Budget(retries) + 1
  {
    match attempts(from)
    case Ok(v) => Run(Ok(v), 1, 0)
    case Err(e) =>
      if retries > 0 then
        var rest := Retried(attempts, from + 1, retries - 1);
        Run(rest.result, rest.calls + 1, rest.waits + 1)
      else
        Run(Err(e), 1, 0)
  }

  /** k failures followed by a success, within the budget: the success value
      is returned after exactly k + 1 invocations and k waits. */
  lemma SucceedsAfterFailures<T>(attempts: Script<T>, retries: int, k: nat)
    requires k <= Budget(retries)
    requires forall j: nat :: j < k ==> attempts(j).Err?
    requires attempts(k).Ok?
    ensures Retried(attempts, 0, retries) == Run(attempts(k), k + 1, k)
  {
    var r := Retried(attempts, 0, retries);
    assert r.calls == k + 1;
  }

  /** An operation that always fails is invoked Budget + 1 times, with a wait
      between each two invocations, and the error of the last invocation is
      rethrown unchanged. */
  lemma ExhaustsBudget<T>(attempts: Script<T>, retries: int)
    requires forall j: nat :: j <= Budget(retries) ==> attempts(j).Err?
    ensures Retried(attempts, 0, retries)
         == Run(Err(attempts(Budget(retries)).error), Budget(retries) + 1, Budget(retries))
  {
  }

  /** With the default budget an always-failing operation is invoked four times. */
  lemma ExhaustsDefaultBudget<T>(attempts: Script<T>)
    requires forall j: nat :: j <= 3 ==> attempts(j).Err?
    ensures Retried(attempts, 0, MAX_RETRIES) == Run(Err(attempts(3).error), 4, 3)
  {
    ExhaustsBudget(attempts, MAX_RETRIES);
  }

  /** The policy succeeds exactly when one of the first Budget + 1 invocations
      succeeds. */
  lemma SucceedsIffSomeAttemptSucceeds<T>(attempts: Script<T>, retries: int)
    ensures Retried(attempts, 0, retries).result.Ok?
        <==> exists j: nat :: j <= Budget(retries) && attempts(j).Ok?
  {
    var r := Retried(attempts, 0, retries);
    var last: nat := r.calls - 1;
    if r.result.Ok? {
      assert last <= Budget(retries) && attempts(last).Ok?;
    } else {
      forall j: nat | j <= Budget(retries) ensures attempts(j).Err? {
        if j < last {
        } else {
          assert j == last;
        }
      }
    }
  }

  /** The policy as a bounded loop with a decreasing budget. */
  method WithRetry<T>(attempts: Script<T>, retries: int) returns (run: Run<T>)
    ensures run == Retried(attempts, 0, retries)
  {
    var left := retries;
    var outcome := attempts(0);
    var calls: nat := 1;
    var waits: nat := 0;
    while outcome.Err? && left > 0
      invariant calls == waits + 1
      invariant outcome == attempts(calls - 1)
      invariant left == retries - waits
      invariant var rest := Retried(attempts, calls - 1, left);
        Retried(attempts, 0, retries) == Run(rest.result, rest.calls + waits, rest.waits + waits)
      decreases Budget(left)
    {
      waits := waits + 1;   // await the retry delay
      left := left - 1;
      outcome := attempts(calls);
      calls := calls + 1;
    }
    run := Run(outcome, calls, waits);
  }
}
