/** The retry loops of the retrieval: `_pull_iEEG` and the connection loop of
    `get_iEEG_data` each try a remote call up to `MaxRetries` times, sleeping
    between failures, and stop at the first success. A remote call is modelled
    as a function of its attempt number, so that any pattern of failures can
    be described; the sleeps are not modelled. */
module Retry {
  import opened Basics

  /** `MAX_RETRIES`. */
  const MaxRetries: nat := 50

  /** What a retry loop ends with: the first value a call produced (None when
      every attempt failed) and how many calls it made. */
  datatype Attempts<T> = Attempts(outcome: Option<T>, calls: nat)

  /** No attempt numbered in `[from, to)` succeeds. */
  predicate AllFail<T>(attempt: nat -> Option<T>, from: nat, to: nat)
  {
    forall n: nat :: from <= n < to ==> attempt(n).None?
  }

  /** Calls `attempt(base)`, `attempt(base + 1)`, ... until one succeeds or
      `limit` calls have been made. */
  function FirstSuccess<T>(attempt: nat -> Option<T>, base: nat, limit: nat): (r: Attempts<T>)
    ensures r.calls <= limit
    ensures r.outcome.Some? ==> r.calls >= 1 && AllFail(attempt, base, base + r.calls - 1)
                                && r.outcome == attempt(base + r.calls - 1)
    ensures r.outcome.None? ==> r.calls == limit && AllFail(attempt, base, base + limit)
    decreases limit
  {
    if limit == 0 then Attempts(None, 0)
    else if attempt(base).Some? then Attempts(attempt(base), 1)
    else
      var rest := FirstSuccess(attempt, base + 1, limit - 1);
      Attempts(rest.outcome, rest.calls + 1)
  }

  /** The loop gives up exactly when every allowed attempt failed, and
      otherwise returns by the first attempt that succeeded. */
  lemma FirstSuccessIsFirst<T>(attempt: nat -> Option<T>, base: nat, limit: nat)
    ensures FirstSuccess(attempt, base, limit).outcome.None? <==> AllFail(attempt, base, base + limit)
    ensures forall n: nat :: base <= n < base + limit && attempt(n).Some? ==>
              FirstSuccess(attempt, base, limit).outcome.Some? && base + FirstSuccess(attempt, base, limit).calls <= n + 1
  {
  }

  /** The same attempts, written as a loop the way `_pull_iEEG` is written. */
  method Pull<T>(attempt: nat -> Option<T>, base: nat) returns (outcome: Option<T>, calls: nat)
    ensures Attempts(outcome, calls) == FirstSuccess(attempt, base, MaxRetries)
  {
    outcome, calls := PullAtMost(attempt, base, MaxRetries);
  }

  /** The loop of `Pull` for any number of tries. */
  method PullAtMost<T>(attempt: nat -> Option<T>, base: nat, limit: nat) returns (outcome: Option<T>, calls: nat)
    ensures Attempts(outcome, calls) == FirstSuccess(attempt, base, limit)
  {
    calls := 0;
    while calls < limit
      invariant calls <= limit
      invariant AllFail(attempt, base, base + calls)
      invariant FirstSuccess(attempt, base, limit) == FirstSuccessAfter(attempt, base, calls, limit)
    {
      var v := attempt(base + calls);
      FirstSuccessStep(attempt, base, calls, limit);
      calls := calls + 1;
      if v.Some? {
        return v, calls;
      }
    }
    return None, calls;
  }

  /** `FirstSuccess` once `done` attempts have failed. */
  function FirstSuccessAfter<T>(attempt: nat -> Option<T>, base: nat, done: nat, limit: nat): Attempts<T>
    requires done <= limit
  {
    var rest := FirstSuccess(attempt, base + done, limit - done);
    Attempts(rest.outcome, rest.calls + done)
  }

  lemma FirstSuccessStep<T>(attempt: nat -> Option<T>, base: nat, done: nat, limit: nat)
    requires done < limit
    ensures attempt(base + done).Some? ==>
              FirstSuccessAfter(attempt, base, done, limit) == Attempts(attempt(base + done), done + 1)
    ensures attempt(base + done).None? ==>
              FirstSuccessAfter(attempt, base, done, limit) == FirstSuccessAfter(attempt, base, done + 1, limit)
  {
  }
}
