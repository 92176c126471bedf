/** The completion poller (fast_client.go:215-246): ask the updates resource
    for the state of one update until it is no longer enqueued, the context
    ends, or a request fails.

    Time is counted in intervals slept. A context is known by the number of
    sleeps after which it reports cancellation (if it ever does) and the
    number after which its deadline has passed. The k-th poll is the k-th
    call of the updates resource's Get, each against the server as it is at
    that moment. */
module Poller {

  import opened Common
  import opened Types
  import opened Dispatch
  import Updates

  datatype Context = Context(cancelAfter: Option<nat>, deadline: nat)

  /** The errors `ctx.Err()` reports (Go's context package). */
  const Canceled: Cause := Cause("context canceled")
  const DeadlineExceeded: Cause := Cause("context deadline exceeded")

  /** `ctx.Err()` after `sleeps` intervals: whichever of cancellation and the
      deadline came first; on a tie, Canceled. */
  function CtxErr(ctx: Context, sleeps: nat): (e: Option<Cause>)
    ensures e.None? <==> (ctx.cancelAfter.None? || sleeps < ctx.cancelAfter.value) && sleeps < ctx.deadline
    ensures e.Some? ==> e.value == Canceled || e.value == DeadlineExceeded
  {
    if ctx.cancelAfter.Some? && ctx.cancelAfter.value <= sleeps then Some(Canceled)
    else if ctx.deadline <= sleeps then Some(DeadlineExceeded)
    else None
  }

  /** The answers of successive polls: the k-th is updates Get dispatched to
      the server as `transports(k)` shows it. */
  function Fetches(config: Config, transports: nat -> (HttpRequest -> TransportReply), env: Env<Payload, Update>,
                   indexID: string, updateID: AsyncUpdateID): nat -> CallResult<Update>
  {
    (k: nat) => Call(config, transports(k), env, Updates.Get(Updates.ClientUpdates(indexID), updateID.updateID))
  }

  /** What the poller returns, and how many polls it made. */
  datatype Waited = Waited(status: UpdateStatus, err: Option<Cause>, polls: nat)

  /** The loop from its iteration `k` on (after `k` polls and `k` sleeps). */
  function WaitFrom(ctx: Context, fetch: nat -> CallResult<Update>, k: nat): Waited
    requires k <= ctx.deadline
    decreases ctx.deadline - k
  {
    if CtxErr(ctx, k).Some? then Waited("", CtxErr(ctx, k), k)
    else match fetch(k)
      case CallFailed(_) => Waited(UpdateStatusUnknown, None, k + 1)
      case CallOk(update) =>
        if update.status != UpdateStatusEnqueued then Waited(update.status, None, k + 1)
        else WaitFrom(ctx, fetch, k + 1)
  }

  function Wait(ctx: Context, fetch: nat -> CallResult<Update>): Waited
  {
    WaitFrom(ctx, fetch, 0)
  }

  /** WaitForPendingUpdate (fast_client.go:226-246). */
  method WaitForPendingUpdate(config: Config, transports: nat -> (HttpRequest -> TransportReply), env: Env<Payload, Update>,
                              ctx: Context, indexID: string, updateID: AsyncUpdateID)
    returns (status: UpdateStatus, err: Option<Cause>)
    ensures var w := Wait(ctx, Fetches(config, transports, env, indexID, updateID));
      status == w.status && err == w.err
  {
    var apiUpdates := Updates.ClientUpdates(indexID);
    ghost var fetch := Fetches(config, transports, env, indexID, updateID);
    var sleeps := 0;
    while true
      invariant sleeps <= ctx.deadline
      invariant WaitFrom(ctx, fetch, sleeps) == Wait(ctx, fetch)
      decreases ctx.deadline - sleeps
    {
      var e := CtxErr(ctx, sleeps);
      if e.Some? {
        return "", e;
      }
      var update := Call(config, transports(sleeps), env, Updates.Get(apiUpdates, updateID.updateID));
      assert update == fetch(sleeps);
      if update.CallFailed? {
        return UpdateStatusUnknown, None;
      }
      if update.value.status != UpdateStatusEnqueued {
        return update.value.status, None;
      }
      sleeps := sleeps + 1;
    }
  }

  /** The default wait: a 5 second timeout polled every 50 ms, so the deadline
      passes after 100 intervals; nothing cancels it. */
  const DefaultTimeoutMs: nat := 5000
  const DefaultIntervalMs: nat := 50

  function DefaultContext(): (ctx: Context)
    ensures ctx.cancelAfter.None? && ctx.deadline * DefaultIntervalMs == DefaultTimeoutMs
  {
    Context(None, DefaultTimeoutMs / DefaultIntervalMs)
  }

  /** DefaultWaitForPendingUpdate (fast_client.go:215-220). */
  method DefaultWaitForPendingUpdate(config: Config, transports: nat -> (HttpRequest -> TransportReply), env: Env<Payload, Update>,
                                     indexID: string, updateID: AsyncUpdateID)
    returns (status: UpdateStatus, err: Option<Cause>)
    ensures var w := Wait(DefaultContext(), Fetches(config, transports, env, indexID, updateID));
      status == w.status && err == w.err
  {
    status, err := WaitForPendingUpdate(config, transports, env, DefaultContext(), indexID, updateID);
  }

  // ---------------------------------------------------------------------------
  // What the poller promises

  /** The loop's whole behaviour from iteration `k`: every poll before the last
      found the update enqueued with the context still live; it then stops on
      the context's error (without polling), on a failed request (reporting
      "unknown" and no error), or on the first status other than enqueued. */
  lemma {:induction false} WaitFromCharacterised(ctx: Context, fetch: nat -> CallResult<Update>, k: nat)
    requires k <= ctx.deadline
    ensures var w := WaitFrom(ctx, fetch, k);
      var last := if w.err.Some? then w.polls else w.polls - 1;
      && k <= last <= w.polls <= ctx.deadline
      && (forall j :: k <= j < last ==> CtxErr(ctx, j).None? && fetch(j).CallOk? && fetch(j).value.status == UpdateStatusEnqueued)
      && (w.err.Some? ==> w.status == "" && w.err == CtxErr(ctx, w.polls))
      && (w.err.None? ==>
            && CtxErr(ctx, last).None?
            && (fetch(last).CallFailed? ==> w.status == UpdateStatusUnknown)
            && (fetch(last).CallOk? ==> w.status == fetch(last).value.status != UpdateStatusEnqueued))
    decreases ctx.deadline - k
  {
    if CtxErr(ctx, k).None? && fetch(k).CallOk? && fetch(k).value.status == UpdateStatusEnqueued {
      WaitFromCharacterised(ctx, fetch, k + 1);
    }
  }

  /** A context that has already ended stops the poller before it polls. */
  lemma EndedContextReturnsAtOnce(ctx: Context, fetch: nat -> CallResult<Update>)
    requires CtxErr(ctx, 0).Some?
    ensures Wait(ctx, fetch) == Waited("", CtxErr(ctx, 0), 0)
  {
  }

  /** Without an error the reported status is never "enqueued"; with one, the
      status is empty and the error is the context's. */
  lemma NeverReturnsEnqueued(ctx: Context, fetch: nat -> CallResult<Update>)
    ensures var w := Wait(ctx, fetch);
      && (w.err.None? ==> w.status != UpdateStatusEnqueued)
      && (w.err.Some? ==> w.status == "" && (w.err.value == Canceled || w.err.value == DeadlineExceeded))
  {
    WaitFromCharacterised(ctx, fetch, 0);
  }

  /** A failed request ends the wait with "unknown" and no error: the request's
      error is dropped. */
  lemma FailedFetchYieldsUnknown(ctx: Context, fetch: nat -> CallResult<Update>, k: nat)
    requires k < ctx.deadline && CtxErr(ctx, k).None? && fetch(k).CallFailed?
    requires forall j :: 0 <= j < k ==> CtxErr(ctx, j).None? && fetch(j).CallOk? && fetch(j).value.status == UpdateStatusEnqueued
    ensures Wait(ctx, fetch) == Waited(UpdateStatusUnknown, None, k + 1)
  {
    WaitFromCharacterised(ctx, fetch, 0);
  }

  /** The default wait is never cancelled, and it polls at most 100 times. */
  lemma DefaultWaitBounded(fetch: nat -> CallResult<Update>)
    ensures var w := Wait(DefaultContext(), fetch);
      && w.polls <= 100
      && (w.err.Some? ==> w.err == Some(DeadlineExceeded) && w.polls == 100)
  {
    WaitFromCharacterised(DefaultContext(), fetch, 0);
  }

  /** The poller has no bound of its own: while the update stays enqueued it
      polls once per interval until the context ends, so a context that is
      never cancelled and whose deadline is `d` intervals away is polled `d`
      times. A context that never ends at all would be polled forever. */
  lemma {:induction false} PollsUntilContextEnds(ctx: Context, fetch: nat -> CallResult<Update>, k: nat)
    requires ctx.cancelAfter.None? && k <= ctx.deadline
    requires forall j :: fetch(j).CallOk? && fetch(j).value.status == UpdateStatusEnqueued
    ensures WaitFrom(ctx, fetch, k) == Waited("", Some(DeadlineExceeded), ctx.deadline)
    decreases ctx.deadline - k
  {
    if k < ctx.deadline {
      assert fetch(k).CallOk?;
      PollsUntilContextEnds(ctx, fetch, k + 1);
    }
  }
}
