/** The retry loops around the UI steps. Every UI step (launching the browser
    and filling the form up to the search click, or clicking a carrier's
    column header) consumes one outcome: `Timeout` when it raised
    TimeoutError, `Ready` when it went through. The waits that follow consume
    further outcomes (see Waits). */
module Session {
  import opened Waits

  /** The two versions of the scraper. */
  datatype Version = V1 | V12

  /** How a retried step ended: `Succeeded` after consuming `used` outcomes,
      `retries` of its attempts having failed; `Stalled` when the outcomes ran
      out while the program would still be retrying or waiting; `Crashed`
      when a TimeoutError escaped every handler and ended the program. */
  datatype Step = Succeeded(used: nat, retries: nat) | Stalled | Crashed

  /** Another attempt after a failed one that consumed `consumed` outcomes. */
  function Again(r: Step, consumed: nat): Step {
    match r
    case Succeeded(used, retries) => Succeeded(used + consumed, retries + 1)
    case _ => r
  }

  /** The version 1.2 retry shape, shared by the session loop and the carrier
      loop: one UI step, then the bounded wait. A raised step, or a wait that
      gives up (the session loop raises TimeoutError, the carrier loop says
      `continue`), starts the same attempt again. There is no ceiling on the
      number of attempts and no give-up state. */
  function RetryUntilLoaded(events: seq<Outcome>): (r: Step)
    ensures !r.Crashed?
    ensures r.Succeeded? ==> 2 <= r.used <= |events| && events[r.used - 1] == Ready
    decreases |events|
  {
    if |events| == 0 then Stalled
    else if events[0] == Timeout then Again(RetryUntilLoaded(events[1..]), 1)
    else
      match BoundedWait(events[1..])
      case Loaded(k) => Succeeded(1 + k, 0)
      case Exhausted(k) => Again(RetryUntilLoaded(events[1 + k..]), 1 + k)
      case Unfinished => Stalled
  }

  /** A failed version 1.2 attempt: the step raised, or it went through and
      the wait then gave up after five timeouts. */
  datatype Failure = StepRaised | WaitExhausted

  function FailureEvents(f: Failure): seq<Outcome> {
    match f
    case StepRaised => [Timeout]
    case WaitExhausted => [Ready] + Timeouts(MaxAttempts)
  }

  function FailuresEvents(fs: seq<Failure>): seq<Outcome>
    decreases |fs|
  {
    if |fs| == 0 then [] else FailureEvents(fs[0]) + FailuresEvents(fs[1..])
  }

  /** An attempt that succeeds: the step goes through, then k timeouts
      and the element. */
  function LoadingAttempt(k: nat): seq<Outcome> {
    [Ready] + Timeouts(k) + [Ready]
  }

  /** An attempt that loads within five tries ends the loop. */
  lemma RetryLoads(k: nat, rest: seq<Outcome>)
    requires k < MaxAttempts
    ensures RetryUntilLoaded(LoadingAttempt(k) + rest) == Succeeded(k + 2, 0)
  {
    var events := LoadingAttempt(k) + rest;
    assert events[1..] == Timeouts(k) + [Ready] + rest;
    BoundedWaitLoads(k, rest);
  }

  /** A failed attempt hands over to the same loop on the outcomes after it. */
  lemma RetryAfterFailure(f: Failure, more: seq<Outcome>)
    ensures RetryUntilLoaded(FailureEvents(f) + more)
            == Again(RetryUntilLoaded(more), |FailureEvents(f)|)
  {
    var events := FailureEvents(f) + more;
    match f
    case StepRaised =>
      assert events[1..] == more;
    case WaitExhausted =>
      assert events[1..] == Timeouts(MaxAttempts) + more;
      BoundedWaitGivesUp(MaxAttempts, more);
      assert events[1 + MaxAttempts..] == more;
  }

  /** No outer ceiling: after any number of failed attempts of any kind, an
      attempt whose wait sees the element within five tries succeeds, and the
      failures are counted as retries. */
  lemma {:induction false} RetryHasNoCeiling(fs: seq<Failure>, k: nat, rest: seq<Outcome>)
    requires k < MaxAttempts
    ensures RetryUntilLoaded(FailuresEvents(fs) + (LoadingAttempt(k) + rest))
            == Succeeded(|FailuresEvents(fs)| + k + 2, |fs|)
    decreases |fs|
  {
    var tail := LoadingAttempt(k) + rest;
    if |fs| == 0 {
      assert FailuresEvents(fs) + tail == tail;
      RetryLoads(k, rest);
    } else {
      var head := FailureEvents(fs[0]);
      var more := FailuresEvents(fs[1..]) + tail;
      assert FailuresEvents(fs) == head + FailuresEvents(fs[1..]);
      assert FailuresEvents(fs) + tail == head + more;
      RetryHasNoCeiling(fs[1..], k, rest);
      RetryAfterFailure(fs[0], more);
      assert |FailuresEvents(fs)| == |head| + |FailuresEvents(fs[1..])|;
    }
  }

  /** The retry loop decides on the outcomes it consumed: once it succeeds,
      later outcomes do not change the result. */
  lemma {:induction false} RetryIsCausal(events: seq<Outcome>, more: seq<Outcome>)
    requires RetryUntilLoaded(events).Succeeded?
    ensures RetryUntilLoaded(events + more) == RetryUntilLoaded(events)
    decreases |events|
  {
    var all := events + more;
    assert all[1..] == events[1..] + more;
    if events[0] == Timeout {
      RetryIsCausal(events[1..], more);
    } else {
      var w := BoundedWait(events[1..]);
      BoundedWaitIsCausal(events[1..], more);
      if w.Exhausted? {
        assert all[1 + w.used..] == events[1 + w.used..] + more;
        RetryIsCausal(events[1 + w.used..], more);
      }
    }
  }

  /** The version 1 session loop: only a raised step restarts the browser.
      Once the search click goes through the loop is left, and the wait for
      the comparison table that follows it has no ceiling. */
  function SearchV1(events: seq<Outcome>): (r: Step)
    ensures !r.Crashed?
    ensures r.Succeeded? ==> 2 <= r.used <= |events| && events[r.used - 1] == Ready
    ensures r.Succeeded? ==> r.retries + 2 <= r.used && AllTimeout(events[..r.retries]) && events[r.retries] == Ready
    decreases |events|
  {
    if |events| == 0 then Stalled
    else if events[0] == Timeout then
      var r := SearchV1(events[1..]);
      assert r.Succeeded? ==> events[..r.retries + 1] == [events[0]] + events[1..][..r.retries];
      Again(r, 1)
    else
      match UnboundedWait(events[1..])
      case Loaded(k) => Succeeded(1 + k, 0)
      case _ => Stalled
  }

  /** No ceiling in version 1 either: n raised steps, a search that goes
      through and any number k of table-wait timeouts still end in success. */
  lemma {:induction false} SearchV1HasNoCeiling(n: nat, k: nat, rest: seq<Outcome>)
    ensures SearchV1(Timeouts(n) + [Ready] + Timeouts(k) + [Ready] + rest) == Succeeded(n + k + 2, n)
    decreases n
  {
    var events := Timeouts(n) + [Ready] + Timeouts(k) + [Ready] + rest;
    if n == 0 {
      assert events[1..] == Timeouts(k) + [Ready] + rest;
      UnboundedWaitHasNoCeiling(k, rest);
    } else {
      SearchV1HasNoCeiling(n - 1, k, rest);
      assert events[1..] == Timeouts(n - 1) + [Ready] + Timeouts(k) + [Ready] + rest;
    }
  }

  /** The version 1 carrier step: the click is outside any try block, so a
      click that times out ends the program; otherwise the wait for the
      carrier's table has no ceiling. */
  function SelectCarrierV1(events: seq<Outcome>): (r: Step)
    ensures r.Crashed? <==> |events| > 0 && events[0] == Timeout
    ensures r.Succeeded? ==>
      r.retries == 0 && 2 <= r.used <= |events| && events[0] == Ready
      && events[r.used - 1] == Ready && AllTimeout(events[1..r.used - 1])
  {
    if |events| == 0 then Stalled
    else if events[0] == Timeout then Crashed
    else
      match UnboundedWait(events[1..])
      case Loaded(k) =>
        assert events[1..k] == events[1..][..k - 1];
        Succeeded(1 + k, 0)
      case _ => Stalled
  }

  /** The success side of the version 1 carrier step: a click that goes
      through, then any number k of table-wait timeouts, still ends in
      success. */
  lemma SelectCarrierV1HasNoCeiling(k: nat, rest: seq<Outcome>)
    ensures SelectCarrierV1([Ready] + Timeouts(k) + [Ready] + rest) == Succeeded(k + 2, 0)
  {
    var events := [Ready] + Timeouts(k) + [Ready] + rest;
    assert events[1..] == Timeouts(k) + [Ready] + rest;
    UnboundedWaitHasNoCeiling(k, rest);
  }

  /** The search step of each version (session loop plus table wait). */
  function Search(v: Version, events: seq<Outcome>): (r: Step)
    ensures !r.Crashed?
    ensures r.Succeeded? ==> 1 <= r.used <= |events|
  {
    match v
    case V12 => RetryUntilLoaded(events)
    case V1 => SearchV1(events)
  }

  /** The carrier-selection step of each version (click plus carrier wait). */
  function SelectCarrier(v: Version, events: seq<Outcome>): (r: Step)
    ensures r.Succeeded? ==> 1 <= r.used <= |events|
    ensures v == V12 ==> !r.Crashed?
  {
    match v
    case V12 => RetryUntilLoaded(events)
    case V1 => SelectCarrierV1(events)
  }
}
