/** The wait helpers `wait_for_table_load` and `wait_for_carrier_table_load`.
    The page is reduced to the sequence of outcomes its successive waits
    observe: each attempt consumes one outcome, `Timeout` when the selector
    did not appear within the fixed timeout and `Ready` when it did. */
module Waits {

  datatype Outcome = Timeout | Ready

  /** How a wait ended: `Loaded` after `used` attempts (the Python helper
      returns None), `Exhausted` after `used` attempts (it returns True), or
      `Unfinished` when the outcome sequence ran out first (the real helper
      would still be waiting). */
  datatype Wait = Loaded(used: nat) | Exhausted(used: nat) | Unfinished

  /** The attempt ceiling of version 1.2. */
  const MaxAttempts: nat := 5

  predicate AllTimeout(outs: seq<Outcome>) {
    forall i :: 0 <= i < |outs| ==> outs[i] == Timeout
  }

  function Timeouts(n: nat): (outs: seq<Outcome>)
    ensures |outs| == n && AllTimeout(outs)
  {
    seq(n, _ => Timeout)
  }

  /** The wait loop with a ceiling of `budget` attempts. */
  function WaitAtMost(outs: seq<Outcome>, budget: nat): (w: Wait)
    requires budget >= 1
    ensures w.Exhausted? <==> |outs| >= budget && AllTimeout(outs[..budget])
    ensures w.Exhausted? ==> w.used == budget
    ensures w.Loaded? ==>
      1 <= w.used <= budget && w.used <= |outs|
      && outs[w.used - 1] == Ready && AllTimeout(outs[..w.used - 1])
    ensures w.Unfinished? <==> |outs| < budget && AllTimeout(outs)
    decreases budget
  {
    if |outs| == 0 then Unfinished
    else if outs[0] == Ready then Loaded(1)
    else if budget == 1 then Exhausted(1)
    else
      var rest := WaitAtMost(outs[1..], budget - 1);
      assert |outs| >= budget ==> outs[..budget] == [outs[0]] + outs[1..][..budget - 1];
      match rest
      case Loaded(k) =>
        assert outs[..k] == [outs[0]] + outs[1..][..k - 1];
        Loaded(k + 1)
      case Exhausted(k) => Exhausted(k + 1)
      case Unfinished => Unfinished
  }

  /** Version 1.2 `wait_for_carrier_table_load`: at most five attempts;
      it gives up (returns True) exactly when the first five outcomes are
      all timeouts, and otherwise stops right after the first `Ready`. */
  function BoundedWait(outs: seq<Outcome>): (w: Wait)
    ensures w.Exhausted? <==> |outs| >= 5 && AllTimeout(outs[..5])
    ensures w.Exhausted? ==> w.used == 5
    ensures w.Loaded? ==>
      1 <= w.used <= 5 && w.used <= |outs|
      && outs[w.used - 1] == Ready && AllTimeout(outs[..w.used - 1])
    ensures w.Unfinished? <==> |outs| < 5 && AllTimeout(outs)
  {
    WaitAtMost(outs, MaxAttempts)
  }

  /** Version 1.2 `wait_for_table_load`, written as its counting loop. */
  method WaitForTableLoad(outs: seq<Outcome>) returns (w: Wait)
    ensures w.Exhausted? <==> |outs| >= 5 && AllTimeout(outs[..5])
    ensures w.Exhausted? ==> w.used == 5
    ensures w.Loaded? ==>
      1 <= w.used <= 5 && w.used <= |outs|
      && outs[w.used - 1] == Ready && AllTimeout(outs[..w.used - 1])
    ensures w.Unfinished? <==> |outs| < 5 && AllTimeout(outs)
  {
    var counter := 0;
    while true
      invariant counter < MaxAttempts
      invariant counter <= |outs|
      invariant AllTimeout(outs[..counter])
      decreases MaxAttempts - counter
    {
      if counter == |outs| {
        return Unfinished;
      }
      counter := counter + 1;
      if outs[counter - 1] == Ready {
        return Loaded(counter);
      }
      assert outs[..counter] == outs[..counter - 1] + [outs[counter - 1]];
      if counter >= MaxAttempts {
        return Exhausted(counter);
      }
    }
  }

  /** Version 1 `wait_for_table_load` and `wait_for_carrier_table_load`:
      no ceiling. The wait never gives up; it ends only on the first `Ready`. */
  function UnboundedWait(outs: seq<Outcome>): (w: Wait)
    ensures !w.Exhausted?
    ensures w.Loaded? ==>
      1 <= w.used <= |outs| && outs[w.used - 1] == Ready && AllTimeout(outs[..w.used - 1])
    ensures w.Unfinished? <==> AllTimeout(outs)
    decreases |outs|
  {
    if |outs| == 0 then Unfinished
    else if outs[0] == Ready then Loaded(1)
    else
      match UnboundedWait(outs[1..])
      case Loaded(k) =>
        assert outs[..k] == [outs[0]] + outs[1..][..k - 1];
        Loaded(k + 1)
      case _ => Unfinished
  }

  /** Five timeouts in a row end a version 1.2 wait, whatever follows. */
  lemma BoundedWaitGivesUp(n: nat, rest: seq<Outcome>)
    requires n >= MaxAttempts
    ensures BoundedWait(Timeouts(n) + rest) == Exhausted(MaxAttempts)
  {
    assert (Timeouts(n) + rest)[..5] == Timeouts(n)[..5];
  }

  /** Fewer than five timeouts and then `Ready`: a version 1.2 wait loads. */
  lemma BoundedWaitLoads(k: nat, rest: seq<Outcome>)
    requires k < MaxAttempts
    ensures BoundedWait(Timeouts(k) + [Ready] + rest) == Loaded(k + 1)
  {
    var outs := Timeouts(k) + [Ready] + rest;
    assert outs[k] == Ready;
    if |outs| >= 5 {
      assert outs[..5][k] == Ready;
    }
  }

  /** However many timeouts come first, a version 1 wait keeps waiting and
      succeeds on the first `Ready`. */
  lemma UnboundedWaitHasNoCeiling(n: nat, rest: seq<Outcome>)
    ensures UnboundedWait(Timeouts(n) + [Ready] + rest) == Loaded(n + 1)
  {
    var outs := Timeouts(n) + [Ready] + rest;
    var w := UnboundedWait(outs);
    assert outs[n] == Ready;
    assert !AllTimeout(outs);
  }

  /** A wait decides on the outcomes it consumed: once it has a verdict,
      later outcomes do not change it. */
  lemma BoundedWaitIsCausal(outs: seq<Outcome>, more: seq<Outcome>)
    requires !BoundedWait(outs).Unfinished?
    ensures BoundedWait(outs + more) == BoundedWait(outs)
  {
    var w := BoundedWait(outs);
    var w' := BoundedWait(outs + more);
    if |outs| >= 5 {
      assert (outs + more)[..5] == outs[..5];
    }
    if w.Loaded? {
      assert (outs + more)[..w.used] == outs[..w.used];
    }
  }
}
