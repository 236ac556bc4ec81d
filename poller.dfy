/** `waitForBalanceIncrease` (scripts/test.ts): poll the target balance until it exceeds the
    balance read before funding, or until the bridge timeout has elapsed. */
module Poller {
  import opened Wrappers
  import opened Domain
  import opened Env

  /** Milliseconds between two polls. */
  const POLL_INTERVAL: nat := 500
  /** Milliseconds after which a bridge is considered to have timed out. */
  const BRIDGE_TIMEOUT: nat := 120000
  /** Minimum milliseconds between two progress notices. */
  const LOG_INTERVAL: nat := 10000

  /** Every event is a successful read of `holder`'s `token` balance on chain `chainId`. */
  predicate OnlyReadsOf(events: seq<Event>, chainId: int, token: string, holder: Address) {
    forall i :: 0 <= i < |events| ==> IsReadOf(events[i], chainId, token, holder)
  }

  /** No read in `events` saw a balance above `initial`. */
  predicate NoIncrease(events: seq<Event>, initial: nat) {
    forall i :: 0 <= i < |events| ==> events[i].BalanceRead? ==> events[i].value <= initial
  }

  /** The polling ended on the first read above `initial`: the last read exceeds it and no
      earlier one does (an equal balance is not an increase). */
  predicate IncreaseObserved(events: seq<Event>, initial: nat) {
    && |events| > 0
    && events[|events| - 1].BalanceRead?
    && events[|events| - 1].value > initial
    && NoIncrease(events[..|events| - 1], initial)
  }

  /** Progress notices (elapsed milliseconds at which "Waiting for bridge..." is printed) are
      at least `LOG_INTERVAL` apart, the first one at least `LOG_INTERVAL` after the start. */
  predicate Spaced(notices: seq<int>) {
    && (|notices| > 0 ==> notices[0] >= LOG_INTERVAL)
    && forall i :: 0 < i < |notices| ==> notices[i] >= notices[i - 1] + LOG_INTERVAL
  }

  /** A notice at least `LOG_INTERVAL` after the previous one (or after the start) keeps the
      notices spaced. */
  lemma SpacedSnoc(notices: seq<int>, last: int, elapsed: int)
    requires Spaced(notices)
    requires last == if notices == [] then 0 else notices[|notices| - 1]
    requires elapsed - last >= LOG_INTERVAL
    ensures Spaced(notices + [elapsed])
  {
    var next := notices + [elapsed];
    forall i | 0 < i < |next|
      ensures next[i] >= next[i - 1] + LOG_INTERVAL
    {
      if i < |notices| {
        assert next[i] == notices[i] && next[i - 1] == notices[i - 1];
      } else {
        assert next[i] == elapsed && next[i - 1] == last;
      }
    }
  }

  /** What follows `log0` in `log0 + events` is `events`. */
  lemma Suffix(log0: seq<Event>, events: seq<Event>)
    ensures (log0 + events)[|log0|..] == events
  {
  }

  /** A first read above `initial` after reads that were not ends the polling with an
      observed increase. */
  lemma ObservedStep(polled: seq<Event>, read: Event, initial: nat)
    requires NoIncrease(polled, initial)
    requires read.BalanceRead? && read.value > initial
    ensures IncreaseObserved(polled + [read], initial)
  {
    assert (polled + [read])[..|polled|] == polled;
  }

  /** Returns `Success(true)` as soon as a read exceeds `initial`, `Success(false)` once
      `BRIDGE_TIMEOUT` has elapsed without that, and `Failure` when a read fails (the error
      propagates to the caller). Nothing but reads of the target route is done; the progress
      notices do not influence the result. */
  method WaitForBalanceIncrease(world: World, chain: Chain, token: string, holder: Address, initial: nat)
    returns (r: Result<bool>, notices: seq<int>)
    modifies world
    ensures world.time >= old(world.time)
    ensures old(world.log) <= world.log
    ensures OnlyReadsOf(world.log[|old(world.log)|..], chain.id, token, holder)
    ensures r == Success(true) ==> IncreaseObserved(world.log[|old(world.log)|..], initial)
    ensures r == Success(false) ==>
      NoIncrease(world.log[|old(world.log)|..], initial) && world.time >= old(world.time) + BRIDGE_TIMEOUT
    ensures r.Failure? ==> NoIncrease(world.log[|old(world.log)|..], initial)
    ensures Spaced(notices)
  {
    ghost var log0 := world.log;
    ghost var polled: seq<Event> := [];
    var start := world.Now();
    var lastLogTime := 0;
    notices := [];
    var now := world.Now();
    while now - start < BRIDGE_TIMEOUT
      invariant now == world.time && world.time >= start == old(world.time)
      invariant world.log == log0 + polled
      invariant OnlyReadsOf(polled, chain.id, token, holder)
      invariant NoIncrease(polled, initial)
      invariant Spaced(notices)
      invariant lastLogTime == if notices == [] then 0 else notices[|notices| - 1]
      decreases start + BRIDGE_TIMEOUT - world.time
    {
      var balance := world.ReadBalance(chain, token, holder);
      if balance.Failure? {
        Suffix(log0, polled);
        return Failure(balance.error), notices;
      }
      ghost var read := BalanceRead(chain.id, token, holder, balance.value);
      if balance.value > initial {
        assert world.log == log0 + (polled + [read]);
        Suffix(log0, polled + [read]);
        ObservedStep(polled, read, initial);
        return Success(true), notices;
      }
      polled := polled + [read];
      var t := world.Now();
      var elapsed := t - start;
      if elapsed - lastLogTime >= LOG_INTERVAL {
        SpacedSnoc(notices, lastLogTime, elapsed);
        notices := notices + [elapsed];
        lastLogTime := elapsed;
      }
      world.Sleep(POLL_INTERVAL);
      now := world.Now();
    }
    Suffix(log0, polled);
    r := Success(false);
  }
}
