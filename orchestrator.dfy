/** The end-to-end run of scripts/test.ts: each case is attempted (baseline read, funding,
    polling, classification), failures cascade to skips inside a group, the mainnet tier is
    gated on the testnet tier and aborts its later groups after a failing group, the report is
    printed, and every target route is swept. */
module Orchestrator {
  import opened Wrappers
  import opened Domain
  import opened Env
  import opened Common
  import opened Grouping
  import opened Poller
  import opened Report

  /** Where the sweep sends what is left on the test account. */
  const RECIPIENT: Address := "0x08EAfb4AA851AA866a20d3a66b5AB99C418D2181"

  const TIMEOUT_ERROR: string := "Timeout"
  const PREVIOUS_TEST_FAILED: string := "Previous test failed"
  const PREVIOUS_GROUP_FAILED: string := "Previous group failed"
  const TESTNET_FAILED: string := "Testnet failed"

  /** The source tokens `getRandomFundAmount` and `fundToken` know how to fund. */
  predicate KnownSourceToken(token: string) {
    token == "ETH" || token == "USDC" || token == "WETH"
  }

  function UnknownToken(token: string): string {
    "Unknown token: " + token
  }

  /** `getRandomFundAmount` with the random draw supplied: the drawn amount for a known
      token, the "Unknown token" error otherwise. */
  function RandomFundAmount(token: string, drawn: nat): (r: Result<nat>)
    ensures r.Success? <==> KnownSourceToken(token)
    ensures r.Success? ==> r.value == drawn
    ensures r.Failure? ==> r.error == UnknownToken(token)
  {
    if KnownSourceToken(token) then Success(drawn) else Failure(UnknownToken(token))
  }

  /** How `fundToken` funding `address` with `amount` of `token` on `chain` may have ended,
      given the events it logged: only funding events, shaped as the helper for that token
      settles (the caller's amount, or the default when it is zero); an unknown token fails
      with "Unknown token" and does nothing. */
  predicate FundingSettled(o: Outcome, events: seq<Event>, chain: Chain, token: string, address: Address,
                           amount: nat, funder: Address) {
    && OnlyFundingEvents(events, chain.id, funder)
    && (token == "ETH" ==>
          PrefundSettled(o, events, chain, funder, address, AmountOr(Some(amount), DefaultEthAmount(chain))))
    && (token == "USDC" ==>
          StablecoinSettled(o, events, chain, funder, "USDC", address, AmountOr(Some(amount), DefaultStableAmount(chain))))
    && (token == "WETH" ==>
          PrefundWethSettled(o, events, chain, funder, address, AmountOr(Some(amount), DefaultWethAmount(chain))))
    && (!KnownSourceToken(token) ==> o == Err(UnknownToken(token)) && events == [])
  }

  /** A successful funding with a token other than ETH ends with the transfer of the fund
      amount of that token to `address`; a successful ETH funding leaves `address` with at
      least half the fund amount. */
  lemma FundingPaysAccount(o: Outcome, events: seq<Event>, chain: Chain, token: string, address: Address,
                           amount: nat, funder: Address)
    requires FundingSettled(o, events, chain, token, address, amount, funder) && o.Ok?
    ensures KnownSourceToken(token)
    ensures token == "USDC" || token == "WETH" ==>
      var fundAmount := AmountOr(Some(amount), if token == "USDC" then DefaultStableAmount(chain) else DefaultWethAmount(chain));
      |events| > 0 && events[|events| - 1] == Sent(chain.id, funder, TokenTransfer(token, address, fundAmount))
    ensures token == "ETH" ==>
      var fundAmount := AmountOr(Some(amount), DefaultEthAmount(chain));
      events[0].BalanceRead? && events[0].holder == address
      && events[0].value + PaidTo(PrefundTxs(address, events[0].value, fundAmount), address) >= fundAmount / 2
  {
    if token == "WETH" {
      var fundAmount := AmountOr(Some(amount), DefaultWethAmount(chain));
      PrefundWethLogShape(chain, funder, address, events[0].value, events[1].value, fundAmount);
    } else if token == "ETH" {
      var fundAmount := AmountOr(Some(amount), DefaultEthAmount(chain));
      PrefundReachesHalf(address, events[0].value, fundAmount);
    }
  }

  /** `fundToken`: dispatch on the source token to the matching funding helper, with the
      amount passed as the helper's explicit amount; any other token is an error and nothing
      is done. */
  method FundToken(world: World, chain: Chain, token: string, address: Address, amount: nat)
    returns (o: Outcome, ghost events: seq<Event>)
    modifies world
    ensures world.time >= old(world.time)
    ensures world.log == old(world.log) + events
    ensures FundingSettled(o, events, chain, token, address, amount, world.funder)
  {
    if token == "ETH" {
      o, events := Prefund(world, chain, address, Some(amount));
    } else if token == "USDC" {
      o, events := PrefundUsdc(world, chain, address, Some(amount));
    } else if token == "WETH" {
      o, events := PrefundWeth(world, chain, address, Some(amount));
    } else {
      o, events := Err(UnknownToken(token)), [];
    }
  }

  /** How an attempted case ended: the poller saw the increase, the poller timed out, or a
      step threw. */
  datatype Ending = Increased | TimedOut | Threw(error: string)

  /** What attempting one case did to the world, phase by phase: the baseline read, the amount
      drawn and how funding it went, the funding events, the polling reads, and the ending. */
  datatype CaseTrace = CaseTrace(baseline: seq<Event>, amount: nat, funded: Outcome, funding: seq<Event>,
                                 polling: seq<Event>, ending: Ending)

  function TraceEvents(t: CaseTrace): seq<Event> {
    t.baseline + t.funding + t.polling
  }

  /** An attempt of `tc` by `account`: the baseline read of the target balance comes first,
      then the funding of `account` with the drawn amount of the source token on the source
      chain, then only reads of the target balance; nothing is funded or polled once a step has
      thrown; an unknown source token throws before any transaction; polling happens, and the
      case can end other than by throwing, only after the funding succeeded; the poller's
      verdict is taken as is. */
  ghost predicate IsAttempt(t: CaseTrace, tc: TestCase, account: Address, funder: Address) {
    && (t.baseline == [] || (|t.baseline| == 1 && IsReadOf(t.baseline[0], tc.targetChain.id, tc.targetToken, account)))
    && OnlyFundingEvents(t.funding, tc.sourceChain.id, funder)
    && OnlyReadsOf(t.polling, tc.targetChain.id, tc.targetToken, account)
    && (t.baseline == [] ==> t.funding == [] && t.polling == [] && t.ending.Threw?)
    && (!KnownSourceToken(tc.sourceToken) && t.baseline != [] ==>
          t.funding == [] && t.polling == [] && t.ending == Threw(UnknownToken(tc.sourceToken)))
    && (|t.baseline| == 1 && KnownSourceToken(tc.sourceToken) ==>
          && FundingSettled(t.funded, t.funding, tc.sourceChain, tc.sourceToken, account, t.amount, funder)
          && (t.funded.Err? ==> t.polling == [] && t.ending == Threw(t.funded.error)))
    && (t.polling != [] || !t.ending.Threw? ==>
          |t.baseline| == 1 && KnownSourceToken(tc.sourceToken) && t.funded.Ok?)
    && (t.ending.Increased? ==> |t.baseline| == 1 && IncreaseObserved(t.polling, t.baseline[0].value))
    && (t.ending.TimedOut? ==> |t.baseline| == 1 && NoIncrease(t.polling, t.baseline[0].value))
    && (t.ending.Threw? && |t.baseline| == 1 ==> NoIncrease(t.polling, t.baseline[0].value))
  }

  /** The result pushed for an attempted case: `pass` with its duration when the increase was
      seen, `fail` with "Timeout" or with the thrown message otherwise; never `skip`. */
  function Classify(network: Network, tc: TestCase, ending: Ending, durationMs: nat): (r: TestResult)
    ensures Describes(r, tc, network) && r.durationMs == Some(durationMs)
    ensures r.status == Pass <==> ending.Increased?
    ensures r.status == Fail <==> !ending.Increased?
    ensures ending.Increased? ==> r.error.None?
    ensures ending.TimedOut? ==> r.error == Some(TIMEOUT_ERROR)
    ensures ending.Threw? ==> r.error == Some(ending.error)
  {
    var status := if ending.Increased? then Pass else Fail;
    var error := match ending
      case Increased => None
      case TimedOut => Some(TIMEOUT_ERROR)
      case Threw(e) => Some(e);
    TestResult(network, tc.sourceChain.name, tc.sourceToken, tc.targetChain.name, tc.targetToken,
               status, Some(durationMs), error)
  }

  /** The result pushed for a case that is not attempted. */
  function SkipResult(network: Network, tc: TestCase, reason: string): (r: TestResult)
    ensures Describes(r, tc, network)
    ensures r.status == Skip && r.durationMs.None? && r.error == Some(reason)
  {
    TestResult(network, tc.sourceChain.name, tc.sourceToken, tc.targetChain.name, tc.targetToken,
               Skip, None, Some(reason))
  }

  /** `r` is what was pushed for the attempt traced by `t`. */
  ghost predicate ReportsAttempt(r: TestResult, network: Network, tc: TestCase, t: CaseTrace) {
    && r.durationMs.Some?
    && r == Classify(network, tc, t.ending, r.durationMs.value)
    && (t.ending.TimedOut? ==> r.durationMs.value >= BRIDGE_TIMEOUT)
  }

  /** An attempted case is recorded as passed exactly when the polling saw the target
      balance rise above the baseline: a rise is never reported as a timeout or an error. */
  lemma PassIffIncreaseObserved(r: TestResult, network: Network, tc: TestCase, t: CaseTrace, account: Address, funder: Address)
    requires IsAttempt(t, tc, account, funder) && ReportsAttempt(r, network, tc, t)
    ensures r.status == Pass <==> |t.baseline| == 1 && IncreaseObserved(t.polling, t.baseline[0].value)
  {
  }

  /** Funding and polling, once the baseline `initial` has been read and the amount drawn:
      fund the source token, then, when that succeeded, poll the target balance for an
      increase over `initial`. */
  method FundAndPoll(world: World, account: Address, tc: TestCase, initial: nat, amount: nat)
    returns (ending: Ending, ghost funded: Outcome, ghost funding: seq<Event>, ghost polling: seq<Event>)
    requires KnownSourceToken(tc.sourceToken)
    modifies world
    ensures world.time >= old(world.time)
    ensures world.log == old(world.log) + funding + polling
    ensures FundingSettled(funded, funding, tc.sourceChain, tc.sourceToken, account, amount, world.funder)
    ensures funded.Err? ==> polling == [] && ending == Threw(funded.error)
    ensures OnlyReadsOf(polling, tc.targetChain.id, tc.targetToken, account)
    ensures ending.Increased? ==> IncreaseObserved(polling, initial)
    ensures ending.TimedOut? ==> NoIncrease(polling, initial) && world.time >= old(world.time) + BRIDGE_TIMEOUT
    ensures ending.Threw? ==> NoIncrease(polling, initial)
  {
    var o;
    o, funding := FundToken(world, tc.sourceChain, tc.sourceToken, account, amount);
    funded := o;
    if o.Err? {
      return Threw(o.error), funded, funding, [];
    }
    ghost var log1 := world.log;
    var success, _ := WaitForBalanceIncrease(world, tc.targetChain, tc.targetToken, account, initial);
    polling := world.log[|log1|..];
    assert world.log == log1 + polling;
    ending := if success.Failure? then Threw(success.error) else if success.value then Increased else TimedOut;
  }

  /** One attempt of `tc` (the per-case `try` block up to the verdict): read the target
      balance, draw the amount, fund and poll. */
  method AttemptCase(world: World, account: Address, tc: TestCase) returns (ending: Ending, ghost t: CaseTrace)
    modifies world
    ensures world.time >= old(world.time)
    ensures world.log == old(world.log) + TraceEvents(t)
    ensures IsAttempt(t, tc, account, world.funder)
    ensures t.ending == ending
    ensures ending.TimedOut? ==> world.time >= old(world.time) + BRIDGE_TIMEOUT
  {
    var initial := world.ReadBalance(tc.targetChain, tc.targetToken, account);
    if initial.Failure? {
      ending := Threw(initial.error);
      t := CaseTrace([], 0, Ok, [], [], ending);
      return;
    }
    ghost var baseline := [BalanceRead(tc.targetChain.id, tc.targetToken, account, initial.value)];
    var drawn := world.Draw(tc.sourceChain, tc.sourceToken);
    var amount := RandomFundAmount(tc.sourceToken, drawn);
    if amount.Failure? {
      ending := Threw(amount.error);
      t := CaseTrace(baseline, drawn, Ok, [], [], ending);
      return;
    }
    ghost var funded, funding, polling;
    ending, funded, funding, polling := FundAndPoll(world, account, tc, initial.value, amount.value);
    t := CaseTrace(baseline, amount.value, funded, funding, polling, ending);
  }

  /** `cases.map((c) => c.sourceChain)`. */
  function SourceChains(cases: seq<TestCase>): (chains: seq<Chain>)
    ensures |chains| == |cases|
    ensures forall i :: 0 <= i < |cases| ==> chains[i] == cases[i].sourceChain
  {
    seq(|cases|, i requires 0 <= i < |cases| => cases[i].sourceChain)
  }

  /** The sessions requested before a group runs: one per distinct source chain of the
      group's cases, then the target chain unless it is already among them. */
  function GroupSessions(signer: Address, g: TargetGroup): seq<Session> {
    Sessions(signer, SessionChains(SourceChains(g.cases), g.targetChain))
  }

  /** The registration of `account` for the target route of `g`. */
  function Registration(account: Address, signer: Address, g: TargetGroup): Event {
    Registered(account, g.targetChain.id, g.targetToken, GroupSessions(signer, g))
  }

  /** Some result in `rs` is a failure. */
  predicate HasFail(rs: seq<TestResult>) {
    exists i :: 0 <= i < |rs| && rs[i].status == Fail
  }

  /** Inside a group, a case is skipped exactly when an earlier case of the group failed. */
  predicate Cascades(rs: seq<TestResult>) {
    && (forall i, j :: 0 <= j < i < |rs| && rs[j].status == Fail ==> rs[i].status == Skip)
    && (forall i :: 0 <= i < |rs| && rs[i].status == Skip ==> exists j :: 0 <= j < i && rs[j].status == Fail)
  }

  /** The events of the attempted cases, in order (a skipped case has no trace). */
  function Flatten(traces: seq<Option<CaseTrace>>): seq<Event> {
    if traces == [] then []
    else
      var last := traces[|traces| - 1];
      Flatten(traces[..|traces| - 1]) + (if last.Some? then TraceEvents(last.value) else [])
  }

  lemma FlattenSnoc(traces: seq<Option<CaseTrace>>, trace: Option<CaseTrace>)
    ensures Flatten(traces + [trace]) == Flatten(traces) + (if trace.Some? then TraceEvents(trace.value) else [])
  {
    assert (traces + [trace])[..|traces|] == traces;
  }

  /** Appending to a log that extends `log0` by `done` extends it by `done + more`. */
  /** A prefix one longer is the prefix followed by the next element. */
  lemma TakeSnoc<T>(s: seq<T>, i: nat)
    requires i < |s|
    ensures s[..i + 1] == s[..i] + [s[i]]
  {
  }

  lemma AppendStep<T>(log0: seq<T>, done: seq<T>, before: seq<T>, after: seq<T>, more: seq<T>)
    requires before == log0 + done && after == before + more
    ensures after == log0 + (done + more)
  {
  }

  /** `block` is what running the cases `cases` of a group pushed, and `traces` what each case
      did: one result per case, in order; a skipped case got "Previous test failed", no
      duration and no trace; every other case was attempted and classified. */
  ghost predicate IsGroupRun(block: seq<TestResult>, traces: seq<Option<CaseTrace>>, cases: seq<TestCase>,
                             network: Network, account: Address, funder: Address) {
    && |block| == |cases|
    && |traces| == |cases|
    && Cascades(block)
    && forall i :: 0 <= i < |cases| ==>
      && Describes(block[i], cases[i], network)
      && (block[i].status == Skip <==> traces[i].None?)
      && (traces[i].None? ==> block[i] == SkipResult(network, cases[i], PREVIOUS_TEST_FAILED))
      && (traces[i].Some? ==>
            IsAttempt(traces[i].value, cases[i], account, funder)
            && ReportsAttempt(block[i], network, cases[i], traces[i].value))
  }

  /** A case skipped after a failure extends a group run. */
  lemma GroupRunSkip(block: seq<TestResult>, traces: seq<Option<CaseTrace>>, cases: seq<TestCase>, tc: TestCase,
                     network: Network, account: Address, funder: Address)
    requires IsGroupRun(block, traces, cases, network, account, funder)
    requires HasFail(block)
    ensures IsGroupRun(block + [SkipResult(network, tc, PREVIOUS_TEST_FAILED)], traces + [None], cases + [tc],
                       network, account, funder)
    ensures HasFail(block + [SkipResult(network, tc, PREVIOUS_TEST_FAILED)])
  {
    var block' := block + [SkipResult(network, tc, PREVIOUS_TEST_FAILED)];
    var j :| 0 <= j < |block| && block[j].status == Fail;
    assert block'[j].status == Fail;
  }

  /** An attempted case, when no earlier case of the group failed, extends a group run. */
  lemma GroupRunAttempt(block: seq<TestResult>, traces: seq<Option<CaseTrace>>, cases: seq<TestCase>, tc: TestCase,
                        r: TestResult, t: CaseTrace, network: Network, account: Address, funder: Address)
    requires IsGroupRun(block, traces, cases, network, account, funder)
    requires !HasFail(block)
    requires IsAttempt(t, tc, account, funder) && ReportsAttempt(r, network, tc, t)
    ensures IsGroupRun(block + [r], traces + [Some(t)], cases + [tc], network, account, funder)
    ensures HasFail(block + [r]) <==> r.status == Fail
  {
    var block' := block + [r];
    assert r.status != Skip;
    if r.status == Fail {
      assert block'[|block|].status == Fail;
    }
  }

  /** The results pushed for cases that are not attempted, all for the same reason. */
  function SkipAll(network: Network, cases: seq<TestCase>, reason: string): (rs: seq<TestResult>)
    ensures |rs| == |cases|
    ensures forall i :: 0 <= i < |cases| ==> rs[i] == SkipResult(network, cases[i], reason)
  {
    seq(|cases|, i requires 0 <= i < |cases| => SkipResult(network, cases[i], reason))
  }

  /** The sequences of `xss` one after the other. */
  function Concat<T>(xss: seq<seq<T>>): seq<T> {
    if xss == [] then [] else Concat(xss[..|xss| - 1]) + xss[|xss| - 1]
  }

  lemma ConcatSnoc<T>(xss: seq<seq<T>>, xs: seq<T>)
    ensures Concat(xss + [xs]) == Concat(xss) + xs
  {
    assert (xss + [xs])[..|xss|] == xss;
  }

  /** Some group in `blocks` had a failing case. */
  predicate SomeGroupFailed(blocks: seq<seq<TestResult>>) {
    exists h :: 0 <= h < |blocks| && HasFail(blocks[h])
  }

  /** What running a tier did, group by group: the groups, the results each pushed, the traces
      of its cases, and its events. */
  datatype TierRun = TierRun(groups: seq<TargetGroup>, blocks: seq<seq<TestResult>>,
                             traces: seq<seq<Option<CaseTrace>>>, logs: seq<seq<Event>>)

  /** Group `g` of `run` was skipped as "Previous group failed": the tier aborts after a
      failing group and an earlier group failed. */
  ghost predicate GroupAborted(run: TierRun, g: nat, abort: bool)
    requires g <= |run.blocks|
  {
    abort && SomeGroupFailed(run.blocks[..g])
  }

  /** Every group of `run` either was aborted, pushing a "Previous group failed" skip per case
      and doing nothing else, or was registered for its target route with its sessions and
      then had its cases run. */
  ghost predicate GroupsRan(run: TierRun, network: Network, abort: bool, account: Address, signer: Address, funder: Address) {
    && |run.blocks| == |run.groups|
    && |run.traces| == |run.groups|
    && |run.logs| == |run.groups|
    && forall g :: 0 <= g < |run.groups| ==>
      if GroupAborted(run, g, abort) then
        && run.blocks[g] == SkipAll(network, run.groups[g].cases, PREVIOUS_GROUP_FAILED)
        && run.logs[g] == []
      else
        && IsGroupRun(run.blocks[g], run.traces[g], run.groups[g].cases, network, account, funder)
        && run.logs[g] == [Registration(account, signer, run.groups[g])] + Flatten(run.traces[g])
  }

  /** `run` is a run of the tier whose cases are `cases`. */
  ghost predicate IsTierRun(run: TierRun, network: Network, cases: seq<TestCase>, abort: bool,
                            account: Address, signer: Address, funder: Address) {
    && IsGroupingOf(run.groups, cases)
    && GroupsRan(run, network, abort, account, signer, funder)
  }

  /** One more group extends a tier run. */
  lemma TierStep(run: TierRun, group: TargetGroup, block: seq<TestResult>, traces: seq<Option<CaseTrace>>,
                 log: seq<Event>, network: Network, abort: bool, account: Address, signer: Address, funder: Address)
    requires GroupsRan(run, network, abort, account, signer, funder)
    requires abort && SomeGroupFailed(run.blocks) ==>
      block == SkipAll(network, group.cases, PREVIOUS_GROUP_FAILED) && log == []
    requires !(abort && SomeGroupFailed(run.blocks)) ==>
      IsGroupRun(block, traces, group.cases, network, account, funder)
      && log == [Registration(account, signer, group)] + Flatten(traces)
    ensures var run' := TierRun(run.groups + [group], run.blocks + [block], run.traces + [traces], run.logs + [log]);
      GroupsRan(run', network, abort, account, signer, funder)
  {
    var run' := TierRun(run.groups + [group], run.blocks + [block], run.traces + [traces], run.logs + [log]);
    forall g | 0 <= g < |run'.groups|
      ensures GroupAborted(run', g, abort) <==> (if g < |run.groups| then GroupAborted(run, g, abort) else abort && SomeGroupFailed(run.blocks))
    {
      assert run'.blocks[..g] == run.blocks[..g] || g == |run.groups|;
      assert run'.blocks[..|run.groups|] == run.blocks;
    }
  }

  /** A skipped group fails nothing; an attempted one fails exactly when one of its cases did. */
  lemma SomeGroupFailedSnoc(blocks: seq<seq<TestResult>>, block: seq<TestResult>)
    ensures SomeGroupFailed(blocks + [block]) <==> SomeGroupFailed(blocks) || HasFail(block)
  {
    var blocks' := blocks + [block];
    if HasFail(block) {
      assert blocks'[|blocks|] == block;
    }
    if SomeGroupFailed(blocks) {
      var h :| 0 <= h < |blocks| && HasFail(blocks[h]);
      assert blocks'[h] == blocks[h];
    }
  }

  lemma SkipAllPasses(network: Network, cases: seq<TestCase>, reason: string)
    ensures !HasFail(SkipAll(network, cases, reason))
  {
  }

  /** Block `g` of `blocks` describes, position by position, the cases of group `g`. */
  predicate BlocksDescribe(blocks: seq<seq<TestResult>>, groups: seq<TargetGroup>, network: Network) {
    && |blocks| == |groups|
    && forall g :: 0 <= g < |groups| ==>
      && |blocks[g]| == |groups[g].cases|
      && forall i :: 0 <= i < |blocks[g]| ==> Describes(blocks[g][i], groups[g].cases[i], network)
  }

  lemma {:induction false} ConcatDescribes(blocks: seq<seq<TestResult>>, groups: seq<TargetGroup>, network: Network)
    requires BlocksDescribe(blocks, groups, network)
    ensures |Concat(blocks)| == |AllCases(groups)|
    ensures forall k :: 0 <= k < |Concat(blocks)| ==> Describes(Concat(blocks)[k], AllCases(groups)[k], network)
  {
    if blocks != [] {
      var n := |blocks| - 1;
      assert BlocksDescribe(blocks[..n], groups[..n], network) by {
        forall g | 0 <= g < n
          ensures |blocks[..n][g]| == |groups[..n][g].cases|
          ensures forall i :: 0 <= i < |blocks[..n][g]| ==> Describes(blocks[..n][g][i], groups[..n][g].cases[i], network)
        {
          assert blocks[..n][g] == blocks[g] && groups[..n][g] == groups[g];
        }
      }
      ConcatDescribes(blocks[..n], groups[..n], network);
      var front, back := Concat(blocks[..n]), AllCases(groups[..n]);
      assert Concat(blocks) == front + blocks[n];
      assert AllCases(groups) == back + groups[n].cases;
      forall k | 0 <= k < |Concat(blocks)|
        ensures Describes(Concat(blocks)[k], AllCases(groups)[k], network)
      {
        if k >= |front| {
          assert Concat(blocks)[k] == blocks[n][k - |front|];
          assert AllCases(groups)[k] == groups[n].cases[k - |front|];
        }
      }
    }
  }

  /** A tier pushes exactly one result per case: the results describe, in order, the cases
      group after group, and the groups hold every case exactly once. */
  lemma TierCoversCases(run: TierRun, network: Network, cases: seq<TestCase>, abort: bool,
                        account: Address, signer: Address, funder: Address)
    requires IsTierRun(run, network, cases, abort, account, signer, funder)
    ensures |Concat(run.blocks)| == |AllCases(run.groups)| == |cases|
    ensures forall k :: 0 <= k < |cases| ==> Describes(Concat(run.blocks)[k], AllCases(run.groups)[k], network)
    ensures multiset(AllCases(run.groups)) == multiset(cases)
  {
    forall g | 0 <= g < |run.groups|
      ensures |run.blocks[g]| == |run.groups[g].cases|
      ensures forall i :: 0 <= i < |run.blocks[g]| ==> Describes(run.blocks[g][i], run.groups[g].cases[i], network)
    {
      if GroupAborted(run, g, abort) {
        assert run.blocks[g] == SkipAll(network, run.groups[g].cases, PREVIOUS_GROUP_FAILED);
      } else {
        assert IsGroupRun(run.blocks[g], run.traces[g], run.groups[g].cases, network, account, funder);
      }
    }
    ConcatDescribes(run.blocks, run.groups, network);
    assert |multiset(AllCases(run.groups))| == |multiset(cases)|;
  }

  /** Some group failed exactly when some pushed result is a failure. */
  lemma {:induction false} SomeGroupFailedIffSomeFail(blocks: seq<seq<TestResult>>)
    ensures SomeGroupFailed(blocks) <==> HasFail(Concat(blocks))
  {
    if blocks != [] {
      var n := |blocks| - 1;
      SomeGroupFailedIffSomeFail(blocks[..n]);
      assert blocks == blocks[..n] + [blocks[n]];
      SomeGroupFailedSnoc(blocks[..n], blocks[n]);
      var front := Concat(blocks[..n]);
      assert Concat(blocks) == front + blocks[n];
      if HasFail(front) {
        var k :| 0 <= k < |front| && front[k].status == Fail;
        assert Concat(blocks)[k] == front[k];
      }
      if HasFail(blocks[n]) {
        var k :| 0 <= k < |blocks[n]| && blocks[n][k].status == Fail;
        assert Concat(blocks)[|front| + k] == blocks[n][k];
      }
      if HasFail(Concat(blocks)) {
        var k :| 0 <= k < |Concat(blocks)| && Concat(blocks)[k].status == Fail;
        if k < |front| {
          assert front[k].status == Fail;
        } else {
          assert blocks[n][k - |front|].status == Fail;
        }
      }
    }
  }

  /** An attempt submits no sweep: it reads balances and funds the account. */
  lemma AttemptNoSweeps(t: CaseTrace, tc: TestCase, account: Address, funder: Address)
    requires IsAttempt(t, tc, account, funder)
    ensures NoSweeps(TraceEvents(t))
  {
    NoSweepsAppend(t.baseline, t.funding);
    NoSweepsAppend(t.baseline + t.funding, t.polling);
  }

  /** The attempted cases of a group submit no sweep. */
  lemma {:induction false} FlattenNoSweeps(traces: seq<Option<CaseTrace>>, cases: seq<TestCase>,
                                          account: Address, funder: Address)
    requires |traces| == |cases|
    requires forall i :: 0 <= i < |traces| && traces[i].Some? ==> IsAttempt(traces[i].value, cases[i], account, funder)
    ensures NoSweeps(Flatten(traces))
  {
    if traces != [] {
      var n := |traces| - 1;
      FlattenNoSweeps(traces[..n], cases[..n], account, funder);
      var last: seq<Event> := if traces[n].Some? then TraceEvents(traces[n].value) else [];
      if traces[n].Some? {
        AttemptNoSweeps(traces[n].value, cases[n], account, funder);
      }
      NoSweepsAppend(Flatten(traces[..n]), last);
    }
  }

  /** Logs free of sweeps, one after the other, are free of sweeps. */
  lemma {:induction false} ConcatNoSweeps(logs: seq<seq<Event>>)
    requires forall g :: 0 <= g < |logs| ==> NoSweeps(logs[g])
    ensures NoSweeps(Concat(logs))
  {
    if logs != [] {
      var n := |logs| - 1;
      ConcatNoSweeps(logs[..n]);
      NoSweepsAppend(Concat(logs[..n]), logs[n]);
    }
  }

  /** Running the groups of a tier submits no sweep. */
  lemma TierNoSweeps(run: TierRun, network: Network, abort: bool, account: Address, signer: Address, funder: Address)
    requires GroupsRan(run, network, abort, account, signer, funder)
    ensures NoSweeps(Concat(run.logs))
  {
    forall g | 0 <= g < |run.groups|
      ensures NoSweeps(run.logs[g])
    {
      if !GroupAborted(run, g, abort) {
        FlattenNoSweeps(run.traces[g], run.groups[g].cases, account, funder);
        NoSweepsAppend([Registration(account, signer, run.groups[g])], Flatten(run.traces[g]));
      }
    }
    ConcatNoSweeps(run.logs);
  }

  /** The events of a sweep of `account`'s `token` balance on chain `chainId`: the balance
      read, then, unless it is zero, one sweep intent naming the token and the recipient (the
      request carries no amount). */
  function SweepLog(chainId: int, token: string, account: Address, recipient: Address, balance: nat)
    : (events: seq<Event>)
    ensures 1 <= |events| <= 2
    ensures events[0] == BalanceRead(chainId, token, account, balance)
    ensures |events| == 2 <==> balance > 0
    ensures |events| == 2 ==> events[1] == Sent(chainId, account, SweepIntent(token, recipient))
  {
    [BalanceRead(chainId, token, account, balance)]
      + if balance == 0 then [] else [Sent(chainId, account, SweepIntent(token, recipient))]
  }

  /** The events of sweeping the target route of each group in turn, `balances[g]` being the
      balance read for group `g`. */
  function SweepsLog(groups: seq<TargetGroup>, balances: seq<nat>, account: Address, recipient: Address)
    : seq<Event>
    requires |balances| == |groups|
  {
    if groups == [] then []
    else
      var n := |groups| - 1;
      SweepsLog(groups[..n], balances[..n], account, recipient)
        + SweepLog(groups[n].targetChain.id, groups[n].targetToken, account, recipient, balances[n])
  }

  /** `e` moves nothing, or is a sweep intent from `account` to `recipient` on the target
      route of one of `groups`. */
  predicate SweepsTo(e: Event, groups: seq<TargetGroup>, account: Address, recipient: Address) {
    e.Sent? ==>
      && e.sender == account && e.tx.SweepIntent? && e.tx.recipient == recipient
      && exists g :: 0 <= g < |groups| && e.chainId == groups[g].targetChain.id && e.tx.token == groups[g].targetToken
  }

  /** Every sweep moves funds only from `account`, only to `recipient`, and only on the
      target routes of the groups. */
  lemma {:induction false} SweepsOnlyToRecipient(groups: seq<TargetGroup>, balances: seq<nat>,
                                                 account: Address, recipient: Address)
    requires |balances| == |groups|
    ensures forall e :: e in SweepsLog(groups, balances, account, recipient) ==> SweepsTo(e, groups, account, recipient)
  {
    if groups != [] {
      var n := |groups| - 1;
      SweepsOnlyToRecipient(groups[..n], balances[..n], account, recipient);
      var front: seq<Event> := SweepsLog(groups[..n], balances[..n], account, recipient);
      var last: seq<Event> := SweepLog(groups[n].targetChain.id, groups[n].targetToken, account, recipient, balances[n]);
      forall e | e in front + last
        ensures SweepsTo(e, groups, account, recipient)
      {
        if e in front {
          assert SweepsTo(e, groups[..n], account, recipient);
          if e.Sent? {
            var g :| 0 <= g < n && e.chainId == groups[..n][g].targetChain.id && e.tx.token == groups[..n][g].targetToken;
            assert groups[..n][g] == groups[g];
          }
        }
      }
    }
  }

  /** What the two test phases leave behind: the testnet tier ran in full and decided
      `testnetPassed`; then either every mainnet case was skipped as "Testnet failed" or the
      mainnet tier ran in full; one result per case of either tier, in that order. */
  ghost predicate PhasesRan(results: seq<TestResult>, testnetPassed: bool, testnet: TierRun, mainnet: TierRun,
                            tierLog: seq<Event>, testnetCases: seq<TestCase>, mainnetCases: seq<TestCase>,
                            account: Address, signer: Address, funder: Address) {
    && IsTierRun(testnet, Testnet, testnetCases, false, account, signer, funder)
    && (testnetPassed <==> !HasFail(Concat(testnet.blocks)))
    && |results| == |testnetCases| + |mainnetCases|
    && (!testnetPassed ==>
          && results == Concat(testnet.blocks) + SkipAll(Mainnet, mainnetCases, TESTNET_FAILED)
          && tierLog == Concat(testnet.logs))
    && (testnetPassed ==>
          && IsTierRun(mainnet, Mainnet, mainnetCases, true, account, signer, funder)
          && results == Concat(testnet.blocks) + Concat(mainnet.blocks)
          && tierLog == Concat(testnet.logs) + Concat(mainnet.logs))
  }

  lemma PhasesSkipped(results: seq<TestResult>, testnet: TierRun, mainnet: TierRun, tierLog: seq<Event>,
                      testnetCases: seq<TestCase>, mainnetCases: seq<TestCase>,
                      account: Address, signer: Address, funder: Address)
    requires IsTierRun(testnet, Testnet, testnetCases, false, account, signer, funder)
    requires HasFail(Concat(testnet.blocks)) && |Concat(testnet.blocks)| == |testnetCases|
    requires results == Concat(testnet.blocks) + SkipAll(Mainnet, mainnetCases, TESTNET_FAILED)
    requires tierLog == Concat(testnet.logs)
    ensures PhasesRan(results, false, testnet, mainnet, tierLog, testnetCases, mainnetCases, account, signer, funder)
  {
  }

  lemma PhasesPassed(results: seq<TestResult>, testnetResults: seq<TestResult>, testnet: TierRun, mainnet: TierRun, tierLog: seq<Event>,
                     testnetCases: seq<TestCase>, mainnetCases: seq<TestCase>,
                     account: Address, signer: Address, funder: Address)
    requires IsTierRun(testnet, Testnet, testnetCases, false, account, signer, funder)
    requires !HasFail(Concat(testnet.blocks)) && |Concat(testnet.blocks)| == |testnetCases|
    requires IsTierRun(mainnet, Mainnet, mainnetCases, true, account, signer, funder)
    requires |Concat(mainnet.blocks)| == |mainnetCases|
    requires results == testnetResults + Concat(mainnet.blocks) && testnetResults == Concat(testnet.blocks)
    requires tierLog == Concat(testnet.logs) + Concat(mainnet.logs)
    ensures PhasesRan(results, true, testnet, mainnet, tierLog, testnetCases, mainnetCases, account, signer, funder)
  {
  }

  /** With no cases, a tier runs no group, pushes no result and does nothing. */
  lemma EmptyTier(network: Network, abort: bool, account: Address, signer: Address, funder: Address)
    ensures IsTierRun(TierRun([], [], [], []), network, [], abort, account, signer, funder)
    ensures Concat<TestResult>([]) == [] && Concat<Event>([]) == []
  {
    assert KeepFirstBy([], CaseKey) == [];
  }

  /** With no testnet case (the shipped plan has none), the testnet passes and the results
      are exactly the mainnet tier's. */
  lemma EmptyTestnetPasses(results: seq<TestResult>, testnetPassed: bool, testnet: TierRun, mainnet: TierRun,
                           tierLog: seq<Event>, mainnetCases: seq<TestCase>,
                           account: Address, signer: Address, funder: Address)
    requires PhasesRan(results, testnetPassed, testnet, mainnet, tierLog, [], mainnetCases, account, signer, funder)
    ensures testnetPassed
    ensures results == Concat(mainnet.blocks)
    ensures tierLog == Concat(testnet.logs) + Concat(mainnet.logs)
  {
    TierCoversCases(testnet, Testnet, [], false, account, signer, funder);
    assert Concat(testnet.blocks) == [];
  }

  /** What a sweep of the target route of `g` that failed logged: nothing (the lookup or the
      read failed), or its read of a positive `balance` and the intent whose submission failed. */
  predicate FailedSweep(tail: seq<Event>, g: TargetGroup, account: Address, recipient: Address, balance: nat) {
    tail == [] || (balance > 0 && tail == SweepLog(g.targetChain.id, g.targetToken, account, recipient, balance))
  }

  /** The log of a run that a failed registration ended: it closes with that registration and
      holds no sweep. */
  predicate CrashedLog(tierLog: seq<Event>) {
    && |tierLog| > 0
    && tierLog[|tierLog| - 1].Registered?
    && NoSweeps(tierLog)
  }

  /** Groups that submitted no sweep, followed by a failed registration, make a crashed log. */
  lemma CrashedAfter(ran: seq<Event>, failed: seq<Event>)
    requires NoSweeps(ran) && |failed| == 1 && failed[0].Registered?
    ensures CrashedLog(ran + failed)
  {
    NoSweepsAppend(ran, failed);
  }

  /** A crash in the mainnet tier, after a full testnet tier, leaves a crashed log. */
  lemma MainnetCrashLog(testnet: TierRun, mainnet: TierRun, failed: seq<Event>, testnetCases: seq<TestCase>,
                        account: Address, signer: Address, funder: Address)
    requires IsTierRun(testnet, Testnet, testnetCases, false, account, signer, funder)
    requires GroupsRan(mainnet, Mainnet, true, account, signer, funder)
    requires |failed| == 1 && failed[0].Registered?
    ensures CrashedLog(Concat(testnet.logs) + (Concat(mainnet.logs) + failed))
  {
    TierNoSweeps(testnet, Testnet, false, account, signer, funder);
    TierNoSweeps(mainnet, Mainnet, true, account, signer, funder);
    NoSweepsAppend(Concat(testnet.logs), Concat(mainnet.logs));
    CrashedAfter(Concat(testnet.logs) + Concat(mainnet.logs), failed);
    AppendStep(Concat(testnet.logs), Concat(mainnet.logs), Concat(testnet.logs) + Concat(mainnet.logs),
               Concat(testnet.logs) + Concat(mainnet.logs) + failed, failed);
  }

  /** A crash in the testnet tier leaves a crashed log. */
  lemma TestnetCrashLog(testnet: TierRun, failed: seq<Event>, account: Address, signer: Address, funder: Address)
    requires GroupsRan(testnet, Testnet, false, account, signer, funder)
    requires |failed| == 1 && failed[0].Registered?
    ensures CrashedLog(Concat(testnet.logs) + failed)
  {
    TierNoSweeps(testnet, Testnet, false, account, signer, funder);
    CrashedAfter(Concat(testnet.logs), failed);
  }

  /** `run` is a tier cut short by a failed registration: `grouping` is the tier's cases grouped
      by target route, the groups before the failing one ran as in a full tier, and the failing
      group is the next one, which was not aborted. Its registration is then the tier's last
      event. */
  ghost predicate TierCrashed(run: TierRun, grouping: seq<TargetGroup>, network: Network, cases: seq<TestCase>,
                              abort: bool, account: Address, signer: Address, funder: Address) {
    && IsGroupingOf(grouping, cases)
    && GroupsRan(run, network, abort, account, signer, funder)
    && |run.groups| < |grouping|
    && run.groups == grouping[..|run.groups|]
    && !(abort && SomeGroupFailed(run.blocks))
  }

  /** The two phases ended by a failed registration, with `tierLog` their events: either the
      testnet tier crashed, or it ran in full without a failure and the mainnet tier crashed.
      The log is the groups run so far followed by the registration of the crashed tier's next
      group. */
  ghost predicate PhasesCrashed(testnet: TierRun, mainnet: TierRun, grouping: seq<TargetGroup>, tierLog: seq<Event>,
                                testnetCases: seq<TestCase>, mainnetCases: seq<TestCase>,
                                account: Address, signer: Address, funder: Address) {
    || (&& TierCrashed(testnet, grouping, Testnet, testnetCases, false, account, signer, funder)
        && tierLog == Concat(testnet.logs) + [Registration(account, signer, grouping[|testnet.groups|])])
    || (&& IsTierRun(testnet, Testnet, testnetCases, false, account, signer, funder)
        && !HasFail(Concat(testnet.blocks))
        && TierCrashed(mainnet, grouping, Mainnet, mainnetCases, true, account, signer, funder)
        && tierLog == Concat(testnet.logs) + (Concat(mainnet.logs) + [Registration(account, signer, grouping[|mainnet.groups|])]))
  }

  /** How the script ends: it completes after printing the report and sweeping every route,
      or an error escapes (a failed registration during a tier, before the report; a failed
      read or sweep transaction during the sweep, after it). */
  datatype SuiteOutcome =
    | Completed(report: Summary)
    | CrashedInTier(error: string)
    | CrashedInSweep(report: Summary, error: string)

  /** The state the script's top level keeps while it runs: the results pushed so far and
      whether every testnet case has passed, with the environment, the test account and the
      session signer it works with. */
  class Suite {
    const world: World
    const account: Address
    const signer: Address
    var results: seq<TestResult>
    var testnetPassed: bool

    constructor (world: World, account: Address, signer: Address)
      ensures this.world == world && this.account == account && this.signer == signer
      ensures results == [] && testnetPassed
    {
      this.world := world;
      this.account := account;
      this.signer := signer;
      results := [];
      testnetPassed := true;
    }

    /** One attempt of `tc` (the body of the per-case `try`): read the target balance, draw
        and fund the amount, poll for the increase, and push the classified result with the
        time taken since the attempt began. */
    method RunCase(network: Network, tc: TestCase) returns (r: TestResult, ghost t: CaseTrace)
      modifies this, world
      ensures testnetPassed == old(testnetPassed)
      ensures results == old(results) + [r]
      ensures world.time >= old(world.time)
      ensures world.log == old(world.log) + TraceEvents(t)
      ensures IsAttempt(t, tc, account, world.funder)
      ensures ReportsAttempt(r, network, tc, t)
    {
      var startTime := world.Now();
      var ending;
      ending, t := AttemptCase(world, account, tc);
      var now := world.Now();
      r := Classify(network, tc, ending, now - startTime);
      results := results + [r];
    }
    /** One pass of the case loop: push a "Previous test failed" skip when an earlier case
        of the group failed, attempt the case otherwise. */
    method RunNext(network: Network, tc: TestCase, groupFailed: bool,
                   ghost block: seq<TestResult>, ghost traces: seq<Option<CaseTrace>>, ghost cases: seq<TestCase>,
                   ghost log0: seq<Event>, ghost results0: seq<TestResult>)
      returns (res: TestResult, ghost trace: Option<CaseTrace>)
      requires IsGroupRun(block, traces, cases, network, account, world.funder)
      requires groupFailed <==> HasFail(block)
      requires world.log == log0 + Flatten(traces) && results == results0 + block
      modifies this, world
      ensures testnetPassed == old(testnetPassed)
      ensures world.time >= old(world.time)
      ensures results == old(results) + [res]
      ensures world.log == old(world.log) + (if trace.Some? then TraceEvents(trace.value) else [])
      ensures IsGroupRun(block + [res], traces + [trace], cases + [tc], network, account, world.funder)
      ensures HasFail(block + [res]) <==> groupFailed || res.status == Fail
      ensures world.log == log0 + Flatten(traces + [trace]) && results == results0 + (block + [res])
    {
      ghost var before, resultsBefore := world.log, results;
      if groupFailed {
        res := SkipResult(network, tc, PREVIOUS_TEST_FAILED);
        trace := None;
        results := results + [res];
        GroupRunSkip(block, traces, cases, tc, network, account, world.funder);
      } else {
        ghost var t;
        res, t := RunCase(network, tc);
        trace := Some(t);
        GroupRunAttempt(block, traces, cases, tc, res, t, network, account, world.funder);
      }
      FlattenSnoc(traces, trace);
      AppendStep(log0, Flatten(traces), before, world.log, if trace.Some? then TraceEvents(trace.value) else []);
      AppendStep(results0, block, resultsBefore, results, [res]);
    }

    /** The case loop of a group: run `cases` in order, pushing "Previous test failed" skips
        once a case has failed. Returns whether a case failed. */
    method RunCases(network: Network, cases: seq<TestCase>)
      returns (groupFailed: bool, ghost block: seq<TestResult>, ghost traces: seq<Option<CaseTrace>>)
      modifies this, world
      ensures testnetPassed == old(testnetPassed)
      ensures world.time >= old(world.time)
      ensures results == old(results) + block
      ensures world.log == old(world.log) + Flatten(traces)
      ensures IsGroupRun(block, traces, cases, network, account, world.funder)
      ensures groupFailed <==> HasFail(block)
    {
      ghost var log0 := world.log;
      groupFailed := false;
      block, traces := [], [];
      for i := 0 to |cases|
        invariant testnetPassed == old(testnetPassed)
        invariant world.time >= old(world.time)
        invariant results == old(results) + block
        invariant world.log == log0 + Flatten(traces)
        invariant IsGroupRun(block, traces, cases[..i], network, account, world.funder)
        invariant groupFailed <==> HasFail(block)
      {
        var tc := cases[i];
        TakeSnoc(cases, i);
        var res, trace := RunNext(network, tc, groupFailed, block, traces, cases[..i], log0, old(results));
        block, traces := block + [res], traces + [trace];
        groupFailed := groupFailed || res.status == Fail;
      }
      assert cases[..|cases|] == cases;
    }

    /** One group (the body of the group loop once the group is not aborted): request the
        sessions for the group's chains and register the account for the group's target route
        (a failure there ends the whole run), then run the cases in order, pushing "Previous
        test failed" skips once a case has failed. Returns whether a case failed. */
    method RunGroup(network: Network, g: TargetGroup)
      returns (r: Result<bool>, ghost block: seq<TestResult>, ghost traces: seq<Option<CaseTrace>>, ghost log: seq<Event>)
      modifies this, world
      ensures testnetPassed == old(testnetPassed)
      ensures world.time >= old(world.time)
      ensures r.Failure? ==> results == old(results) && world.log == old(world.log) + [Registration(account, signer, g)]
      ensures r.Success? ==>
        && results == old(results) + block
        && world.log == old(world.log) + log
        && log == [Registration(account, signer, g)] + Flatten(traces)
        && IsGroupRun(block, traces, g.cases, network, account, world.funder)
        && (r.value <==> HasFail(block))
    {
      var sessions := Sessions(signer, SessionChains(SourceChains(g.cases), g.targetChain));
      var registered := world.Register(account, sessions, g.targetChain, g.targetToken);
      if registered.Err? {
        return Failure(registered.error), [], [], [];
      }
      ghost var before := world.log;
      var groupFailed;
      groupFailed, block, traces := RunCases(network, g.cases);
      log := [Registration(account, signer, g)] + Flatten(traces);
      AppendStep(old(world.log), [Registration(account, signer, g)], before, world.log, Flatten(traces));
      r := Success(groupFailed);
    }

    /** The loop pushing one skip per case, all for the same reason. */
    method SkipCases(network: Network, cases: seq<TestCase>, reason: string)
      modifies this
      ensures testnetPassed == old(testnetPassed)
      ensures results == old(results) + SkipAll(network, cases, reason)
    {
      for i := 0 to |cases|
        invariant testnetPassed == old(testnetPassed)
        invariant results == old(results) + SkipAll(network, cases[..i], reason)
      {
        assert SkipAll(network, cases[..i + 1], reason) == SkipAll(network, cases[..i], reason) + [SkipResult(network, cases[i], reason)];
        results := results + [SkipResult(network, cases[i], reason)];
      }
      assert cases[..|cases|] == cases;
    }

    /** One pass of the group loop: when the tier aborts after a failing group and one has
        failed, push a "Previous group failed" skip for each case; run the group otherwise.
        Returns whether a case of the group failed, or the registration error. */
    method RunTierNext(network: Network, group: TargetGroup, abort: bool, failed: bool, ghost run: TierRun)
      returns (r: Result<bool>, ghost block: seq<TestResult>, ghost traces: seq<Option<CaseTrace>>, ghost log: seq<Event>)
      requires GroupsRan(run, network, abort, account, signer, world.funder)
      requires failed <==> SomeGroupFailed(run.blocks)
      modifies this, world
      ensures testnetPassed == old(testnetPassed)
      ensures world.time >= old(world.time)
      ensures r.Failure? ==> results == old(results) && world.log == old(world.log) + [Registration(account, signer, group)]
      ensures r.Failure? ==> !(abort && failed)
      ensures r.Success? ==>
        && results == old(results) + block
        && world.log == old(world.log) + log
        && GroupsRan(TierRun(run.groups + [group], run.blocks + [block], run.traces + [traces], run.logs + [log]),
                     network, abort, account, signer, world.funder)
        && (r.value <==> HasFail(block))
    {
      if abort && failed {
        SkipCases(network, group.cases, PREVIOUS_GROUP_FAILED);
        block, traces, log := SkipAll(network, group.cases, PREVIOUS_GROUP_FAILED), [], [];
        SkipAllPasses(network, group.cases, PREVIOUS_GROUP_FAILED);
        r := Success(false);
      } else {
        r, block, traces, log := RunGroup(network, group);
        if r.Failure? {
          return;
        }
      }
      TierStep(run, group, block, traces, log, network, abort, account, signer, world.funder);
    }

    /** A tier (the testnet or the mainnet phase): group the cases by target route and run
        the groups in order; with `abortAfterFailedGroup` (the mainnet phase) every group after
        one with a failing case is skipped as "Previous group failed". Returns whether any case
        failed, or the registration error that ends the run. */
    method RunTier(network: Network, cases: seq<TestCase>, abortAfterFailedGroup: bool)
      returns (r: Result<bool>, ghost run: TierRun, ghost failed: seq<Event>, ghost grouping: seq<TargetGroup>)
      modifies this, world
      ensures testnetPassed == old(testnetPassed)
      ensures world.time >= old(world.time)
      ensures r.Failure? ==>
        && TierCrashed(run, grouping, network, cases, abortAfterFailedGroup, account, signer, world.funder)
        && failed == [Registration(account, signer, grouping[|run.groups|])]
        && results == old(results) + Concat(run.blocks)
        && world.log == old(world.log) + Concat(run.logs) + failed
      ensures r.Success? ==>
        && IsTierRun(run, network, cases, abortAfterFailedGroup, account, signer, world.funder)
        && results == old(results) + Concat(run.blocks)
        && world.log == old(world.log) + Concat(run.logs)
        && (r.value <==> SomeGroupFailed(run.blocks))
    {
      var groups := GroupByTarget(cases);
      grouping := groups;
      ghost var log0 := world.log;
      ghost var results0 := results;
      var anyFailed := false;
      failed := [];
      run := TierRun([], [], [], []);
      for i := 0 to |groups|
        invariant testnetPassed == old(testnetPassed)
        invariant world.time >= old(world.time)
        invariant run.groups == groups[..i]
        invariant GroupsRan(run, network, abortAfterFailedGroup, account, signer, world.funder)
        invariant anyFailed <==> SomeGroupFailed(run.blocks)
        invariant results == results0 + Concat(run.blocks)
        invariant world.log == log0 + Concat(run.logs)
      {
        TakeSnoc(groups, i);
        ghost var resultsBefore, logBefore := results, world.log;
        var groupFailed, block, traces, log := RunTierNext(network, groups[i], abortAfterFailedGroup, anyFailed, run);
        if groupFailed.Failure? {
          failed := [Registration(account, signer, groups[i])];
          AppendStep(log0, Concat(run.logs), logBefore, world.log, failed);
          return Failure(groupFailed.error), run, failed, grouping;
        }
        ConcatSnoc(run.blocks, block);
        ConcatSnoc(run.logs, log);
        AppendStep(results0, Concat(run.blocks), resultsBefore, results, block);
        AppendStep(log0, Concat(run.logs), logBefore, world.log, log);
        SomeGroupFailedSnoc(run.blocks, block);
        run := TierRun(run.groups + [groups[i]], run.blocks + [block], run.traces + [traces], run.logs + [log]);
        anyFailed := anyFailed || groupFailed.value;
      }
      assert groups[..|groups|] == groups;
      r := Success(anyFailed);
    }

    /** `sweepFunds`: look the token up, read the account's balance on the target route and,
        unless it is zero, submit one intent sweeping the token to `recipient` (the intent names
        no amount). A failure of any step propagates. */
    method SweepFunds(chain: Chain, token: string, recipient: Address)
      returns (o: Outcome, ghost balance: nat)
      modifies world
      ensures world.time >= old(world.time)
      ensures o.Ok? ==> world.log == old(world.log) + SweepLog(chain.id, token, account, recipient, balance)
      ensures o.Err? ==>
        || world.log == old(world.log)
        || (balance > 0 && world.log == old(world.log) + SweepLog(chain.id, token, account, recipient, balance))
    {
      var tokenAddress := world.TokenAddress(token, chain);
      if tokenAddress.Failure? {
        return Err(tokenAddress.error), 0;
      }
      var read := world.ReadBalance(chain, token, account);
      if read.Failure? {
        return Err(read.error), 0;
      }
      balance := read.value;
      if read.value == 0 {
        return Ok, balance;
      }
      o := world.Send(chain, account, SweepIntent(token, recipient));
    }

    /** The sweep loop: sweep the target route of each group in order, stopping at the first
        error. `balances` holds the balance read for each completed sweep; `tail` is what the
        failing sweep logged: nothing, or its read of `failedBalance` and its intent. */
    method RunSweeps(groups: seq<TargetGroup>, recipient: Address)
      returns (err: Option<string>, ghost balances: seq<nat>, ghost tail: seq<Event>, ghost failedBalance: nat,
               ghost swept: seq<Event>)
      modifies world
      ensures world.time >= old(world.time)
      ensures world.log == old(world.log) + swept
      ensures err.None? ==>
        && |balances| == |groups|
        && swept == SweepsLog(groups, balances, account, recipient)
      ensures err.Some? ==>
        && |balances| < |groups|
        && swept == SweepsLog(groups[..|balances|], balances, account, recipient) + tail
        && FailedSweep(tail, groups[|balances|], account, recipient, failedBalance)
    {
      ghost var log0 := world.log;
      balances, tail, failedBalance, swept := [], [], 0, [];
      for i := 0 to |groups|
        invariant world.time >= old(world.time)
        invariant |balances| == i
        invariant world.log == log0 + SweepsLog(groups[..i], balances, account, recipient)
      {
        ghost var before := world.log;
        var o, balance := SweepFunds(groups[i].targetChain, groups[i].targetToken, recipient);
        ghost var step := SweepLog(groups[i].targetChain.id, groups[i].targetToken, account, recipient, balance);
        if o.Err? {
          tail := if world.log == before then [] else step;
          failedBalance := balance;
          swept := SweepsLog(groups[..i], balances, account, recipient) + tail;
          return Some(o.error), balances, tail, failedBalance, swept;
        }
        assert groups[..i + 1][..i] == groups[..i];
        assert SweepsLog(groups[..i + 1], balances + [balance], account, recipient)
          == SweepsLog(groups[..i], balances, account, recipient) + step by {
          assert (balances + [balance])[..i] == balances;
        }
        AppendStep(log0, SweepsLog(groups[..i], balances, account, recipient), before, world.log, step);
        balances := balances + [balance];
      }
      assert groups[..|groups|] == groups;
      err, swept := None, SweepsLog(groups, balances, account, recipient);
    }

    /** The testnet phase: the testnet tier, never aborting after a failing group; the
        testnet passes when none of its cases failed. A failed registration ends the phase. */
    method RunTestnet(testnetCases: seq<TestCase>)
      returns (crash: Option<string>, ghost testnet: TierRun, ghost tierLog: seq<Event>, ghost grouping: seq<TargetGroup>)
      modifies this, world
      ensures world.time >= old(world.time)
      ensures world.log == old(world.log) + tierLog
      ensures crash.None? ==>
        && IsTierRun(testnet, Testnet, testnetCases, false, account, signer, world.funder)
        && |Concat(testnet.blocks)| == |testnetCases|
        && (testnetPassed <==> !HasFail(Concat(testnet.blocks)))
        && results == old(results) + Concat(testnet.blocks)
        && tierLog == Concat(testnet.logs)
      ensures crash.Some? ==>
        && TierCrashed(testnet, grouping, Testnet, testnetCases, false, account, signer, world.funder)
        && tierLog == Concat(testnet.logs) + [Registration(account, signer, grouping[|testnet.groups|])]
        && CrashedLog(tierLog)
    {
      var r;
      ghost var failed;
      r, testnet, failed, grouping := RunTier(Testnet, testnetCases, false);
      if r.Failure? {
        tierLog := Concat(testnet.logs) + failed;
        AppendStep(old(world.log), Concat(testnet.logs), old(world.log) + Concat(testnet.logs), world.log, failed);
        TestnetCrashLog(testnet, failed, account, signer, world.funder);
        return Some(r.error), testnet, tierLog, grouping;
      }
      tierLog := Concat(testnet.logs);
      testnetPassed := !r.value;
      SomeGroupFailedIffSomeFail(testnet.blocks);
      TierCoversCases(testnet, Testnet, testnetCases, false, account, signer, world.funder);
      crash := None;
    }

    /** The mainnet phase once some testnet case failed: every mainnet case is skipped as
        "Testnet failed". */
    method SkipMainnet(testnetCases: seq<TestCase>, mainnetCases: seq<TestCase>, ghost testnet: TierRun)
      returns (ghost mainnet: TierRun, ghost tierLog: seq<Event>)
      requires IsTierRun(testnet, Testnet, testnetCases, false, account, signer, world.funder)
      requires |Concat(testnet.blocks)| == |testnetCases|
      requires !testnetPassed && HasFail(Concat(testnet.blocks))
      requires results == Concat(testnet.blocks)
      modifies this
      ensures PhasesRan(results, testnetPassed, testnet, mainnet, tierLog, testnetCases, mainnetCases,
                        account, signer, world.funder)
      ensures tierLog == Concat(testnet.logs)
    {
      mainnet, tierLog := TierRun([], [], [], []), Concat(testnet.logs);
      SkipCases(Mainnet, mainnetCases, TESTNET_FAILED);
      PhasesSkipped(results, testnet, mainnet, tierLog, testnetCases, mainnetCases, account, signer, world.funder);
    }

    /** The mainnet tier, aborting after a failing group, or nothing when there is no
        mainnet case. A failed registration ends it. */
    method MainnetTier(mainnetCases: seq<TestCase>)
      returns (r: Result<bool>, ghost mainnet: TierRun, ghost added: seq<Event>, ghost grouping: seq<TargetGroup>)
      modifies this, world
      ensures testnetPassed == old(testnetPassed)
      ensures world.time >= old(world.time)
      ensures world.log == old(world.log) + added
      ensures r.Success? ==>
        && IsTierRun(mainnet, Mainnet, mainnetCases, true, account, signer, world.funder)
        && |Concat(mainnet.blocks)| == |mainnetCases|
        && results == old(results) + Concat(mainnet.blocks)
        && added == Concat(mainnet.logs)
      ensures r.Failure? ==>
        && TierCrashed(mainnet, grouping, Mainnet, mainnetCases, true, account, signer, world.funder)
        && added == Concat(mainnet.logs) + [Registration(account, signer, grouping[|mainnet.groups|])]
    {
      if |mainnetCases| == 0 {
        mainnet, added, grouping := TierRun([], [], [], []), [], [];
        EmptyTier(Mainnet, true, account, signer, world.funder);
        return Success(false), mainnet, added, grouping;
      }
      ghost var failed;
      r, mainnet, failed, grouping := RunTier(Mainnet, mainnetCases, true);
      if r.Failure? {
        added := Concat(mainnet.logs) + failed;
        AppendStep(old(world.log), Concat(mainnet.logs), old(world.log) + Concat(mainnet.logs), world.log, failed);
        return;
      }
      added := Concat(mainnet.logs);
      TierCoversCases(mainnet, Mainnet, mainnetCases, true, account, signer, world.funder);
    }

    /** The mainnet phase once the testnet passed: nothing when there is no mainnet case,
        the mainnet tier (aborting after a failing group) otherwise. A failed registration
        ends the phase. */
    method RunMainnet(testnetCases: seq<TestCase>, mainnetCases: seq<TestCase>, ghost testnet: TierRun)
      returns (crash: Option<string>, ghost mainnet: TierRun, ghost tierLog: seq<Event>, ghost added: seq<Event>,
               ghost grouping: seq<TargetGroup>)
      requires IsTierRun(testnet, Testnet, testnetCases, false, account, signer, world.funder)
      requires |Concat(testnet.blocks)| == |testnetCases|
      requires testnetPassed && !HasFail(Concat(testnet.blocks))
      requires results == Concat(testnet.blocks)
      modifies this, world
      ensures world.time >= old(world.time)
      ensures world.log == old(world.log) + added
      ensures tierLog == Concat(testnet.logs) + added
      ensures crash.None? ==>
        PhasesRan(results, testnetPassed, testnet, mainnet, tierLog, testnetCases, mainnetCases,
                  account, signer, world.funder)
      ensures crash.Some? ==>
        && TierCrashed(mainnet, grouping, Mainnet, mainnetCases, true, account, signer, world.funder)
        && added == Concat(mainnet.logs) + [Registration(account, signer, grouping[|mainnet.groups|])]
        && CrashedLog(tierLog)
    {
      ghost var testnetResults := results;
      var r;
      r, mainnet, added, grouping := MainnetTier(mainnetCases);
      tierLog := Concat(testnet.logs) + added;
      if r.Failure? {
        MainnetCrashLog(testnet, mainnet, [Registration(account, signer, grouping[|mainnet.groups|])],
                        testnetCases, account, signer, world.funder);
        return Some(r.error), mainnet, tierLog, added, grouping;
      }
      PhasesPassed(results, testnetResults, testnet, mainnet, tierLog, testnetCases, mainnetCases,
                   account, signer, world.funder);
      crash := None;
    }

    /** The two test phases: the testnet tier; then the mainnet tier, run only when no
        testnet case failed (otherwise every mainnet case is skipped as "Testnet failed"), and
        aborting its later groups after a failing group. Returns the registration error that
        ends the run, if any; then the log holds the groups run so far, ending with the failed
        registration, and no sweep. */
    method RunPhases(testnetCases: seq<TestCase>, mainnetCases: seq<TestCase>)
      returns (crash: Option<string>, ghost testnet: TierRun, ghost mainnet: TierRun, ghost tierLog: seq<Event>,
               ghost grouping: seq<TargetGroup>)
      requires results == [] && testnetPassed
      modifies this, world
      ensures world.time >= old(world.time)
      ensures world.log == old(world.log) + tierLog
      ensures crash.None? ==>
        PhasesRan(results, testnetPassed, testnet, mainnet, tierLog, testnetCases, mainnetCases,
                  account, signer, world.funder)
      ensures crash.Some? ==>
        && PhasesCrashed(testnet, mainnet, grouping, tierLog, testnetCases, mainnetCases, account, signer, world.funder)
        && CrashedLog(tierLog)
    {
      mainnet := TierRun([], [], [], []);
      crash, testnet, tierLog, grouping := RunTestnet(testnetCases);
      if crash.Some? {
        return;
      }
      assert results == Concat(testnet.blocks);
      if !testnetPassed {
        mainnet, tierLog := SkipMainnet(testnetCases, mainnetCases, testnet);
      } else {
        ghost var before := world.log;
        ghost var added;
        crash, mainnet, tierLog, added, grouping := RunMainnet(testnetCases, mainnetCases, testnet);
        AppendStep(old(world.log), Concat(testnet.logs), before, world.log, added);
      }
    }

    /** The script's top level: the two test phases, the report, then the sweep of every
        target route of either tier, stopping at the first sweep that fails. A failed
        registration ends the script with no report and no sweep. */
    method RunSuite(testnetCases: seq<TestCase>, mainnetCases: seq<TestCase>)
      returns (o: SuiteOutcome, ghost testnet: TierRun, ghost mainnet: TierRun, ghost tierLog: seq<Event>,
               ghost routes: seq<TargetGroup>, ghost balances: seq<nat>, ghost tail: seq<Event>,
               ghost failedBalance: nat, ghost swept: seq<Event>, ghost crashGrouping: seq<TargetGroup>)
      requires results == [] && testnetPassed
      modifies this, world
      ensures world.time >= old(world.time)
      ensures o.CrashedInTier? ==>
        && world.log == old(world.log) + tierLog
        && PhasesCrashed(testnet, mainnet, crashGrouping, tierLog, testnetCases, mainnetCases, account, signer, world.funder)
        && CrashedLog(tierLog)
      ensures !o.CrashedInTier? ==>
        && PhasesRan(results, testnetPassed, testnet, mainnet, tierLog, testnetCases, mainnetCases,
                     account, signer, world.funder)
        && o.report == PrintReport(results)
        && IsGroupingOf(routes, testnetCases + mainnetCases)
      ensures !o.CrashedInTier? ==> world.log == old(world.log) + tierLog + swept
      ensures o.Completed? ==>
        && |balances| == |routes|
        && swept == SweepsLog(routes, balances, account, RECIPIENT)
      ensures o.CrashedInSweep? ==>
        && |balances| < |routes|
        && swept == SweepsLog(routes[..|balances|], balances, account, RECIPIENT) + tail
        && FailedSweep(tail, routes[|balances|], account, RECIPIENT, failedBalance)
    {
      routes, balances, tail, failedBalance, swept := [], [], [], 0, [];
      var crash;
      crash, testnet, mainnet, tierLog, crashGrouping := RunPhases(testnetCases, mainnetCases);
      if crash.Some? {
        return CrashedInTier(crash.value), testnet, mainnet, tierLog, routes, balances, tail, failedBalance, swept,
               crashGrouping;
      }
      var report := PrintReport(results);
      var allGroups := GroupByTarget(testnetCases + mainnetCases);
      routes := allGroups;
      var err;
      ghost var before := world.log;
      err, balances, tail, failedBalance, swept := RunSweeps(allGroups, RECIPIENT);
      o := if err.Some? then CrashedInSweep(report, err.value) else Completed(report);
    }
  }
}
