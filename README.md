# End-to-end bridge test harness, modelled in Dafny

This project models the end-to-end test runner of a cross-chain deposit service
(`scripts/test.ts`) together with the funding helpers it uses (`scripts/common.ts`).

The runner works through a list of test cases. Each case names a source chain and token to
fund and a target chain and token where the bridged funds should arrive. The runner:

- groups the cases by target route, in first-seen order;
- registers the test account for each route, with sessions on the route's chains;
- attempts each case: read the target balance, fund the source token, poll the target balance
  until it rises or 120 s pass;
- records pass, fail or skip for each case. A failure skips the rest of its group as "Previous
  test failed". The mainnet tier runs only when no testnet case failed (otherwise every mainnet
  case is skipped as "Testnet failed"). Inside the mainnet tier, a failing group skips every
  later group as "Previous group failed";
- prints a report with one table per network and the pass/fail/skip counts;
- sweeps what is left on every target route back to a fixed recipient.

Modules:

- `Domain` (domain.dfy): chains, test cases, results, target groups, sessions and transactions.
- `Env` (env.dfy): class `World`, the environment. It holds the clock, balance reads, funding
  and sweep transactions, account registration, the token-address lookup and the random draw.
  Every successful balance read, every submitted transaction (including one that then fails)
  and every registration request is appended to `World.log`; a failed read and a token lookup
  add nothing. Callers rely only on the contracts of `World`'s methods: time never runs
  backwards, and reads, lookups, transactions and registrations may fail.
- `Common` (common.dfy): `getTransport`, the default fund amounts, `prefund`, `prefundWeth`,
  `prefundUsdc`, `prefundUsdt`, `buildSession` and the session list of `getSessionDetails`.
- `Grouping` (grouping.dfy): `uniqueChains`, the session chains of a group, and `groupByTarget`.
- `Poller` (poller.dfy): `waitForBalanceIncrease`.
- `Report` (report.dfy): `formatDuration`, `printTable` and `printReport`, as data.
- `Orchestrator` (orchestrator.dfy): `getRandomFundAmount`, `fundToken`, the per-case
  `try`/`catch`, `sweepFunds`, and the script's top level. The top level is class `Suite`: the
  results list and `testnetPassed` are fields its methods update.

Two consequences of how the code is written, which the model keeps:

- `getSessionDetails` and `registerAccount` are called before the per-case `try`
  (scripts/test.ts:506-520). Their failure is not caught, so it ends the whole script before
  the report and the sweep (`SuiteOutcome.CrashedInTier`); the group's cases are neither
  attempted nor recorded.
- The script never sets an exit code. Failing cases are recorded and reported, and the process
  still ends normally; only an error escaping the top level ends it abnormally.

## Model

| member | source | states |
|---|---|---|
| Common.GetTransport | scripts/common.ts:60-68 | Sepolia (11155111) and Polygon (137) get their fixed public RPC URLs; every other chain gets the default transport, each case an if-and-only-if on the chain id |
| Common.AmountOr | scripts/common.ts:84-85 | the caller's amount is used exactly when it is truthy; an absent amount or an explicit zero falls back to the default |
| Common.DefaultEthAmount | scripts/common.ts:86-90 | 0.005 ETH on Sepolia, 0.001 ETH on other testnets, 0.00015 ETH on mainnets (in wei) |
| Common.DefaultWethAmount | scripts/common.ts:119-123 | 0.002 WETH on testnets, 0.00015 WETH on mainnets (in wei) |
| Common.DefaultStableAmount | scripts/common.ts:176-180 | 0.1 stablecoin on testnets, 0.05 on mainnets (6 decimals); prefundUsdt uses the same amounts at lines 206-210 |
| Common.FundAmountPositive | scripts/common.ts:84-90 | every helper funds a positive amount whatever the caller passes, and an explicit zero funds exactly as an absent amount |
| Common.PrefundTxs | scripts/common.ts:91-97 | one native transfer of exactly the fund amount, made if and only if the balance is below half of it |
| Common.PrefundReachesHalf | scripts/common.ts:91-97 | after prefund the recipient holds at least half the fund amount, and nothing is paid when it already did |
| Common.Prefund | scripts/common.ts:70-99 | the log grows only by funding events on the chain. Success means the balance read followed by the transactions PrefundTxs decides from it. Failure means either nothing was logged (the read failed) or the read and the transfer were logged (the submitted transfer failed) |
| Common.PrefundWethTxs | scripts/common.ts:132-161 | a wrap when the funding wallet holds less than the fund amount, then always one WETH transfer of the fund amount to the recipient |
| Common.WrapCoversTransfer | scripts/common.ts:132-161 | after the wrap the funding wallet holds the larger of its balance and the fund amount: enough for the transfer, and no more wrapped than needed |
| Common.PrefundWethLogShape | scripts/common.ts:113-161 | a successful prefundWeth logs both reads, the wrap of the shortfall when short, then the transfer |
| Common.PrefundWethLogPlanned | scripts/common.ts:113-161 | a successful prefundWeth submits, after its two reads, exactly the transactions PrefundWethTxs plans, in order |
| Common.PrefundWethSubmitted | scripts/common.ts:132-161 | once past both reads, with the wrap submitted exactly when short (or when the run stops before the transfer), the run ends settled whatever each submission returns |
| Common.PrefundWeth | scripts/common.ts:101-162 | the WETH address is looked up first. Success means both WETH reads, the wrap of exactly the shortfall when short, and the transfer of the fund amount. Failure means nothing (lookup or first read failed), the recipient's read alone, or both reads followed by a prefix of those transactions ending with the submission that failed |
| Common.SubmitWeth | scripts/common.ts:132-161 | after both reads: the wrap of exactly the shortfall is submitted when the funding wallet is short, the run stops if the wrap fails, and otherwise the WETH transfer of the fund amount is submitted; success implies the transfer was submitted |
| Common.PrefundStablecoin | scripts/common.ts:164-192 | the token address is looked up first; a failed lookup logs nothing. Otherwise exactly one transfer of the stablecoin by the funding wallet, of the caller's truthy amount or the default, whatever its outcome |
| Common.PrefundUsdc | scripts/common.ts:164-192 | a failed USDC lookup logs nothing; otherwise exactly one USDC transfer of the caller's truthy amount or the default, and nothing else |
| Common.PrefundUsdt | scripts/common.ts:194-222 | a failed USDT lookup logs nothing; otherwise exactly one USDT transfer of the caller's truthy amount or the default, and nothing else |
| Common.BuildSession | scripts/common.ts:228-236 | a session on the given chain whose only owner is the session signer |
| Common.Sessions | scripts/common.ts:246-259 | one session per chain, in the chains' order, each owned by the signer alone |
| Grouping.FindIndexBy | scripts/test.ts:234-238 | the first position holding the key, or -1 exactly when no element has it |
| Grouping.UniqueChainsDistinct | scripts/test.ts:234-238 | the kept chains have pairwise distinct ids |
| Grouping.UniqueChainsCovers | scripts/test.ts:234-238 | every id of the input is kept |
| Grouping.UniqueChainsKeepsFirst | scripts/test.ts:234-238 | each kept chain is the first with its id, and kept chains come in first-appearance order |
| Grouping.SessionChainsShape | scripts/test.ts:509-510 | a group's session chains are its distinct source chains, then its target chain when no source chain has that id |
| Grouping.GroupByTarget | scripts/test.ts:240-259 | one group per distinct target route, in first-seen order, named after the route's first case; each group holds all the cases of its route in input order; together the groups hold every case exactly once |
| Grouping.FindGroupIsFindLeader | scripts/test.ts:243-247 | finding a case's group among the groups is finding its route among the first cases of each route |
| Grouping.GroupKeysDistinct | scripts/test.ts:240-259 | no two groups share a target route |
| Grouping.GroupOfEachCase | scripts/test.ts:240-259 | every case lies in the group of its own route |
| Grouping.GroupCasesBelong | scripts/test.ts:240-259 | every grouped case is an input case of the group's route |
| Grouping.GroupsInFirstSeenOrder | scripts/test.ts:240-259 | groups appear in the order their routes are first seen |
| Grouping.CasesWithKeyMembers | scripts/test.ts:240-259 | the cases filed under a route are exactly the input cases of that route |
| Poller.SpacedSnoc | scripts/test.ts:303-306 | a notice printed at least 10 s after the previous one keeps the notices spaced |
| Poller.WaitForBalanceIncrease | scripts/test.ts:285-311 | only reads of the target route are done. True means the last read is the first above the baseline. False means no read exceeded it and 120 s have passed. A failed read propagates with no increase seen. Progress notices are at least 10 s apart |
| Report.Filter | scripts/test.ts:425-426 | the kept elements are those of the input satisfying the test, and every satisfying element is kept |
| Report.FilterAppend | scripts/test.ts:425-426 | filtering a concatenation filters each part, in order |
| Report.FilterSnoc | scripts/test.ts:425-426 | one more element grows the filter by that element exactly when it passes the test, so the input order is kept |
| Report.FilterCounts | scripts/test.ts:425-426 | each passing element occurs in the filter exactly as often as in the input, and no failing element occurs |
| Report.Slice | scripts/test.ts:416 | at most the first n characters, a prefix of the string |
| Report.FormatDuration | scripts/test.ts:218-221 | milliseconds exactly below one second, seconds otherwise, of the same duration |
| Report.MaxWidth | scripts/test.ts:395-400 | the maximum is at least the floor and every width, and is the floor or one of the widths |
| Report.ErrorWidthBounds | scripts/test.ts:397-400 | the error column is 5 to 30 characters wide, and wide enough for every error up to 30 characters |
| Report.PrintTable | scripts/test.ts:391-422 | no table for no results; otherwise one row per result in order, with its route and status. A result with a duration shows that duration formatted, one without shows "-". The error is shown whole up to 30 characters and cut to its first 30 beyond |
| Report.PrintReport | scripts/test.ts:424-442 | the testnet table is the table of the testnet results in their order, and likewise for mainnet. Each table is absent exactly when that network has no result. The counts are the numbers of passed, failed and skipped results |
| Report.CountsSum | scripts/test.ts:431-433 | every result is counted exactly once in the summary |
| Report.NetworksPartition | scripts/test.ts:425-426 | every result appears in exactly one of the two tables |
| Orchestrator.RandomFundAmount | scripts/test.ts:313-331 | ETH, USDC and WETH yield the drawn amount; any other token yields "Unknown token: <token>" |
| Orchestrator.FundToken | scripts/test.ts:333-349 | ETH, USDC and WETH dispatch to their helper with the amount given, and the log and outcome are exactly that helper's (prefund, prefundUsdc, prefundWeth). Another token is the "Unknown token" error with nothing done. Only funding events on the source chain |
| Orchestrator.FundingPaysAccount | scripts/test.ts:333-349 | a successful funding used a known token. For USDC and WETH it ends with the transfer of the fund amount to the account; for ETH the account holds at least half the fund amount afterwards |
| Orchestrator.Classify | scripts/test.ts:557-606 | pass with no error exactly when the increase was seen; otherwise fail with "Timeout" or the thrown message; always with the duration |
| Orchestrator.SkipResult | scripts/test.ts:523-537 | a skip of the case's route with the reason and no duration |
| Orchestrator.GroupRunSkip | scripts/test.ts:523-537 | after a failure in the group, a skipped case extends the group run and the group stays failed |
| Orchestrator.GroupRunAttempt | scripts/test.ts:543-608 | with no failure so far, an attempted case extends the group run, and the group fails exactly when that case did |
| Orchestrator.FundAndPoll | scripts/test.ts:551-556 | funding exactly as fundToken does with the drawn amount; a funding error is thrown with nothing polled. Then only reads of the target route; the poller's verdict is taken as is: an increase ends on the first read above the baseline, a timeout comes after at least 120 s with no read above it, and an error is thrown only when no read exceeded it |
| Orchestrator.AttemptCase | scripts/test.ts:544-556 | the baseline read comes first; nothing is funded or polled once a step throws; an unknown source token throws before any transaction. Polling, a timeout or an increase happen only after the case was funded by fundToken with the drawn amount. An ending other than an increase means no polled read exceeded the baseline |
| Orchestrator.PassIffIncreaseObserved | scripts/test.ts:553-567 | an attempted case is recorded as passed exactly when its polling saw the target balance rise above the baseline |
| Orchestrator.AttemptNoSweeps | scripts/test.ts:544-556 | attempting a case submits no sweep |
| Orchestrator.SkipAll | scripts/test.ts:614-626 | one skip per case, in order, all with the same reason |
| Orchestrator.TierStep | scripts/test.ts:627-755 | a group that was aborted, or registered and run, extends the run of a tier |
| Orchestrator.SomeGroupFailedSnoc | scripts/test.ts:751-753 | after one more group, some group has failed exactly when one had before or the new group has a failing case |
| Orchestrator.SkipAllPasses | scripts/test.ts:634-647 | a skipped group fails nothing |
| Orchestrator.ConcatDescribes | scripts/test.ts:503-610 | results pushed group by group describe, in order, the cases group after group |
| Orchestrator.TierCoversCases | scripts/test.ts:503-610 | a tier pushes exactly one result per case, describing the cases group after group, and the groups hold every case exactly once |
| Orchestrator.FlattenNoSweeps | scripts/test.ts:523-608 | the cases of a group submit no sweep |
| Orchestrator.ConcatNoSweeps | scripts/test.ts:503-610 | groups that each submit no sweep submit none together |
| Orchestrator.TierNoSweeps | scripts/test.ts:503-610 | a tier submits no sweep: sweeping happens only after both tiers |
| Orchestrator.CrashedAfter | scripts/test.ts:506-520 | sweep-free events followed by one failed registration form the log of a run that crashed in a tier |
| Orchestrator.TestnetCrashLog | scripts/test.ts:506-520 | a registration failing in the testnet tier leaves the groups run so far, then that registration, and no sweep |
| Orchestrator.MainnetCrashLog | scripts/test.ts:627-755 | a registration failing in the mainnet tier leaves the testnet tier, the mainnet groups run so far, then that registration, and no sweep |
| Orchestrator.SomeGroupFailedIffSomeFail | scripts/test.ts:586-607 | some group failed exactly when some pushed result is a failure, so `testnetPassed` means no testnet failure |
| Orchestrator.SweepLog | scripts/test.ts:444-477 | a sweep reads the balance, then sends one sweep intent exactly when the balance is not zero |
| Orchestrator.SweepsOnlyToRecipient | scripts/test.ts:763-766 | every sweep moves funds only from the test account, only to the recipient, and only on a target route of the run |
| Orchestrator.PhasesSkipped | scripts/test.ts:614-626 | a failed testnet tier followed by a "Testnet failed" skip per mainnet case completes the two phases |
| Orchestrator.PhasesPassed | scripts/test.ts:627-755 | a passed testnet tier followed by a full mainnet tier completes the two phases |
| Orchestrator.EmptyTier | scripts/test.ts:627 | a tier with no cases runs no group, pushes nothing and does nothing |
| Orchestrator.EmptyTestnetPasses | scripts/test.ts:83-142 | with no testnet case (the shipped plan is empty) the testnet passes and the results are the mainnet tier's |
| Orchestrator.Suite.constructor | scripts/test.ts:503-504 | no results yet, and the testnet counts as passed |
| Orchestrator.Suite.RunCase | scripts/test.ts:542-608 | one result is pushed: the attempt classified with the time since it began |
| Orchestrator.Suite.RunNext | scripts/test.ts:525-608 | a "Previous test failed" skip after a failure in the group, an attempt otherwise; the group run is extended |
| Orchestrator.Suite.RunCases | scripts/test.ts:523-608 | one result per case, in order; once a case fails every later case of the group is skipped, and only then; returns whether a case failed |
| Orchestrator.Suite.RunGroup | scripts/test.ts:506-608 | the account is registered for the group's route with one session per session chain before any case runs; a failed registration pushes nothing |
| Orchestrator.Suite.SkipCases | scripts/test.ts:614-626 | appends one skip per case with the given reason, and nothing else |
| Orchestrator.Suite.RunTierNext | scripts/test.ts:633-753 | an aborted group gets a "Previous group failed" skip per case and nothing is done; any other group is registered and run |
| Orchestrator.Suite.RunTier | scripts/test.ts:503-610 | the cases are grouped by route and the groups run in order. Only when aborting after a failing group (mainnet, lines 627-755) are later groups skipped. Returns whether any group had a failure. A failed registration stops the tier: the groups before it ran in full, their results are kept, and the log ends with the registration of the next group of the grouping, which was not an aborted one |
| Orchestrator.Suite.SweepFunds | scripts/test.ts:444-477 | the token address is looked up, the balance read, then one sweep intent for the route to the recipient submitted unless the balance is zero. A failure leaves the steps done up to it: nothing, or the read and the submitted intent |
| Orchestrator.Suite.RunSweeps | scripts/test.ts:763-766 | sweeps every route in order. On an error the log is the sweeps completed before it followed by the failing sweep's own steps (nothing, or its read and intent), and the later routes are not attempted |
| Orchestrator.Suite.RunTestnet | scripts/test.ts:499-610 | the testnet tier runs in full, never aborting a group, and the testnet passes exactly when none of its results is a failure. A failed registration ends the phase: the log is the testnet groups run so far, then the registration of the next testnet group, and no sweep |
| Orchestrator.Suite.SkipMainnet | scripts/test.ts:614-626 | after a testnet failure every mainnet case is skipped as "Testnet failed" and nothing else is done |
| Orchestrator.Suite.MainnetTier | scripts/test.ts:627-755 | nothing when there is no mainnet case; otherwise the mainnet tier, one result per case, or, on a failed registration, the mainnet groups run so far followed by the registration of the next one |
| Orchestrator.Suite.RunMainnet | scripts/test.ts:627-755 | after a testnet pass the mainnet tier runs in full, aborting the groups after a failing group; with no mainnet case nothing is done. A failed registration ends the phase: the log is the testnet tier, the mainnet groups run so far, then the registration of the next mainnet group, and no sweep |
| Orchestrator.Suite.RunPhases | scripts/test.ts:499-755 | the testnet tier, then the mainnet tier or the mainnet skips, one result per case of either tier in that order. On a failed registration, either the testnet tier crashed, or it passed in full and the mainnet tier crashed; the log holds the groups run so far in the grouping order, then the registration of the crashed tier's next group, and no sweep |
| Orchestrator.Suite.RunSuite | scripts/test.ts:499-766 | a failed registration ends the run with no report and no sweep, the log being that of the crashed phases (the groups run so far, then the failed registration of the next group). Otherwise both phases complete, the report is printed from all results, and the sweep covers every target route of both tiers in first-seen order. On completion the log is the tiers' events followed by one sweep per route; on a sweep error, by the completed sweeps and the failing sweep's own steps |

## Left out

- Orchestrator.RandomFundAmount: the amount is drawn by `World.Draw`. The random scaling in
  floating point (`Math.random()` times a base, rounded) is not modelled; only the "Unknown
  token" branch is kept.
- Env.World.Draw: has no contract. The draw is an arbitrary natural number, a superset of what
  the source can produce.
- Report.FormatDuration: the cell records the choice between milliseconds and seconds. The text,
  with its one-decimal seconds, is floating-point formatting and is not modelled.
- Report.PrintTable and Report.PrintReport: colours, borders, padding, the status icons and
  console output are rendering and are not modelled.
- Report.PrintTable: lengths are counted in characters (Unicode scalar values), not in the
  UTF-16 code units JavaScript's `length` and `slice` count. For a route or error containing a
  character outside the Basic Multilingual Plane, the column widths and the 30-character error
  cut differ from the source's.
- Orchestrator.Suite.RunSuite: the process exit status is not modelled; the script sets none.
  A sweep error ends the run after the report (`CrashedInSweep`).
- Orchestrator.Suite.RunGroup: `getSessionDetails` and `registerAccount` are one environment
  call (`World.Register`). Session digests, signatures and the HTTP request body are not
  modelled; the log records the sessions requested.
- Env.World.TokenAddress: the SDK's token table is not modelled. The lookup may fail for any
  token and chain, a superset of the source's failures; callers handle both outcomes.
- Orchestrator.Suite.SweepFunds: the intent id returned by the SDK, and how the SDK turns the
  request into an intent, are not modelled. The logged intent names the route's chain and
  token, the account and the recipient, as the request does; like the request, it names no
  amount.
- Common.PrefundWeth: the recipient's WETH balance is read and then unused, as in the source.
- Common.PrefundUsdt: modelled, although the test runner never calls it.
- Environment-variable checks, private-key handling, account creation (`getAccount`) and the
  `jsonStringify` helper are set-up outside the runner's logic.
- Amounts are `bigint`s in the source and `nat` here. The only division, `fundAmount / 2n`,
  truncates, which equals Dafny's `/` on non-negative values.
- Console progress messages are left out. Of the poller's "Waiting for bridge..." notices only
  the elapsed times are kept, and their spacing is proved.
- The case tables are parameters of `RunSuite`. In the shipped file every testnet case is
  commented out, so the testnet plan is empty (see `EmptyTestnetPasses`). The mainnet plan
  lists nine cases.
- The other scripts (`register.ts`, `recover.ts`, `process.ts`, `add-chain.ts`, `setup.ts`,
  `deposit.ts`, `check.ts`, `webhooks.ts`) are not part of this model.
