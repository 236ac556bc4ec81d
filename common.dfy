/** The funding helpers and session helpers of scripts/common.ts: which RPC transport a chain
    uses, how much is funded when the caller gives no (or a zero) amount, which transactions the
    funding wallet submits, and which sessions are requested for a set of chains. */
module Common {
  import opened Wrappers
  import opened Domain
  import opened Env

  const SEPOLIA_ID: int := 11155111
  const POLYGON_ID: int := 137
  const SEPOLIA_RPC: string := "https://ethereum-sepolia-rpc.publicnode.com"
  const POLYGON_RPC: string := "https://1rpc.io/matic"

  /** Default amounts, in the asset's smallest unit (wei for ETH and WETH, 6 decimals for
      stablecoins). */
  const SEPOLIA_ETH: nat := 5_000_000_000_000_000
  const TESTNET_ETH: nat := 1_000_000_000_000_000
  const MAINNET_ETH: nat := 150_000_000_000_000
  const TESTNET_WETH: nat := 2_000_000_000_000_000
  const MAINNET_WETH: nat := 150_000_000_000_000
  const TESTNET_STABLE: nat := 100_000
  const MAINNET_STABLE: nat := 50_000

  /** An RPC transport: `http(url)`, or `http()` (the chain's default RPC) when `url` is None. */
  datatype Transport = Http(url: Option<string>)

  /** `getTransport`: fixed public endpoints for Sepolia and Polygon, the chain's default
      endpoint for every other chain. */
  function GetTransport(chain: Chain): (t: Transport)
    ensures t.url == Some(SEPOLIA_RPC) <==> chain.id == SEPOLIA_ID
    ensures t.url == Some(POLYGON_RPC) <==> chain.id == POLYGON_ID
    ensures t.url == None <==> chain.id != SEPOLIA_ID && chain.id != POLYGON_ID
  {
    if chain.id == SEPOLIA_ID then Http(Some(SEPOLIA_RPC))
    else if chain.id == POLYGON_ID then Http(Some(POLYGON_RPC))
    else Http(None)
  }

  /** `amount ? amount : default`: an absent amount and an explicit zero are both falsy. */
  predicate Truthy(amount: Option<nat>) {
    amount.Some? && amount.value != 0
  }

  /** The caller's amount when it is truthy, `default` otherwise. */
  function AmountOr(amount: Option<nat>, default: nat): (a: nat)
    ensures Truthy(amount) ==> a == amount.value
    ensures !Truthy(amount) ==> a == default
  {
    if Truthy(amount) then amount.value else default
  }

  /** The native amount `prefund` sends when the caller gives none: 0.005 ETH on Sepolia,
      0.001 ETH on other testnets, 0.00015 ETH on mainnets. */
  function DefaultEthAmount(chain: Chain): (a: nat)
    ensures chain.testnet && chain.id == SEPOLIA_ID ==> a == SEPOLIA_ETH
    ensures chain.testnet && chain.id != SEPOLIA_ID ==> a == TESTNET_ETH
    ensures !chain.testnet ==> a == MAINNET_ETH
  {
    if chain.testnet then (if chain.id == SEPOLIA_ID then SEPOLIA_ETH else TESTNET_ETH)
    else MAINNET_ETH
  }

  /** The WETH amount `prefundWeth` transfers when the caller gives none. */
  function DefaultWethAmount(chain: Chain): (a: nat)
    ensures chain.testnet ==> a == TESTNET_WETH
    ensures !chain.testnet ==> a == MAINNET_WETH
  {
    if chain.testnet then TESTNET_WETH else MAINNET_WETH
  }

  /** The stablecoin amount `prefundUsdc` and `prefundUsdt` transfer when the caller gives
      none. */
  function DefaultStableAmount(chain: Chain): (a: nat)
    ensures chain.testnet ==> a == TESTNET_STABLE
    ensures !chain.testnet ==> a == MAINNET_STABLE
  {
    if chain.testnet then TESTNET_STABLE else MAINNET_STABLE
  }

  /** Whatever the caller passes, a funding helper never funds zero: a falsy amount falls back
      to a default, and every default is positive; an explicit zero funds exactly as an
      absent amount does. */
  lemma FundAmountPositive(chain: Chain, amount: Option<nat>)
    ensures AmountOr(amount, DefaultEthAmount(chain)) > 0
    ensures AmountOr(amount, DefaultWethAmount(chain)) > 0
    ensures AmountOr(amount, DefaultStableAmount(chain)) > 0
    ensures AmountOr(Some(0), DefaultEthAmount(chain)) == AmountOr(None, DefaultEthAmount(chain))
  {
  }

  /** The transactions `prefund` submits, given the recipient's native balance: one transfer
      of exactly `fundAmount` when the balance is below half of it, nothing otherwise. (The
      source halves a bigint, which truncates; on the non-negative amounts here that is the
      same as `/`.) */
  function PrefundTxs(address: Address, balance: nat, fundAmount: nat): (txs: seq<Tx>)
    ensures txs == [] || txs == [NativeTransfer(address, fundAmount)]
    ensures txs != [] <==> balance < fundAmount / 2
  {
    if balance < fundAmount / 2 then [NativeTransfer(address, fundAmount)] else []
  }

  /** What the native transfers in `txs` pay to `address`. */
  function PaidTo(txs: seq<Tx>, address: Address): (total: int)
    decreases |txs|
  {
    if txs == [] then 0
    else
      var last := txs[|txs| - 1];
      PaidTo(txs[..|txs| - 1], address)
        + (if last.NativeTransfer? && last.to == address then last.value else 0)
  }

  /** After `prefund`, the recipient holds at least half the fund amount; a transfer is made
      only when the balance was short of that. */
  lemma PrefundReachesHalf(address: Address, balance: nat, fundAmount: nat)
    ensures balance + PaidTo(PrefundTxs(address, balance, fundAmount), address) >= fundAmount / 2
    ensures balance >= fundAmount / 2 ==> PaidTo(PrefundTxs(address, balance, fundAmount), address) == 0
  {
    var txs := PrefundTxs(address, balance, fundAmount);
    if txs != [] {
      assert txs[..0] == [];
    }
  }

  /** The transactions `prefundWeth` submits, given the funding wallet's WETH balance: a wrap
      of exactly the shortfall when that balance is below `fundAmount`, then always one WETH
      transfer of `fundAmount` to `address`. */
  function PrefundWethTxs(address: Address, funderWeth: nat, fundAmount: nat): (txs: seq<Tx>)
    ensures |txs| == if funderWeth < fundAmount then 2 else 1
    ensures txs[|txs| - 1] == TokenTransfer("WETH", address, fundAmount)
    ensures funderWeth < fundAmount ==> txs[0] == Wrap(fundAmount - funderWeth)
  {
    (if funderWeth < fundAmount then [Wrap(fundAmount - funderWeth)] else [])
      + [TokenTransfer("WETH", address, fundAmount)]
  }

  /** What the wraps in `txs` add to the funding wallet's WETH. */
  function Wrapped(txs: seq<Tx>): (total: int)
    decreases |txs|
  {
    if txs == [] then 0
    else
      var last := txs[|txs| - 1];
      Wrapped(txs[..|txs| - 1]) + (if last.Wrap? then last.value else 0)
  }

  /** The wrap is exactly what the transfer needs: after it the funding wallet holds
      `max(funderWeth, fundAmount)` WETH, enough for the transfer and no more than needed. */
  lemma WrapCoversTransfer(address: Address, funderWeth: nat, fundAmount: nat)
    ensures var after := funderWeth + Wrapped(PrefundWethTxs(address, funderWeth, fundAmount));
      after >= fundAmount && (after == funderWeth || after == fundAmount)
  {
    var txs := PrefundWethTxs(address, funderWeth, fundAmount);
    var n := |txs| - 1;
    assert Wrapped(txs) == Wrapped(txs[..n]);
    if funderWeth < fundAmount {
      assert txs[..n][..0] == [];
      assert Wrapped(txs[..n]) == fundAmount - funderWeth;
    } else {
      assert txs[..n] == [];
    }
  }

  /** The transaction `prefundUsdc` / `prefundUsdt` submits: always one transfer of
      `fundAmount` of `token`, whatever the balances. */
  function StablecoinTxs(token: string, address: Address, fundAmount: nat): (txs: seq<Tx>)
    ensures |txs| == 1 && txs[0].TokenTransfer?
    ensures txs[0].token == token && txs[0].to == address && txs[0].value == fundAmount
  {
    [TokenTransfer(token, address, fundAmount)]
  }

  /** The log entries of `sender` submitting `txs` on chain `chainId`, in order. */
  function SentBy(chainId: int, sender: Address, txs: seq<Tx>): (events: seq<Event>)
    ensures |events| == |txs|
    ensures forall i :: 0 <= i < |txs| ==> events[i] == Sent(chainId, sender, txs[i])
  {
    if txs == [] then [] else [Sent(chainId, sender, txs[0])] + SentBy(chainId, sender, txs[1..])
  }

  /** Every event is a balance read or a funding transaction (a transfer or a wrap, never a
      sweep) submitted by `funder` on chain `chainId`. */
  predicate OnlyFundingEvents(events: seq<Event>, chainId: int, funder: Address) {
    forall i :: 0 <= i < |events| ==>
      || events[i].BalanceRead?
      || (events[i].Sent? && events[i].chainId == chainId && events[i].sender == funder && !events[i].tx.SweepIntent?)
  }

  /** The log of a `prefund` that succeeded, given the balance it read. */
  function PrefundLog(chain: Chain, funder: Address, address: Address, balance: nat, fundAmount: nat): seq<Event> {
    [BalanceRead(chain.id, "ETH", address, balance)] + SentBy(chain.id, funder, PrefundTxs(address, balance, fundAmount))
  }

  /** The log of a `prefundWeth` that succeeded, given the two WETH balances it read: the
      wrap was submitted exactly when the funding wallet was short, and the transfer was. */
  function PrefundWethLog(chain: Chain, funder: Address, address: Address, weth: nat, funderWeth: nat, fundAmount: nat): seq<Event> {
    WethEvents(chain, funder, address, weth, funderWeth, fundAmount, funderWeth < fundAmount, true)
  }

  /** A successful `prefundWeth` submits exactly the transactions `PrefundWethTxs` plans, in
      order, after its two reads. */
  lemma PrefundWethLogPlanned(chain: Chain, funder: Address, address: Address, weth: nat, funderWeth: nat, fundAmount: nat)
    ensures PrefundWethLog(chain, funder, address, weth, funderWeth, fundAmount)
      == [BalanceRead(chain.id, "WETH", address, weth), BalanceRead(chain.id, "WETH", funder, funderWeth)]
         + SentBy(chain.id, funder, PrefundWethTxs(address, funderWeth, fundAmount))
  {
    var txs := PrefundWethTxs(address, funderWeth, fundAmount);
    assert SentBy(chain.id, funder, txs) == WethSent(chain, funder, address, funderWeth, fundAmount, funderWeth < fundAmount, true);
  }

  /** `prefund` completed: its log is the read followed by the transactions decided from the
      balance read. */
  predicate PrefundDone(events: seq<Event>, chain: Chain, funder: Address, address: Address, fundAmount: nat) {
    && |events| > 0
    && events[0].BalanceRead?
    && events == PrefundLog(chain, funder, address, events[0].value, fundAmount)
  }

  /** `prefundWeth` got as far as both reads, and its log is a prefix of the reads followed by
      the transactions decided from the funding wallet's balance. */
  predicate PrefundWethUpTo(events: seq<Event>, chain: Chain, funder: Address, address: Address, fundAmount: nat) {
    && |events| >= 2
    && events[0].BalanceRead?
    && events[1].BalanceRead?
    && events <= PrefundWethLog(chain, funder, address, events[0].value, events[1].value, fundAmount)
  }

  /** `prefundWeth` completed: its log is both reads followed by the transactions decided from
      the funding wallet's balance. */
  predicate PrefundWethDone(events: seq<Event>, chain: Chain, funder: Address, address: Address, fundAmount: nat) {
    && PrefundWethUpTo(events, chain, funder, address, fundAmount)
    && events == PrefundWethLog(chain, funder, address, events[0].value, events[1].value, fundAmount)
  }

  /** The log of a `prefundWeth` that succeeded, spelled out: both reads, the wrap when the
      funding wallet is short, then the transfer. */
  lemma PrefundWethLogShape(chain: Chain, funder: Address, address: Address, weth: nat, funderWeth: nat, fundAmount: nat)
    ensures PrefundWethLog(chain, funder, address, weth, funderWeth, fundAmount)
      == [BalanceRead(chain.id, "WETH", address, weth), BalanceRead(chain.id, "WETH", funder, funderWeth)]
         + (if funderWeth < fundAmount then [Sent(chain.id, funder, Wrap(fundAmount - funderWeth))] else [])
         + [Sent(chain.id, funder, TokenTransfer("WETH", address, fundAmount))]
  {
  }

  /** What `prefundWeth` submits after both reads: the wrap if it was submitted, the
      transfer if it was submitted. */
  function WethSent(chain: Chain, funder: Address, address: Address, funderWeth: nat, fundAmount: nat,
                    wrapped: bool, transferred: bool): seq<Event> {
    (if wrapped then [Sent(chain.id, funder, Wrap(fundAmount - funderWeth))] else [])
      + (if transferred then [Sent(chain.id, funder, TokenTransfer("WETH", address, fundAmount))] else [])
  }

  /** What `prefundWeth` logs once past both reads: the reads, then what it submitted. */
  function WethEvents(chain: Chain, funder: Address, address: Address, weth: nat, funderWeth: nat, fundAmount: nat,
                      wrapped: bool, transferred: bool): seq<Event> {
    [BalanceRead(chain.id, "WETH", address, weth), BalanceRead(chain.id, "WETH", funder, funderWeth)]
      + WethSent(chain, funder, address, funderWeth, fundAmount, wrapped, transferred)
  }

  /** A `prefundWeth` that got past both reads and submitted the wrap (exactly when the
      funding wallet is short) ends settled however its submissions turn out. */
  lemma PrefundWethSubmitted(o: Outcome, chain: Chain, funder: Address, address: Address, weth: nat, funderWeth: nat,
                             fundAmount: nat, wrapped: bool, transferred: bool)
    requires wrapped <==> funderWeth < fundAmount || !transferred
    requires wrapped ==> funderWeth < fundAmount
    requires o.Ok? ==> transferred
    ensures PrefundWethSettled(o, WethEvents(chain, funder, address, weth, funderWeth, fundAmount, wrapped, transferred),
                               chain, funder, address, fundAmount)
  {
    PrefundWethLogShape(chain, funder, address, weth, funderWeth, fundAmount);
    assert WethEvents(chain, funder, address, weth, funderWeth, fundAmount, wrapped, transferred)
      == [BalanceRead(chain.id, "WETH", address, weth), BalanceRead(chain.id, "WETH", funder, funderWeth)]
         + (if wrapped then [Sent(chain.id, funder, Wrap(fundAmount - funderWeth))] else [])
         + (if transferred then [Sent(chain.id, funder, TokenTransfer("WETH", address, fundAmount))] else []);
  }

  /** How a `prefund` that logged `events` may have ended: only funding events; on success
      the read and the transactions decided from it; on failure nothing (the read failed), or
      the read and the transfer whose submission failed. */
  predicate PrefundSettled(o: Outcome, events: seq<Event>, chain: Chain, funder: Address, address: Address,
                           fundAmount: nat) {
    && OnlyFundingEvents(events, chain.id, funder)
    && (o.Ok? ==> PrefundDone(events, chain, funder, address, fundAmount))
    && (o.Err? ==> events == [] || (PrefundDone(events, chain, funder, address, fundAmount) && |events| == 2))
  }

  /** `prefund`: read the recipient's native balance, then top it up with one transfer of the
      fund amount when it is below half of that amount. On failure the log holds the steps
      done up to the one that failed. */
  method Prefund(world: World, chain: Chain, address: Address, amount: Option<nat>)
    returns (o: Outcome, ghost events: seq<Event>)
    modifies world
    ensures world.time >= old(world.time)
    ensures world.log == old(world.log) + events
    ensures PrefundSettled(o, events, chain, world.funder, address, AmountOr(amount, DefaultEthAmount(chain)))
  {
    var balance := world.ReadBalance(chain, "ETH", address);
    if balance.Failure? {
      return Err(balance.error), [];
    }
    var fundAmount := AmountOr(amount, DefaultEthAmount(chain));
    events := PrefundLog(chain, world.funder, address, balance.value, fundAmount);
    o := Ok;
    if balance.value < fundAmount / 2 {
      o := world.Send(chain, world.funder, NativeTransfer(address, fundAmount));
    }
  }

  /** How a `prefundWeth` that logged `events` may have ended: only reads and submissions by
      the funding wallet; on success both reads and every decided transaction; on failure
      nothing, the recipient's read alone, or both reads and a prefix of the transactions
      ending with the submission that failed. */
  predicate PrefundWethSettled(o: Outcome, events: seq<Event>, chain: Chain, funder: Address, address: Address,
                               fundAmount: nat) {
    && OnlyFundingEvents(events, chain.id, funder)
    && (o.Ok? ==> PrefundWethDone(events, chain, funder, address, fundAmount))
    && (o.Err? ==>
          || events == []
          || (|events| == 1 && IsReadOf(events[0], chain.id, "WETH", address))
          || (PrefundWethUpTo(events, chain, funder, address, fundAmount) && |events| > 2))
  }

  /** `prefundWeth`: read the recipient's WETH balance (the value is not used), read the
      funding wallet's WETH balance, wrap exactly the shortfall when it is below the fund
      amount, then always transfer the fund amount of WETH. On failure the log holds the steps
      done up to the one that failed. */
  method PrefundWeth(world: World, chain: Chain, address: Address, amount: Option<nat>)
    returns (o: Outcome, ghost events: seq<Event>)
    modifies world
    ensures world.time >= old(world.time)
    ensures world.log == old(world.log) + events
    ensures PrefundWethSettled(o, events, chain, world.funder, address, AmountOr(amount, DefaultWethAmount(chain)))
  {
    var wethAddress := world.TokenAddress("WETH", chain);
    if wethAddress.Failure? {
      return Err(wethAddress.error), [];
    }
    var weth := world.ReadBalance(chain, "WETH", address);
    if weth.Failure? {
      return Err(weth.error), [];
    }
    var fundAmount := AmountOr(amount, DefaultWethAmount(chain));
    var funderWeth := world.ReadBalance(chain, "WETH", world.funder);
    if funderWeth.Failure? {
      return Err(funderWeth.error), [BalanceRead(chain.id, "WETH", address, weth.value)];
    }
    ghost var wrapped, transferred;
    o, wrapped, transferred := SubmitWeth(world, chain, address, funderWeth.value, fundAmount);
    events := WethEvents(chain, world.funder, address, weth.value, funderWeth.value, fundAmount, wrapped, transferred);
    PrefundWethSubmitted(o, chain, world.funder, address, weth.value, funderWeth.value, fundAmount, wrapped, transferred);
  }

  /** The submissions of `prefundWeth` once both reads are done: wrap exactly the shortfall
      when the funding wallet holds less than the fund amount, stopping if the wrap fails;
      then transfer the fund amount of WETH. */
  method SubmitWeth(world: World, chain: Chain, address: Address, funderWeth: nat, fundAmount: nat)
    returns (o: Outcome, ghost wrapped: bool, ghost transferred: bool)
    modifies world
    ensures world.time >= old(world.time)
    ensures world.log == old(world.log) + WethSent(chain, world.funder, address, funderWeth, fundAmount, wrapped, transferred)
    ensures wrapped <==> funderWeth < fundAmount || !transferred
    ensures wrapped ==> funderWeth < fundAmount
    ensures o.Ok? ==> transferred
  {
    var short := funderWeth < fundAmount;
    wrapped := short;
    if short {
      o := world.Send(chain, world.funder, Wrap(fundAmount - funderWeth));
      if o.Err? {
        return o, true, false;
      }
    }
    o := world.Send(chain, world.funder, TokenTransfer("WETH", address, fundAmount));
    transferred := true;
  }

  /** How a `prefundUsdc` or `prefundUsdt` that logged `events` may have ended: on success
      the one transfer of `fundAmount` of `token` to `address`; on failure nothing (the token
      has no address on the chain) or that transfer, whose submission failed. */
  predicate StablecoinSettled(o: Outcome, events: seq<Event>, chain: Chain, funder: Address, token: string,
                              address: Address, fundAmount: nat) {
    && (o.Ok? ==> events == SentBy(chain.id, funder, StablecoinTxs(token, address, fundAmount)))
    && (o.Err? ==> events == [] || events == SentBy(chain.id, funder, StablecoinTxs(token, address, fundAmount)))
  }

  /** `prefundUsdc` and `prefundUsdt`: look the token up, then always transfer the fund amount
      of `token`, with no balance check. */
  method PrefundStablecoin(world: World, chain: Chain, token: string, address: Address, amount: Option<nat>)
    returns (o: Outcome, ghost events: seq<Event>)
    modifies world
    ensures world.time >= old(world.time)
    ensures world.log == old(world.log) + events
    ensures StablecoinSettled(o, events, chain, world.funder, token, address, AmountOr(amount, DefaultStableAmount(chain)))
  {
    var tokenAddress := world.TokenAddress(token, chain);
    if tokenAddress.Failure? {
      return Err(tokenAddress.error), [];
    }
    var fundAmount := AmountOr(amount, DefaultStableAmount(chain));
    o := world.Send(chain, world.funder, TokenTransfer(token, address, fundAmount));
    events := SentBy(chain.id, world.funder, StablecoinTxs(token, address, fundAmount));
  }

  /** `prefundUsdc`. */
  method PrefundUsdc(world: World, chain: Chain, address: Address, amount: Option<nat>)
    returns (o: Outcome, ghost events: seq<Event>)
    modifies world
    ensures world.time >= old(world.time)
    ensures world.log == old(world.log) + events
    ensures StablecoinSettled(o, events, chain, world.funder, "USDC", address, AmountOr(amount, DefaultStableAmount(chain)))
  {
    o, events := PrefundStablecoin(world, chain, "USDC", address, amount);
  }

  /** `prefundUsdt`. */
  method PrefundUsdt(world: World, chain: Chain, address: Address, amount: Option<nat>)
    returns (o: Outcome, ghost events: seq<Event>)
    modifies world
    ensures world.time >= old(world.time)
    ensures world.log == old(world.log) + events
    ensures StablecoinSettled(o, events, chain, world.funder, "USDT", address, AmountOr(amount, DefaultStableAmount(chain)))
  {
    o, events := PrefundStablecoin(world, chain, "USDT", address, amount);
  }

  /** `buildSession`: a session on `chain` owned by the session signer alone. */
  function BuildSession(signer: Address, chain: Chain): (s: Session)
    ensures s.owners == [signer] && s.chain == chain
  {
    Session([signer], chain)
  }

  /** The sessions `getSessionDetails` requests: one per chain, in the chains' order. */
  function Sessions(signer: Address, chains: seq<Chain>): (sessions: seq<Session>)
    ensures |sessions| == |chains|
    ensures forall i :: 0 <= i < |chains| ==> sessions[i].chain == chains[i] && sessions[i].owners == [signer]
  {
    if chains == [] then [] else [BuildSession(signer, chains[0])] + Sessions(signer, chains[1..])
  }
}
