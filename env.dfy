/** The environment the harness talks to: the clock (`Date.now`, `setTimeout`), the chains'
    RPC endpoints, the funding wallet, the account SDK and the deposit processor's HTTP API.
    Callers rely on the contracts of `World`'s methods only: time never runs backwards, every
    successful balance read, every submitted transaction and every registration is appended to
    `log`, and any of them may fail with a message. The bodies are one admissible environment
    (one that never fails and in which nothing is bridged); the contracts leave balances,
    failures and the passage of time free, which is what the harness has to cope with. */
module Env {
  import opened Wrappers
  import opened Domain

  /** What the harness did to the outside world, in order. */
  datatype Event =
    | BalanceRead(chainId: int, token: string, holder: Address, value: nat)
    | Sent(chainId: int, sender: Address, tx: Tx)
    | Registered(account: Address, targetChainId: int, targetToken: string, sessions: seq<Session>)

  /** `e` is a successful read of `holder`'s `token` balance on chain `chainId`. */
  predicate IsReadOf(e: Event, chainId: int, token: string, holder: Address) {
    e.BalanceRead? && e.chainId == chainId && e.token == token && e.holder == holder
  }

  /** No sweep intent was submitted in `events`. */
  predicate NoSweeps(events: seq<Event>) {
    forall i :: 0 <= i < |events| ==> !(events[i].Sent? && events[i].tx.SweepIntent?)
  }

  /** Two stretches of a log are free of sweeps exactly when their concatenation is. */
  lemma NoSweepsAppend(a: seq<Event>, b: seq<Event>)
    ensures NoSweeps(a + b) <==> NoSweeps(a) && NoSweeps(b)
  {
    assert forall i :: 0 <= i < |a| ==> (a + b)[i] == a[i];
    assert forall i :: 0 <= i < |b| ==> (a + b)[|a| + i] == b[i];
  }

  datatype BalanceKey = BalanceKey(chainId: int, token: string, holder: Address)

  class World {
    /** Milliseconds, as `Date.now()` returns them. */
    var time: int
    var log: seq<Event>
    /** The funding (treasury) account's address. */
    const funder: Address
    /** The balances this environment answers reads with. */
    var ledger: map<BalanceKey, nat>
    /** What the next random draw yields. */
    var entropy: nat

    constructor (start: int, funder: Address)
      ensures time == start && log == [] && this.funder == funder
    {
      time := start;
      log := [];
      this.funder := funder;
      ledger := map[];
      entropy := 0;
    }

    /** `Date.now()`. */
    method Now() returns (t: int)
      ensures t == time
    {
      t := time;
    }

    /** `await new Promise((resolve) => setTimeout(resolve, ms))`: at least `ms` pass;
        meanwhile balances may change (a bridge may deliver). */
    method Sleep(ms: nat)
      modifies this
      ensures time >= old(time) + ms
      ensures log == old(log)
    {
      time := time + ms;
    }

    /** A fund amount drawn at random (`Math.random()` scaled by the asset's base). */
    method Draw(chain: Chain, token: string) returns (amount: nat)
    {
      amount := entropy;
    }

    /** `getTokenAddress`: the contract address of `token` on `chain`, from the SDK's token
        table; it throws for a token the table does not list on that chain. Nothing is logged. */
    method TokenAddress(token: string, chain: Chain) returns (r: Result<Address>)
      ensures time == old(time) && log == old(log)
    {
      r := Success(token);
    }

    /** A balance read over RPC (`getBalance` or ERC-20 `balanceOf`); it may fail. */
    method ReadBalance(chain: Chain, token: string, holder: Address) returns (r: Result<nat>)
      modifies this
      ensures time >= old(time)
      ensures r.Success? ==> log == old(log) + [BalanceRead(chain.id, token, holder, r.value)]
      ensures r.Failure? ==> log == old(log)
    {
      var key := BalanceKey(chain.id, token, holder);
      var value := if key in ledger then ledger[key] else 0;
      r := Success(value);
      log := log + [BalanceRead(chain.id, token, holder, value)];
    }

    /** Submit `tx` from `sender` and wait for its receipt; the submission is logged even
        when it then fails. */
    method Send(chain: Chain, sender: Address, tx: Tx) returns (o: Outcome)
      modifies this
      ensures time >= old(time)
      ensures log == old(log) + [Sent(chain.id, sender, tx)]
    {
      log := log + [Sent(chain.id, sender, tx)];
      o := Ok;
    }

    /** Derive and sign the session details for `sessions`, then register `account` with the
        deposit processor for the target route (`getSessionDetails` and `registerAccount`). */
    method Register(account: Address, sessions: seq<Session>, targetChain: Chain, targetToken: string)
      returns (o: Outcome)
      modifies this
      ensures time >= old(time)
      ensures log == old(log) + [Registered(account, targetChain.id, targetToken, sessions)]
    {
      log := log + [Registered(account, targetChain.id, targetToken, sessions)];
      o := Ok;
    }
  }
}
