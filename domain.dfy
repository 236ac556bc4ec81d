/** The entities shared by the test orchestrator (scripts/test.ts) and the funding helpers
    (scripts/common.ts). */
module Domain {
  import opened Wrappers

  /** An account address (a hex string in the source). */
  type Address = string

  /** The fields of a viem `Chain` descriptor that the scripts look at. */
  datatype Chain = Chain(id: int, name: string, testnet: bool)

  /** A chain is identified by its id; two descriptors with the same id are the same chain. */
  function ChainId(c: Chain): int { c.id }

  datatype Network = Testnet | Mainnet

  /** One route leg to verify: fund `sourceToken` on `sourceChain`, expect `targetToken` to
      arrive on `targetChain`. */
  datatype TestCase = TestCase(sourceChain: Chain, sourceToken: string, targetChain: Chain, targetToken: string)

  /** A target route: the key under which cases are grouped, registered and swept. */
  datatype RouteKey = RouteKey(chainId: int, token: string)

  function CaseKey(tc: TestCase): RouteKey { RouteKey(tc.targetChain.id, tc.targetToken) }

  datatype Status = Pass | Fail | Skip

  /** The record the report prints: chains appear by name. */
  datatype TestResult = TestResult(
    network: Network,
    sourceChain: string,
    sourceToken: string,
    targetChain: string,
    targetToken: string,
    status: Status,
    durationMs: Option<nat>,
    error: Option<string>)

  /** `r` is a result of network `network` for the route of `tc`. */
  predicate Describes(r: TestResult, tc: TestCase, network: Network) {
    && r.network == network
    && r.sourceChain == tc.sourceChain.name
    && r.sourceToken == tc.sourceToken
    && r.targetChain == tc.targetChain.name
    && r.targetToken == tc.targetToken
  }

  /** The cases of one target route, in the order they were listed. */
  datatype TargetGroup = TargetGroup(targetChain: Chain, targetToken: string, cases: seq<TestCase>)

  function GroupKey(g: TargetGroup): RouteKey { RouteKey(g.targetChain.id, g.targetToken) }

  /** A session enabled on one chain for the listed owners (the SDK's `Session`). */
  datatype Session = Session(owners: seq<Address>, chain: Chain)

  /** A transaction one of the scripts submits. Values are bigints in the asset's smallest unit. */
  datatype Tx =
    | NativeTransfer(to: Address, value: int)
    | Wrap(value: int)
    | TokenTransfer(token: string, to: Address, value: int)
    | SweepIntent(token: string, recipient: Address)
}
