/** The ledger the setup code talks to, seen from the client: every
    state-changing call it submits is appended to a trace, and everything the
    ledger computes (contract identities, block heights, minted liquidity,
    bytecode roots) is an uninterpreted oracle. */
module Ledger {
  import opened Types

  /** The compiled artefacts the setup code can deploy, named after the
      constants of the `paths` module. */
  datatype BinaryPath = AmmBinary | ExchangeBinary | MaliciousExchangeBinary
  datatype StoragePath = AmmStorage | ExchangeStorage | MaliciousExchangeStorage

  /** One call submitted to the ledger, with the arguments it carries. */
  datatype Call =
    | Deploy(binary: BinaryPath, storage: StoragePath, salt: Option<Salt>, id: ContractId)
    | Construct(exchange: ContractId, pair: AssetPair)
    | Deposit(exchange: ContractId, amount: U64, asset: AssetId)
    | AddLiquidity(exchange: ContractId, liquidity: U64, deadline: U64)
    | AddPool(amm: ContractId, pair: AssetPair, exchange: ContractId)

  /** What the ledger and the SDK compute and the setup code only consumes.
      `contractId` is deterministic addressing: a deployment's identity is a
      function of the binary, the storage image and the salt (`None`: the
      SDK's own default). `latestHeight` and `minted` see the calls submitted
      so far; `minted` is given the trace that ends with the `AddLiquidity`
      call whose result it reports. */
  datatype Oracles = Oracles(
    contractId: (BinaryPath, StoragePath, Option<Salt>) -> ContractId,
    bytecodeRoot: BinaryPath -> ContractId,
    latestHeight: seq<Call> -> U64,
    minted: seq<Call> -> U64)

  /** The deployment oracle tells two salts apart: an assumption about the
      ledger's hashing, never established by the setup code. */
  ghost predicate SaltSeparating(o: Oracles) {
    forall b, s, s1, s2 {:trigger o.contractId(b, s, Some(s1)), o.contractId(b, s, Some(s2))} ::
      o.contractId(b, s, Some(s1)) == o.contractId(b, s, Some(s2)) ==> s1 == s2
  }

  /** A connection to the test node: the calls submitted so far. */
  class Ledger {
    const oracles: Oracles
    var trace: seq<Call>

    constructor (oracles: Oracles)
      ensures this.oracles == oracles && trace == []
    {
      this.oracles := oracles;
      trace := [];
    }

    /** `Contract::deploy` / `Contract::deploy_with_parameters`. */
    method Deploy(binary: BinaryPath, storage: StoragePath, salt: Option<Salt>) returns (id: ContractId)
      modifies this
      ensures id == oracles.contractId(binary, storage, salt)
      ensures trace == old(trace) + [Call.Deploy(binary, storage, salt, id)]
    {
      id := oracles.contractId(binary, storage, salt);
      trace := trace + [Call.Deploy(binary, storage, salt, id)];
    }

    /** The exchange's `constructor(pair)`. */
    method Construct(exchange: ContractId, pair: AssetPair)
      modifies this
      ensures trace == old(trace) + [Call.Construct(exchange, pair)]
    {
      trace := trace + [Call.Construct(exchange, pair)];
    }

    /** The exchange's `deposit`, forwarding `amount` of `asset`. */
    method Deposit(exchange: ContractId, amount: U64, asset: AssetId)
      modifies this
      ensures trace == old(trace) + [Call.Deposit(exchange, amount, asset)]
    {
      trace := trace + [Call.Deposit(exchange, amount, asset)];
    }

    /** The exchange's `add_liquidity`; returns what the exchange reports. */
    method AddLiquidity(exchange: ContractId, liquidity: U64, deadline: U64) returns (minted: U64)
      modifies this
      ensures trace == old(trace) + [Call.AddLiquidity(exchange, liquidity, deadline)]
      ensures minted == oracles.minted(trace)
    {
      trace := trace + [Call.AddLiquidity(exchange, liquidity, deadline)];
      minted := oracles.minted(trace);
    }

    /** The AMM's `add_pool(pair, exchange)`. */
    method AddPool(amm: ContractId, pair: AssetPair, exchange: ContractId)
      modifies this
      ensures trace == old(trace) + [Call.AddPool(amm, pair, exchange)]
    {
      trace := trace + [Call.AddPool(amm, pair, exchange)];
    }

    /** `provider.latest_block_height()`: a query, it submits nothing. */
    method LatestBlockHeight() returns (height: U64)
      ensures height == oracles.latestHeight(trace)
    {
      height := oracles.latestHeight(trace);
    }
  }
}
