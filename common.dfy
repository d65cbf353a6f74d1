/** The `common` half of the setup code: deploying the AMM and exchanges,
    constructing an exchange and funding it with liquidity. */
module Common {
  import opened Types
  import opened Ledger

  /** A live connection to a deployed contract (the SDK's instance handle). */
  datatype Instance = AmmInstance(contract: ContractId) | ExchangeInstance(contract: ContractId)

  /** `ExchangeContractConfiguration`. */
  datatype ExchangeConfig = ExchangeConfig(
    computeBytecodeRoot: bool,
    malicious: bool,
    pair: AssetPair,
    salt: Salt)

  /** `LiquidityParameters`: the two deposits in pair order, the deadline
      (a block height) and the minimum liquidity accepted. */
  datatype LiquidityParameters = LiquidityParameters(
    amounts: (U64, U64),
    deadline: U64,
    liquidity: U64)

  /** `ExchangeContract`: what the setup code keeps about one exchange. */
  datatype ExchangeContract = ExchangeContract(
    bytecodeRoot: Option<ContractId>,
    id: ContractId,
    instance: Instance,
    pair: AssetPair)

  /** The part of `FuelCallResponse<u64>` the setup code reads. */
  datatype CallResponse = CallResponse(value: U64)

  /** `AMMContract`: the registry contract and the pools the tests know of. */
  class AMMContract {
    const instance: Instance
    const id: ContractId
    var pools: map<AssetPair, ExchangeContract>

    constructor (id: ContractId)
      ensures this.id == id && instance == AmmInstance(id) && pools == map[]
    {
      this.id := id;
      instance := AmmInstance(id);
      pools := map[];
    }
  }

  /** `deploy_amm`: deploys the AMM binary without a salt and starts with no
      pools. */
  method DeployAmm(ledger: Ledger) returns (amm: AMMContract)
    modifies ledger
    ensures fresh(amm)
    ensures amm.id == ledger.oracles.contractId(AmmBinary, AmmStorage, None)
    ensures amm.instance == AmmInstance(amm.id) && amm.pools == map[]
    ensures ledger.trace == old(ledger.trace) + [Call.Deploy(AmmBinary, AmmStorage, None, amm.id)]
  {
    var id := ledger.Deploy(AmmBinary, AmmStorage, None);
    amm := new AMMContract(id);
  }

  /** The binary and the storage image `deploy_exchange` picks: both of the
      malicious variant or both of the legitimate one, never a mix. */
  function ExchangeArtifacts(malicious: bool): (r: (BinaryPath, StoragePath))
    ensures r.0 != AmmBinary && r.1 != AmmStorage
    ensures r.0 == MaliciousExchangeBinary <==> malicious
    ensures r.1 == MaliciousExchangeStorage <==> malicious
  {
    if malicious then (MaliciousExchangeBinary, MaliciousExchangeStorage)
    else (ExchangeBinary, ExchangeStorage)
  }

  /** The identity an exchange deployed from `config` gets. */
  function ExchangeId(o: Oracles, config: ExchangeConfig): ContractId {
    var (binary, storage) := ExchangeArtifacts(config.malicious);
    o.contractId(binary, storage, Some(config.salt))
  }

  /** `exchange_bytecode_root`: always the root of the legitimate binary. */
  function ExchangeBytecodeRoot(o: Oracles): ContractId {
    o.bytecodeRoot(ExchangeBinary)
  }

  /** The record `deploy_and_construct_exchange` returns for `config`. */
  function ExchangeRecord(o: Oracles, config: ExchangeConfig): (r: ExchangeContract)
    ensures r.pair == config.pair
    ensures r.instance == ExchangeInstance(r.id)
    ensures r.bytecodeRoot.Some? <==> config.computeBytecodeRoot
    ensures r.bytecodeRoot.Some? ==> r.bytecodeRoot.value == o.bytecodeRoot(ExchangeBinary)
  {
    var id := ExchangeId(o, config);
    ExchangeContract(
      if config.computeBytecodeRoot then Some(ExchangeBytecodeRoot(o)) else None,
      id, ExchangeInstance(id), config.pair)
  }

  /** The two calls `deploy_and_construct_exchange` submits. */
  function DeployConstructCalls(o: Oracles, config: ExchangeConfig): seq<Call> {
    var (binary, storage) := ExchangeArtifacts(config.malicious);
    var id := ExchangeId(o, config);
    [Call.Deploy(binary, storage, Some(config.salt), id), Call.Construct(id, config.pair)]
  }

  /** The three calls `deposit_and_add_liquidity` submits, in order. */
  function LiquidityCalls(parameters: LiquidityParameters, exchange: ExchangeContract): seq<Call> {
    [ Call.Deposit(exchange.id, parameters.amounts.0, exchange.pair.0),
      Call.Deposit(exchange.id, parameters.amounts.1, exchange.pair.1),
      Call.AddLiquidity(exchange.id, parameters.liquidity, parameters.deadline) ]
  }

  /** `deploy_exchange`: deploys the variant `config.malicious` selects under
      `config.salt`. */
  method DeployExchange(ledger: Ledger, config: ExchangeConfig) returns (id: ContractId, instance: Instance)
    modifies ledger
    ensures id == ExchangeId(ledger.oracles, config) && instance == ExchangeInstance(id)
    ensures var (binary, storage) := ExchangeArtifacts(config.malicious);
      ledger.trace == old(ledger.trace) + [Call.Deploy(binary, storage, Some(config.salt), id)]
  {
    var binaryPath := if config.malicious then MaliciousExchangeBinary else ExchangeBinary;
    var storagePath := if config.malicious then MaliciousExchangeStorage else ExchangeStorage;
    id := ledger.Deploy(binaryPath, storagePath, Some(config.salt));
    instance := ExchangeInstance(id);
  }

  /** `deploy_and_construct_exchange`: deploy, then construct with
      `config.pair`; the bytecode root is attached only when asked for. */
  method DeployAndConstructExchange(ledger: Ledger, config: ExchangeConfig) returns (exchange: ExchangeContract)
    modifies ledger
    ensures exchange == ExchangeRecord(ledger.oracles, config)
    ensures ledger.trace == old(ledger.trace) + DeployConstructCalls(ledger.oracles, config)
  {
    var id, instance := DeployExchange(ledger, config);
    ledger.Construct(id, config.pair);
    var root := if config.computeBytecodeRoot then Some(ExchangeBytecodeRoot(ledger.oracles)) else None;
    exchange := ExchangeContract(root, id, instance, config.pair);
  }

  /** `deposit_and_add_liquidity_with_response`: deposit the first amount of
      the first asset, the second of the second, then add liquidity; the
      response carries what `add_liquidity` reported. */
  method DepositAndAddLiquidityWithResponse(ledger: Ledger, parameters: LiquidityParameters, exchange: ExchangeContract)
    returns (response: CallResponse)
    modifies ledger
    ensures ledger.trace == old(ledger.trace) + LiquidityCalls(parameters, exchange)
    ensures response.value == ledger.oracles.minted(ledger.trace)
  {
    ledger.Deposit(exchange.id, parameters.amounts.0, exchange.pair.0);
    ledger.Deposit(exchange.id, parameters.amounts.1, exchange.pair.1);
    var minted := ledger.AddLiquidity(exchange.id, parameters.liquidity, parameters.deadline);
    response := CallResponse(minted);
  }

  /** `deposit_and_add_liquidity`: the same calls, returning only the value. */
  method DepositAndAddLiquidity(ledger: Ledger, parameters: LiquidityParameters, exchange: ExchangeContract)
    returns (minted: U64)
    modifies ledger
    ensures ledger.trace == old(ledger.trace) + LiquidityCalls(parameters, exchange)
    ensures minted == ledger.oracles.minted(ledger.trace)
  {
    var response := DepositAndAddLiquidityWithResponse(ledger, parameters, exchange);
    minted := response.value;
  }
}
