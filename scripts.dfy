/** The pool half of the `scripts` part of the setup code: the chain of
    exchanges over an ordered asset list, registered with the AMM, and the
    list of contract instances a script call needs. */
module Scripts {
  import opened Types
  import opened Ledger
  import opened Common

  /** What `ExchangeContractConfiguration::new` fills in for the two flags
      the chain builder leaves as `None`. */
  datatype ConfigDefaults = ConfigDefaults(computeBytecodeRoot: bool, malicious: bool)

  /** How a call of the chain builder ends. */
  datatype Outcome = Completed | Panicked(reason: Panic)

  /** The effect of the chain builder: the calls submitted, the pool map, the
      number of pools set up and how it ended. */
  datatype Progress = Progress(
    trace: seq<Call>,
    pools: map<AssetPair, ExchangeContract>,
    done: nat,
    outcome: Outcome)

  /** The first deposit of every pool, its minimum liquidity, and the unit of
      the second deposit. */
  const SeedAmount: int := 100_000

  /** How many blocks ahead of the latest one the liquidity deadline lies. */
  const DeadlineLookahead: int := 10

  // ---------------------------------------------------------------------
  // contract_instances

  /** `order` lists the keys of `m`, each once: the order in which a
      `HashMap` happens to iterate. */
  ghost predicate EnumeratesKeys(order: seq<AssetPair>, m: map<AssetPair, ExchangeContract>) {
    && (forall a, b :: 0 <= a < b < |order| ==> order[a] != order[b])
    && (forall k :: k in m <==> k in order)
  }

  lemma {:induction false} EnumerationLength(order: seq<AssetPair>, keys: set<AssetPair>)
    requires forall a, b :: 0 <= a < b < |order| ==> order[a] != order[b]
    requires forall k :: k in keys <==> k in order
    ensures |keys| == |order|
  {
    if order != [] {
      var last := order[|order| - 1];
      var rest := order[..|order| - 1];
      assert forall k :: k in keys - {last} <==> k in rest by {
        forall k ensures k in keys - {last} <==> k in rest {
          if k in order && k != last {
            var a :| 0 <= a < |order| && order[a] == k;
            assert a < |order| - 1 && rest[a] == k;
          }
        }
      }
      EnumerationLength(rest, keys - {last});
    }
  }

  /** The instances of the pools, in the order given. */
  function PoolInstances(pools: map<AssetPair, ExchangeContract>, order: seq<AssetPair>): (r: seq<Instance>)
    requires forall k :: 0 <= k < |order| ==> order[k] in pools
    ensures |r| == |order|
    ensures forall k :: 0 <= k < |order| ==> r[k] == pools[order[k]].instance
  {
    seq(|order|, k requires 0 <= k < |order| => pools[order[k]].instance)
  }

  lemma PoolInstancesCover(pools: map<AssetPair, ExchangeContract>, order: seq<AssetPair>)
    requires EnumeratesKeys(order, pools)
    ensures forall pair :: pair in pools ==> pools[pair].instance in PoolInstances(pools, order)
  {
    forall pair | pair in pools ensures pools[pair].instance in PoolInstances(pools, order) {
      var k :| 0 <= k < |order| && order[k] == pair;
      assert PoolInstances(pools, order)[k] == pools[pair].instance;
    }
  }

  /** `contract_instances`: the instance of every pool, in the map's
      iteration order, followed by the AMM's instance. */
  function ContractInstances(amm: AMMContract, order: seq<AssetPair>): (r: seq<Instance>)
    reads amm
    requires EnumeratesKeys(order, amm.pools)
    ensures |r| == |order| + 1 == |amm.pools| + 1
    ensures r[|r| - 1] == amm.instance
    ensures forall k :: 0 <= k < |order| ==> r[k] == amm.pools[order[k]].instance
    ensures forall pair :: pair in amm.pools ==> amm.pools[pair].instance in r[..|r| - 1]
  {
    EnumerationLength(order, amm.pools.Keys);
    PoolInstancesCover(amm.pools, order);
    var r := PoolInstances(amm.pools, order) + [amm.instance];
    assert r[..|r| - 1] == PoolInstances(amm.pools, order);
    r
  }

  // ---------------------------------------------------------------------
  // The chain of pools, as a specification

  /** The pair of pool `i`: two consecutive assets. */
  function PoolPair(assets: seq<AssetId>, i: nat): AssetPair
    requires i + 1 < |assets|
  {
    (assets[i], assets[i + 1])
  }

  /** The salt of pool `i`: 32 copies of `i as u8`, which wraps at 256. */
  function PoolSalt(i: nat): Salt {
    Salt(seq(32, _ => (i % 256) as U8))
  }

  function PoolConfig(defaults: ConfigDefaults, assets: seq<AssetId>, i: nat): ExchangeConfig
    requires i + 1 < |assets|
  {
    ExchangeConfig(defaults.computeBytecodeRoot, defaults.malicious, PoolPair(assets, i), PoolSalt(i))
  }

  /** The record kept in the pool map for pool `i`. */
  function PoolRecord(o: Oracles, defaults: ConfigDefaults, assets: seq<AssetId>, i: nat): ExchangeContract
    requires i + 1 < |assets|
  {
    ExchangeRecord(o, PoolConfig(defaults, assets, i))
  }

  /** The liquidity parameters of pool `i` when the latest block is `height`,
      or the overflow that panics first. */
  function PoolParameters(i: nat, height: U64): Result<LiquidityParameters, Panic> {
    if SeedAmount * (i + 1) > U64Max then Err(SeedAmountOverflow(i))
    else if height as int + DeadlineLookahead > U64Max then Err(DeadlineOverflow(i))
    else Ok(LiquidityParameters(
      (SeedAmount as U64, (SeedAmount * (i + 1)) as U64),
      (height as int + DeadlineLookahead) as U64,
      SeedAmount as U64))
  }

  /** The calls of loop iteration `i` when `t` has been submitted before it. */
  function Iteration(o: Oracles, defaults: ConfigDefaults, ammId: ContractId, assets: seq<AssetId>,
                     t: seq<Call>, i: nat): Result<seq<Call>, Panic>
    requires i + 1 < |assets|
  {
    var config := PoolConfig(defaults, assets, i);
    match PoolParameters(i, o.latestHeight(t))
    case Err(e) => Err(e)
    case Ok(parameters) =>
      var exchange := ExchangeRecord(o, config);
      Ok(DeployConstructCalls(o, config) + LiquidityCalls(parameters, exchange)
         + [Call.AddPool(ammId, config.pair, exchange.id)])
  }

  /** The loop of `setup_exchange_contracts` from index `i` on, with `t`
      submitted and `pools` registered so far. */
  function Run(o: Oracles, defaults: ConfigDefaults, ammId: ContractId, assets: seq<AssetId>,
               t: seq<Call>, pools: map<AssetPair, ExchangeContract>, i: nat): Progress
    decreases |assets| - i
  {
    if i + 1 >= |assets| then Progress(t, pools, i, Completed)
    else match Iteration(o, defaults, ammId, assets, t, i)
      case Err(e) => Progress(t, pools, i, Panicked(e))
      case Ok(calls) =>
        Run(o, defaults, ammId, assets, t + calls,
            pools[PoolPair(assets, i) := PoolRecord(o, defaults, assets, i)], i + 1)
  }

  /** `setup_exchange_contracts` as a whole: `len() - 1` underflows on an
      empty list before any call is made. */
  function Topology(o: Oracles, defaults: ConfigDefaults, ammId: ContractId, assets: seq<AssetId>,
                    t: seq<Call>, pools: map<AssetPair, ExchangeContract>): Progress
  {
    if |assets| == 0 then Progress(t, pools, 0, Panicked(LengthUnderflow))
    else Run(o, defaults, ammId, assets, t, pools, 0)
  }

  /** The pairs of pools `i` up to (excluding) `k`. */
  function PairsBetween(assets: seq<AssetId>, i: nat, k: nat): set<AssetPair>
    requires k < |assets|
    decreases k - i
  {
    if i >= k then {} else {PoolPair(assets, i)} + PairsBetween(assets, i + 1, k)
  }

  /** No two pools of the chain share a pair, so no `insert` overwrites. */
  ghost predicate DistinctPairs(assets: seq<AssetId>) {
    forall a, b :: 0 <= a < b && b + 1 < |assets| ==> PoolPair(assets, a) != PoolPair(assets, b)
  }

  /** No pool after `j` and before `k` has pool `j`'s pair: pool `j` is the
      last to insert that key. */
  ghost predicate LastWithPair(assets: seq<AssetId>, j: nat, k: nat) {
    forall m :: j < m < k && m + 1 < |assets| ==> PoolPair(assets, m) != PoolPair(assets, j)
  }

  // ---------------------------------------------------------------------
  // The methods

  /** `setup_exchange_contract`: deploy and construct, then fund. */
  method SetupExchangeContract(ledger: Ledger, config: ExchangeConfig, parameters: LiquidityParameters)
    returns (exchange: ExchangeContract)
    modifies ledger
    ensures exchange == ExchangeRecord(ledger.oracles, config)
    ensures ledger.trace == old(ledger.trace) + DeployConstructCalls(ledger.oracles, config)
                                              + LiquidityCalls(parameters, exchange)
  {
    exchange := DeployAndConstructExchange(ledger, config);
    var minted := DepositAndAddLiquidity(ledger, parameters, exchange);
  }

  /** `setup_exchange_contracts`: one pool per pair of consecutive assets,
      each funded and then registered with the AMM and in `amm.pools`. */
  method SetupExchangeContracts(ledger: Ledger, amm: AMMContract, assetIds: seq<AssetId>, defaults: ConfigDefaults)
    returns (outcome: Outcome)
    modifies ledger, amm
    ensures var p := Topology(ledger.oracles, defaults, amm.id, assetIds, old(ledger.trace), old(amm.pools));
      ledger.trace == p.trace && amm.pools == p.pools && outcome == p.outcome
  {
    if |assetIds| == 0 {
      return Panicked(LengthUnderflow);
    }
    var exchangeIndex := 0;
    while exchangeIndex < |assetIds| - 1
      invariant exchangeIndex < |assetIds|
      invariant Run(ledger.oracles, defaults, amm.id, assetIds, ledger.trace, amm.pools, exchangeIndex)
             == Run(ledger.oracles, defaults, amm.id, assetIds, old(ledger.trace), old(amm.pools), 0)
    {
      var assetPair := (assetIds[exchangeIndex], assetIds[exchangeIndex + 1]);
      var config := ExchangeConfig(defaults.computeBytecodeRoot, defaults.malicious, assetPair, PoolSalt(exchangeIndex));
      var secondAmount := SeedAmount * (exchangeIndex + 1);
      if secondAmount > U64Max {
        return Panicked(SeedAmountOverflow(exchangeIndex));
      }
      var height := ledger.LatestBlockHeight();
      if height as int + DeadlineLookahead > U64Max {
        return Panicked(DeadlineOverflow(exchangeIndex));
      }
      var parameters := LiquidityParameters(
        (SeedAmount as U64, secondAmount as U64),
        (height as int + DeadlineLookahead) as U64,
        SeedAmount as U64);
      ghost var before, registered := ledger.trace, amm.pools;
      assert config == PoolConfig(defaults, assetIds, exchangeIndex);
      assert PoolParameters(exchangeIndex, height) == Ok(parameters);
      var exchange := SetupExchangeContract(ledger, config, parameters);
      ledger.AddPool(amm.id, assetPair, exchange.id);
      amm.pools := amm.pools[assetPair := exchange];
      ghost var calls := DeployConstructCalls(ledger.oracles, config) + LiquidityCalls(parameters, exchange)
                         + [Call.AddPool(amm.id, config.pair, exchange.id)];
      assert ledger.trace == before + calls;
      assert ledger.trace[|before|..] == calls;
      assert Iteration(ledger.oracles, defaults, amm.id, assetIds, before, exchangeIndex) == Ok(calls);
      assert ledger.trace == before + ledger.trace[|before|..];
      exchangeIndex := exchangeIndex + 1;
    }
    outcome := Completed;
  }

  // ---------------------------------------------------------------------
  // Properties of the chain

  /** An iteration that does not panic submits exactly six calls: deploy
      with salt `[i as u8; 32]`, construct with the pair, deposit 100_000 of
      the first asset, deposit 100_000 * (i + 1) of the second, add 100_000
      liquidity with deadline height + 10, and register the pair with the
      freshly deployed identity. Every one of them addresses that identity. */
  lemma IterationCalls(o: Oracles, defaults: ConfigDefaults, ammId: ContractId, assets: seq<AssetId>,
                       t: seq<Call>, i: nat)
    requires i + 1 < |assets|
    ensures var r := Iteration(o, defaults, ammId, assets, t, i);
      var height := o.latestHeight(t);
      var (binary, storage) := ExchangeArtifacts(defaults.malicious);
      var id := o.contractId(binary, storage, Some(PoolSalt(i)));
      && (r.Ok? <==> SeedAmount * (i + 1) <= U64Max && height as int + DeadlineLookahead <= U64Max)
      && (r.Err? ==> r.error == (if SeedAmount * (i + 1) > U64Max then SeedAmountOverflow(i) else DeadlineOverflow(i)))
      && (r.Ok? ==>
            && id == PoolRecord(o, defaults, assets, i).id
            && r.value == [
                 Call.Deploy(binary, storage, Some(PoolSalt(i)), id),
                 Call.Construct(id, (assets[i], assets[i + 1])),
                 Call.Deposit(id, 100_000, assets[i]),
                 Call.Deposit(id, (100_000 * (i + 1)) as U64, assets[i + 1]),
                 Call.AddLiquidity(id, 100_000, (height as int + 10) as U64),
                 Call.AddPool(ammId, (assets[i], assets[i + 1]), id)])
  {
  }

  lemma {:induction false} RunBounds(o: Oracles, defaults: ConfigDefaults, ammId: ContractId, assets: seq<AssetId>,
                                     t: seq<Call>, pools: map<AssetPair, ExchangeContract>, i: nat)
    requires i < |assets|
    ensures var p := Run(o, defaults, ammId, assets, t, pools, i);
      && i <= p.done < |assets|
      && (p.outcome == Completed <==> p.done == |assets| - 1)
      && (p.outcome.Panicked? ==> Iteration(o, defaults, ammId, assets, p.trace, p.done) == Err(p.outcome.reason))
      && |p.trace| == |t| + 6 * (p.done - i)
      && p.trace[..|t|] == t
    decreases |assets| - i
  {
    if i + 1 < |assets| {
      match Iteration(o, defaults, ammId, assets, t, i)
      case Err(e) =>
      case Ok(calls) =>
        IterationCalls(o, defaults, ammId, assets, t, i);
        var pools' := pools[PoolPair(assets, i) := PoolRecord(o, defaults, assets, i)];
        RunBounds(o, defaults, ammId, assets, t + calls, pools', i + 1);
        var p := Run(o, defaults, ammId, assets, t + calls, pools', i + 1);
        assert p.trace[..|t|] == p.trace[..|t + calls|][..|t|];
    }
  }

  /** Pool `j` occupies the six calls from position |t| + 6 (j - i) of the
      trace, and they are what iteration `j` issues on top of everything
      submitted before them. */
  lemma {:induction false} RunSegment(o: Oracles, defaults: ConfigDefaults, ammId: ContractId, assets: seq<AssetId>,
                                      t: seq<Call>, pools: map<AssetPair, ExchangeContract>, i: nat, j: nat)
    requires i <= j < Run(o, defaults, ammId, assets, t, pools, i).done
    ensures j + 1 < |assets|
    ensures var p := Run(o, defaults, ammId, assets, t, pools, i);
      var start := |t| + 6 * (j - i);
      && start + 6 <= |p.trace|
      && Iteration(o, defaults, ammId, assets, p.trace[..start], j) == Ok(p.trace[start..start + 6])
    decreases |assets| - i
  {
    match Iteration(o, defaults, ammId, assets, t, i)
    case Ok(calls) =>
      IterationCalls(o, defaults, ammId, assets, t, i);
      var pools' := pools[PoolPair(assets, i) := PoolRecord(o, defaults, assets, i)];
      var p := Run(o, defaults, ammId, assets, t + calls, pools', i + 1);
      RunBounds(o, defaults, ammId, assets, t + calls, pools', i + 1);
      if j == i {
        assert p.trace[..|t|] == t by {
          assert p.trace[..|t|] == p.trace[..|t + calls|][..|t|];
        }
        assert p.trace[|t|..|t| + 6] == calls by {
          assert p.trace[..|t + calls|] == t + calls;
        }
      } else {
        RunSegment(o, defaults, ammId, assets, t + calls, pools', i + 1, j);
      }
  }

  lemma {:induction false} PairNotLater(assets: seq<AssetId>, j: nat, i: nat, k: nat)
    requires j < i && k < |assets| && j + 1 < |assets|
    requires forall m :: i <= m < k ==> PoolPair(assets, m) != PoolPair(assets, j)
    ensures PoolPair(assets, j) !in PairsBetween(assets, i, k)
    decreases k - i
  {
    if i < k {
      PairNotLater(assets, j, i + 1, k);
    }
  }

  lemma {:induction false} PairsBetweenSize(assets: seq<AssetId>, i: nat, k: nat)
    requires DistinctPairs(assets) && k < |assets|
    ensures |PairsBetween(assets, i, k)| == if i >= k then 0 else k - i
    decreases k - i
  {
    if i < k {
      PairNotLater(assets, i, i + 1, k);
      PairsBetweenSize(assets, i + 1, k);
    }
  }

  /** The pool map only grows: it gains the pairs of the pools set up, and
      an entry whose key is not one of those pairs keeps its value. */
  lemma {:induction false} RunPools(o: Oracles, defaults: ConfigDefaults, ammId: ContractId, assets: seq<AssetId>,
                                    t: seq<Call>, pools: map<AssetPair, ExchangeContract>, i: nat)
    requires i < |assets|
    ensures var p := Run(o, defaults, ammId, assets, t, pools, i);
      && p.done < |assets|
      && p.pools.Keys == pools.Keys + PairsBetween(assets, i, p.done)
      && (forall key :: key in pools && key !in PairsBetween(assets, i, p.done) ==> p.pools[key] == pools[key])
    decreases |assets| - i
  {
    RunBounds(o, defaults, ammId, assets, t, pools, i);
    if i + 1 < |assets| {
      match Iteration(o, defaults, ammId, assets, t, i)
      case Err(e) =>
      case Ok(calls) =>
        var pools' := pools[PoolPair(assets, i) := PoolRecord(o, defaults, assets, i)];
        RunBounds(o, defaults, ammId, assets, t + calls, pools', i + 1);
        RunPools(o, defaults, ammId, assets, t + calls, pools', i + 1);
    }
  }

  lemma {:induction false} PairInBetween(assets: seq<AssetId>, i: nat, j: nat, k: nat)
    requires i <= j < k < |assets|
    ensures PoolPair(assets, j) in PairsBetween(assets, i, k)
    decreases j - i
  {
    if i < j {
      PairInBetween(assets, i + 1, j, k);
    }
  }

  /** Pool `j`'s pair maps to pool `j`'s record when no later pool of the
      run inserts the same pair. */
  lemma {:induction false} RunPoolsLast(o: Oracles, defaults: ConfigDefaults, ammId: ContractId, assets: seq<AssetId>,
                                        t: seq<Call>, pools: map<AssetPair, ExchangeContract>, i: nat, j: nat)
    requires i <= j < Run(o, defaults, ammId, assets, t, pools, i).done
    requires LastWithPair(assets, j, Run(o, defaults, ammId, assets, t, pools, i).done)
    ensures j + 1 < |assets|
    ensures PoolPair(assets, j) in Run(o, defaults, ammId, assets, t, pools, i).pools
    ensures Run(o, defaults, ammId, assets, t, pools, i).pools[PoolPair(assets, j)] == PoolRecord(o, defaults, assets, j)
    decreases |assets| - i
  {
    RunBounds(o, defaults, ammId, assets, t, pools, i);
    RunPools(o, defaults, ammId, assets, t, pools, i);
    PairInBetween(assets, i, j, Run(o, defaults, ammId, assets, t, pools, i).done);
    match Iteration(o, defaults, ammId, assets, t, i)
    case Ok(calls) =>
      var pools' := pools[PoolPair(assets, i) := PoolRecord(o, defaults, assets, i)];
      var p := Run(o, defaults, ammId, assets, t + calls, pools', i + 1);
      if j == i {
        RunPools(o, defaults, ammId, assets, t + calls, pools', i + 1);
        PairNotLater(assets, i, i + 1, p.done);
      } else {
        RunPoolsLast(o, defaults, ammId, assets, t + calls, pools', i + 1, j);
      }
  }

  // ---------------------------------------------------------------------
  // The chain builder as a whole

  /** How `setup_exchange_contracts` ends: it panics at once on an empty
      list; otherwise it sets up pools 0, 1, ... in turn and either completes
      all `n - 1` or stops at the first pool whose amounts overflow. */
  lemma TopologyOutcome(o: Oracles, defaults: ConfigDefaults, ammId: ContractId, assets: seq<AssetId>,
                        t: seq<Call>, pools: map<AssetPair, ExchangeContract>)
    ensures var p := Topology(o, defaults, ammId, assets, t, pools);
      && (|assets| == 0 ==> p == Progress(t, pools, 0, Panicked(LengthUnderflow)))
      && (|assets| == 1 ==> p == Progress(t, pools, 0, Completed))
      && (|assets| > 0 ==>
            && p.done < |assets|
            && (p.outcome == Completed <==> p.done == |assets| - 1)
            && (p.outcome.Panicked? ==>
                  p.outcome.reason == SeedAmountOverflow(p.done) || p.outcome.reason == DeadlineOverflow(p.done))
            && (p.outcome == Panicked(SeedAmountOverflow(p.done)) ==> SeedAmount * (p.done + 1) > U64Max)
            && (p.outcome == Panicked(DeadlineOverflow(p.done)) ==>
                  SeedAmount * (p.done + 1) <= U64Max && o.latestHeight(p.trace) as int + DeadlineLookahead > U64Max)
            && |p.trace| == |t| + 6 * p.done
            && p.trace[..|t|] == t)
  {
    if |assets| > 0 {
      RunBounds(o, defaults, ammId, assets, t, pools, 0);
      var p := Topology(o, defaults, ammId, assets, t, pools);
      if p.outcome.Panicked? {
        IterationCalls(o, defaults, ammId, assets, p.trace, p.done);
      }
    }
  }

  /** The calls of pool `j` of a chain, at their place in the trace. The
      deadline is ten blocks past the height the ledger reported after
      everything submitted before pool `j`. */
  lemma TopologyPoolCalls(o: Oracles, defaults: ConfigDefaults, ammId: ContractId, assets: seq<AssetId>,
                          t: seq<Call>, pools: map<AssetPair, ExchangeContract>, j: nat)
    requires j < Topology(o, defaults, ammId, assets, t, pools).done
    ensures j + 1 < |assets| && 100_000 * (j + 1) <= U64Max
    ensures |t| + 6 * j + 6 <= |Topology(o, defaults, ammId, assets, t, pools).trace|
    ensures var p := Topology(o, defaults, ammId, assets, t, pools);
      var start := |t| + 6 * j;
      var height := o.latestHeight(p.trace[..start]);
      var id := PoolRecord(o, defaults, assets, j).id;
      var (binary, storage) := ExchangeArtifacts(defaults.malicious);
      && height as int + 10 <= U64Max
      && id == o.contractId(binary, storage, Some(PoolSalt(j)))
      && p.trace[start..start + 6] == [
           Call.Deploy(binary, storage, Some(PoolSalt(j)), id),
           Call.Construct(id, (assets[j], assets[j + 1])),
           Call.Deposit(id, 100_000, assets[j]),
           Call.Deposit(id, (100_000 * (j + 1)) as U64, assets[j + 1]),
           Call.AddLiquidity(id, 100_000, (height as int + 10) as U64),
           Call.AddPool(ammId, (assets[j], assets[j + 1]), id)]
  {
    RunSegment(o, defaults, ammId, assets, t, pools, 0, j);
    var p := Topology(o, defaults, ammId, assets, t, pools);
    var start := |t| + 6 * j;
    IterationCalls(o, defaults, ammId, assets, p.trace[..start], j);
  }

  /** The pool map after the chain builder: the old entries, all kept, plus
      one entry for the pair of every pool set up. */
  lemma TopologyPools(o: Oracles, defaults: ConfigDefaults, ammId: ContractId, assets: seq<AssetId>,
                      t: seq<Call>, pools: map<AssetPair, ExchangeContract>)
    ensures var p := Topology(o, defaults, ammId, assets, t, pools);
      && pools.Keys <= p.pools.Keys
      && (|assets| > 0 ==> p.done < |assets| && p.pools.Keys == pools.Keys + PairsBetween(assets, 0, p.done))
      && (|assets| > 0 ==> forall key :: key in pools && key !in PairsBetween(assets, 0, p.done) ==> p.pools[key] == pools[key])
  {
    if |assets| > 0 {
      RunPools(o, defaults, ammId, assets, t, pools, 0);
    }
  }

  /** A pair set up more than once holds the record of the last pool that
      inserted it: pool `j`'s record, when no later pool of the run has its
      pair. */
  lemma TopologyLastPoolRecord(o: Oracles, defaults: ConfigDefaults, ammId: ContractId, assets: seq<AssetId>,
                               t: seq<Call>, pools: map<AssetPair, ExchangeContract>, j: nat)
    requires j < Topology(o, defaults, ammId, assets, t, pools).done
    requires LastWithPair(assets, j, Topology(o, defaults, ammId, assets, t, pools).done)
    ensures j + 1 < |assets|
    ensures var p := Topology(o, defaults, ammId, assets, t, pools);
      PoolPair(assets, j) in p.pools && p.pools[PoolPair(assets, j)] == PoolRecord(o, defaults, assets, j)
  {
    RunPoolsLast(o, defaults, ammId, assets, t, pools, 0, j);
  }

  /** With no pair repeated, pool `j`'s pair holds pool `j`'s record, and a
      map that started empty ends with exactly one entry per pool set up. */
  lemma TopologyPoolRecords(o: Oracles, defaults: ConfigDefaults, ammId: ContractId, assets: seq<AssetId>,
                            t: seq<Call>, pools: map<AssetPair, ExchangeContract>, j: nat)
    requires DistinctPairs(assets)
    requires j < Topology(o, defaults, ammId, assets, t, pools).done
    ensures j + 1 < |assets|
    ensures var p := Topology(o, defaults, ammId, assets, t, pools);
      PoolPair(assets, j) in p.pools && p.pools[PoolPair(assets, j)] == PoolRecord(o, defaults, assets, j)
    ensures pools == map[] ==> |Topology(o, defaults, ammId, assets, t, pools).pools| == Topology(o, defaults, ammId, assets, t, pools).done
  {
    var p := Topology(o, defaults, ammId, assets, t, pools);
    RunBounds(o, defaults, ammId, assets, t, pools, 0);
    assert LastWithPair(assets, j, p.done);
    RunPoolsLast(o, defaults, ammId, assets, t, pools, 0, j);
    if pools == map[] {
      RunPools(o, defaults, ammId, assets, t, pools, 0);
      PairsBetweenSize(assets, 0, p.done);
      assert p.pools.Keys == PairsBetween(assets, 0, p.done);
    }
  }

  /** No block height the ledger reports is within ten of the `u64` limit. */
  ghost predicate HeightsBounded(o: Oracles) {
    forall t :: o.latestHeight(t) as int + DeadlineLookahead <= U64Max
  }

  lemma {:induction false} RunCompletes(o: Oracles, defaults: ConfigDefaults, ammId: ContractId, assets: seq<AssetId>,
                                        t: seq<Call>, pools: map<AssetPair, ExchangeContract>, i: nat)
    requires HeightsBounded(o)
    requires i < |assets| && SeedAmount * (|assets| - 1) <= U64Max
    ensures Run(o, defaults, ammId, assets, t, pools, i).outcome == Completed
    ensures Run(o, defaults, ammId, assets, t, pools, i).done == |assets| - 1
    decreases |assets| - i
  {
    if i + 1 < |assets| {
      assert o.latestHeight(t) as int + DeadlineLookahead <= U64Max;
      assert SeedAmount * (i + 1) <= SeedAmount * (|assets| - 1);
      match Iteration(o, defaults, ammId, assets, t, i)
      case Ok(calls) =>
        RunCompletes(o, defaults, ammId, assets, t + calls,
                     pools[PoolPair(assets, i) := PoolRecord(o, defaults, assets, i)], i + 1);
    }
  }

  /** When no amount can overflow, the chain builder sets up all `n - 1`
      pools of a non-empty list; a list of one asset sets up none. */
  lemma TopologyCompletes(o: Oracles, defaults: ConfigDefaults, ammId: ContractId, assets: seq<AssetId>,
                          t: seq<Call>, pools: map<AssetPair, ExchangeContract>)
    requires HeightsBounded(o)
    requires |assets| > 0 && SeedAmount * (|assets| - 1) <= U64Max
    ensures var p := Topology(o, defaults, ammId, assets, t, pools);
      p.outcome == Completed && p.done == |assets| - 1 && |p.trace| == |t| + 6 * (|assets| - 1)
  {
    RunCompletes(o, defaults, ammId, assets, t, pools, 0);
    RunBounds(o, defaults, ammId, assets, t, pools, 0);
  }

  /** Assets X, Y, Z whose two pairs differ give two pools, (X, Y)
      deployed with salt 0 and (Y, Z) with salt 1, and the map holds exactly
      those two pairs. */
  lemma ChainOfThreePools(o: Oracles, defaults: ConfigDefaults, ammId: ContractId, x: AssetId, y: AssetId, z: AssetId,
                          t: seq<Call>)
    requires HeightsBounded(o)
    requires (x, y) != (y, z)
    ensures var p := Topology(o, defaults, ammId, [x, y, z], t, map[]);
      var (binary, storage) := ExchangeArtifacts(defaults.malicious);
      && p.outcome == Completed
      && |p.trace| == |t| + 12
      && p.pools.Keys == {(x, y), (y, z)}
      && p.pools[(x, y)].id == o.contractId(binary, storage, Some(PoolSalt(0)))
      && p.pools[(y, z)].id == o.contractId(binary, storage, Some(PoolSalt(1)))
  {
    var assets := [x, y, z];
    TopologyCompletes(o, defaults, ammId, assets, t, map[]);
    TopologyPools(o, defaults, ammId, assets, t, map[]);
    assert PairsBetween(assets, 0, 2) == {(x, y), (y, z)};
    TopologyPoolRecords(o, defaults, ammId, assets, t, map[], 0);
    TopologyPoolRecords(o, defaults, ammId, assets, t, map[], 1);
  }

  /** A repeated pair is overwritten: for X, X, X both pools have the pair
      (X, X), and the map keeps only the second, deployed with salt 1. */
  lemma ChainOfRepeatedPair(o: Oracles, defaults: ConfigDefaults, ammId: ContractId, x: AssetId, t: seq<Call>)
    requires HeightsBounded(o)
    ensures var p := Topology(o, defaults, ammId, [x, x, x], t, map[]);
      var (binary, storage) := ExchangeArtifacts(defaults.malicious);
      && p.outcome == Completed
      && |p.trace| == |t| + 12
      && p.pools.Keys == {(x, x)}
      && p.pools[(x, x)] == PoolRecord(o, defaults, [x, x, x], 1)
      && p.pools[(x, x)].id == o.contractId(binary, storage, Some(PoolSalt(1)))
  {
    var assets := [x, x, x];
    TopologyCompletes(o, defaults, ammId, assets, t, map[]);
    TopologyPools(o, defaults, ammId, assets, t, map[]);
    assert PairsBetween(assets, 0, 2) == {(x, x)};
    TopologyLastPoolRecord(o, defaults, ammId, assets, t, map[], 1);
  }

  /** In that chain, pool (X, Y) is seeded 100_000 and 100_000, and pool
      (Y, Z) 100_000 and 200_000: a 1:1 and a 1:2 ratio. */
  lemma ChainOfThreeDeposits(o: Oracles, defaults: ConfigDefaults, ammId: ContractId, x: AssetId, y: AssetId, z: AssetId,
                             t: seq<Call>)
    requires HeightsBounded(o)
    ensures |t| + 12 <= |Topology(o, defaults, ammId, [x, y, z], t, map[]).trace|
    ensures var p := Topology(o, defaults, ammId, [x, y, z], t, map[]);
      var first := PoolRecord(o, defaults, [x, y, z], 0).id;
      var second := PoolRecord(o, defaults, [x, y, z], 1).id;
      && p.trace[|t| + 2] == Call.Deposit(first, 100_000, x)
      && p.trace[|t| + 3] == Call.Deposit(first, 100_000, y)
      && p.trace[|t| + 8] == Call.Deposit(second, 100_000, y)
      && p.trace[|t| + 9] == Call.Deposit(second, 200_000, z)
  {
    var assets := [x, y, z];
    TopologyCompletes(o, defaults, ammId, assets, t, map[]);
    var p := Topology(o, defaults, ammId, assets, t, map[]);
    TopologyPoolCalls(o, defaults, ammId, assets, t, map[], 0);
    assert p.trace[|t|..|t| + 6][2] == p.trace[|t| + 2];
    assert p.trace[|t|..|t| + 6][3] == p.trace[|t| + 3];
    TopologyPoolCalls(o, defaults, ammId, assets, t, map[], 1);
    assert p.trace[|t| + 6..|t| + 12][2] == p.trace[|t| + 8];
    assert p.trace[|t| + 6..|t| + 12][3] == p.trace[|t| + 9];
  }

  // ---------------------------------------------------------------------
  // Salts and identities

  /** Two pool salts are equal exactly when the indices agree modulo 256. */
  lemma PoolSaltsEqual(i: nat, j: nat)
    ensures PoolSalt(i) == PoolSalt(j) <==> i % 256 == j % 256
  {
    if PoolSalt(i) == PoolSalt(j) {
      assert PoolSalt(i).bytes[0] == PoolSalt(j).bytes[0];
    }
  }

  /** If the ledger's addressing separates salts, the first 256 pools of a
      chain get pairwise distinct identities. */
  lemma DistinctPoolIds(o: Oracles, defaults: ConfigDefaults, assets: seq<AssetId>, i: nat, j: nat)
    requires SaltSeparating(o)
    requires i + 1 < |assets| && j + 1 < |assets|
    requires i < 256 && j < 256 && i != j
    ensures PoolRecord(o, defaults, assets, i).id != PoolRecord(o, defaults, assets, j).id
  {
    PoolSaltsEqual(i, j);
  }

  /** The `u8` cast wraps: pool `i + 256` is deployed with pool `i`'s salt and
      the same artefacts, so it is given the same identity. */
  lemma PoolIdsRepeat(o: Oracles, defaults: ConfigDefaults, assets: seq<AssetId>, i: nat)
    requires i + 257 < |assets|
    ensures PoolRecord(o, defaults, assets, i).id == PoolRecord(o, defaults, assets, i + 256).id
  {
    PoolSaltsEqual(i, i + 256);
  }
}
