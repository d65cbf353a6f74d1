# AMM test-utils setup, modelled in Dafny

This project models the orchestration logic of the AMM test harness in
`AMM/project/test-utils/src/setup.rs`. The harness is a client-side layer over
a Fuel ledger. It deploys exchange contracts (legitimate or malicious) under
deterministic salts. It constructs and funds them. It chains them into pools
over an ordered list of assets and registers each pool with the AMM contract.
It also assembles the coin inputs and variable outputs of a script
transaction.

The ledger is not reproduced. The class `Ledger.Ledger` records every
state-changing call the harness submits, in order, as a trace of `Call`
values. Everything the ledger or the SDK computes comes from `Ledger.Oracles`,
a record of uninterpreted functions:

- a contract's identity, from binary, storage image and salt;
- a binary's bytecode root;
- the latest block height, given the calls submitted so far;
- the liquidity an `add_liquidity` call reports.

Coin selection is the uninterpreted `Transactions.CoinSelector`. Panics in
the source become explicit results (`Types.Panic`), never preconditions:

- the `len() - 1` underflow on an empty asset list;
- the `u64` overflows of `100_000 * (i + 1)` and `height + 10` (Rust debug
  builds check them);
- `unwrap` on a missing amount or on a failed provider query;
- the `panic!` on a resource that is not a coin.

Modules:

- `Types`: integers, identifiers and panics.
- `Ledger`: the trace and the oracles.
- `Common`: the source's `common` module.
- `Scripts`: the pool chain and `contract_instances`, from the source's
  `scripts` module.
- `Transactions`: transaction assembly, also from `scripts`.

Facts about the code that the model keeps as they are:

- The minimum liquidity of every pool is the constant `100_000`. That equals
  the smaller deposit, as the comment at setup.rs:248 says, because the first
  deposit is always `100_000`.
- Nothing canonicalises pairs. Pool `i` is keyed by `(assets[i], assets[i+1])`
  exactly as given, so `(X, Y)` and `(Y, X)` are different keys.
- The pool map gains one entry per pool only when no pair repeats. An asset
  may be listed twice (`[X, Y, X]` gives two entries). A repeated pair is
  overwritten by the last pool that has it: `Scripts.TopologyLastPoolRecord`
  and `Scripts.ChainOfRepeatedPair`.
- An empty asset list panics on `len() - 1`. A list of one asset sets up no
  pool and makes no call (`Scripts.TopologyOutcome`).
- The code does not guarantee at least one input per asset. That depends on
  what the provider returns. `Transactions.AssembledInputsCover` states
  coverage only under the provider's promise `SelectionCovers`.

## Model

| member | source | states |
|---|---|---|
| `Common.DeployAmm` | AMM/project/test-utils/src/setup.rs:34-54 | Deploys the AMM binary and storage without a salt. The returned AMM has that deployment's identity and handle and an empty pool map. The trace gains exactly that one deployment. |
| `Common.ExchangeArtifacts` | AMM/project/test-utils/src/setup.rs:86-96 | Binary and storage always come from the same variant: the binary is the malicious one iff `malicious`, and so is the storage. Neither is the AMM's. |
| `Common.ExchangeRecord` | AMM/project/test-utils/src/setup.rs:64-73 | The record's pair is `config.pair` and its instance is a handle on its own id. `bytecode_root` is `Some` exactly when `compute_bytecode_root` holds. Its value is then the root of the legitimate exchange binary, even for a malicious deployment. |
| `Common.DeployExchange` | AMM/project/test-utils/src/setup.rs:82-115 | The id is the identity the ledger assigns to the chosen artefacts under `config.salt`. The trace gains exactly that deployment. |
| `Common.DeployAndConstructExchange` | AMM/project/test-utils/src/setup.rs:56-74 | Returns `ExchangeRecord(config)`. The trace gains the deployment, then `constructor(config.pair)` on the new identity, and nothing else. |
| `Common.DepositAndAddLiquidityWithResponse` | AMM/project/test-utils/src/setup.rs:117-143 | The trace gains exactly three calls, in order: `deposit(amounts.0, pair.0)`, `deposit(amounts.1, pair.1)`, `add_liquidity(liquidity, deadline)`. The response holds the value `add_liquidity` reported. |
| `Common.DepositAndAddLiquidity` | AMM/project/test-utils/src/setup.rs:146-154 | The same three calls in the same order. Returns exactly the value `add_liquidity` reported. |
| `Scripts.ContractInstances` | AMM/project/test-utils/src/setup.rs:197-203 | Length is `pools.len() + 1` and the last element is the AMM's instance. Element `k` is the instance of the `k`-th key in the map's iteration order. Every pool's instance appears before the AMM's. |
| `Scripts.SetupExchangeContract` | AMM/project/test-utils/src/setup.rs:205-215 | Returns the record of the deployed exchange. The trace gains deploy and construct, then the three liquidity calls. |
| `Scripts.SetupExchangeContracts` | AMM/project/test-utils/src/setup.rs:217-259 | The final trace, pool map and outcome are exactly those of `Topology`, the index-by-index specification of the loop. Its properties are stated by the `Topology*`, `ChainOfThree*` and salt lemmas below. |
| `Scripts.IterationCalls` | AMM/project/test-utils/src/setup.rs:228-256 | Iteration `i` either panics, first on the seed overflow and then on the deadline overflow, or issues exactly six calls. They are: deploy with salt `[i as u8; 32]`; construct with `(a[i], a[i+1])`; deposit `100_000` of `a[i]`; deposit `100_000 * (i + 1)` of `a[i+1]`; add `100_000` liquidity with deadline `height + 10`; `add_pool` of the pair with the id from that same deployment. |
| `Scripts.TopologyOutcome` | AMM/project/test-utils/src/setup.rs:223-258 | An empty list panics before any call and changes nothing. A single asset completes with no call and no pool. Otherwise pools `0, 1, …` are set up in turn. The run completes iff all `n - 1` pools are done. A stopped run stops at pool `p.done`, before any call for it. It names the seed overflow when `100_000 * (p.done + 1)` exceeds `u64`. It names the deadline overflow when that fits but the latest height plus 10 does not. The trace grows by exactly six calls per pool and keeps its old prefix. |
| `Scripts.TopologyPoolCalls` | AMM/project/test-utils/src/setup.rs:228-256 | Pool `j` of the chain occupies trace positions `\|t\| + 6j … + 5`. They hold: its deployment with salt `[j as u8; 32]`; `constructor(a[j], a[j+1])`; deposits of `100_000` and `100_000 * (j + 1)`; `add_liquidity(100_000, h + 10)` with `h` the height reported after everything before it; and `add_pool` with that pool's own deployed id, after its liquidity. |
| `Scripts.TopologyPools` | AMM/project/test-utils/src/setup.rs:254-256 | The pool map only grows. Its keys become the old keys plus the pair of every pool set up. Old entries whose keys are not such a pair keep their values. |
| `Scripts.TopologyLastPoolRecord` | AMM/project/test-utils/src/setup.rs:233-256 | When no later pool set up has pool `j`'s pair, that pair maps to pool `j`'s own record: its deployed id, its handle, its pair and the configured root. So a repeated pair keeps the record of the last pool that inserted it. |
| `Scripts.TopologyPoolRecords` | AMM/project/test-utils/src/setup.rs:233-256 | When no two pools share a pair, pool `j`'s pair maps to pool `j`'s own record. A map that started empty then ends with exactly one entry per pool set up. |
| `Scripts.TopologyCompletes` | AMM/project/test-utils/src/setup.rs:223-258 | When no height is within ten of the `u64` limit and `100_000 * (n - 1)` fits in `u64`, a non-empty list completes. It sets up exactly `n - 1` pools in `6 (n - 1)` calls. |
| `Scripts.ChainOfThreePools` | AMM/project/test-utils/src/setup.rs:223-258 | For X, Y, Z with `(X, Y) != (Y, Z)`, and no height within ten of the `u64` limit, the run completes with 12 calls. The map's keys are exactly `{(X, Y), (Y, Z)}`, deployed with salts 0 and 1. |
| `Scripts.ChainOfRepeatedPair` | AMM/project/test-utils/src/setup.rs:254-256 | For X, X, X, with heights as above, the run completes with 12 calls. The map has the single key `(X, X)`, holding the second pool's record, deployed with salt 1. |
| `Scripts.ChainOfThreeDeposits` | AMM/project/test-utils/src/setup.rs:242-250 | For any X, Y, Z, with heights as above, pool (X, Y) gets deposits of 100_000 and 100_000, and pool (Y, Z) gets deposits of 100_000 and 200_000. |
| `Scripts.PoolSaltsEqual` | AMM/project/test-utils/src/setup.rs:239-240 | Two pool salts are equal iff their indices agree modulo 256, because `as u8` wraps. |
| `Scripts.DistinctPoolIds` | AMM/project/test-utils/src/setup.rs:239-240 | If the ledger's addressing separates salts, pools with distinct indices below 256 get distinct identities. |
| `Scripts.PoolIdsRepeat` | AMM/project/test-utils/src/setup.rs:239-240 | Pool `i + 256` is given the same identity as pool `i`, whatever the ledger's addressing, since the salt wraps. |
| `Transactions.CoinInputs` | AMM/project/test-utils/src/setup.rs:272-289 | Succeeds iff every selected resource is a coin, and otherwise panics with "resource type does not match". On success there is one input per coin, in order. Each input carries the coin's `utxo_id` and amount, the requested `asset_id`, `owner = from`, the default tx pointer, witness index 0 and maturity 0. |
| `Transactions.AssetInputsShape` | AMM/project/test-utils/src/setup.rs:261-292 | Asset `i` requests `amounts[i]`, or `1_000_000` when no amounts are given. It panics when the list is too short. Otherwise it succeeds iff the provider answers and returns only coins. Each input spends one selected coin for asset `i`, owned by `from`. |
| `Transactions.TransactionInputsOutputs` | AMM/project/test-utils/src/setup.rs:302-332 | The result is exactly `Assemble`. On success there are `assets.len()` outputs, each `Variable{amount: 0, to: zero address, asset_id: default}`. |
| `Transactions.AssembleOk` | AMM/project/test-utils/src/setup.rs:294-332 | The call succeeds iff every asset's inputs succeed. The inputs are then the concatenation, in asset order, of every asset's inputs. The outputs are one variable output per asset. |
| `Transactions.ShortAmountsPanic` | AMM/project/test-utils/src/setup.rs:317-321 | Amounts shorter than assets always panic. When every asset with an amount succeeds, the panic is the missing amount of the first asset without one. |
| `Transactions.AssembledInputsCover` | AMM/project/test-utils/src/setup.rs:267-270 | If the provider's selections cover what is requested, then after a successful call the inputs gathered for asset `i` add up to at least the amount requested for it. |

## Left out

- `setup_wallet_and_provider` (setup.rs:166-183): funding a random wallet and starting a test node are I/O. The wallet that signs every call is implicit: it is the only caller.
- `deploy_and_initialize_amm` (setup.rs:76-80): the `initialize` call on the AMM contract is not modelled. Only `deploy_amm`'s empty pool map is.
- Contract deployment, `Contract::load_contract` and `root_from_code` are oracles (`Oracles.contractId`, `Oracles.bytecodeRoot`). Hash collision resistance is not modelled. `DistinctPoolIds` takes salt separation as a hypothesis.
- Ledger-side failures (a rejected deployment, a reverted deposit or `add_liquidity`, a failure to read bytecode from disk) are unwrapped by the source and panic inside the SDK. The model's ledger calls always succeed. In particular, from pool 256 on, the wrapped salt makes the chain deploy to an identity it has already used (`PoolIdsRepeat`). A real node refuses that deploy or the second `constructor`, and the source then panics. `TopologyCompletes` still reports completion for such chains, because the model has no refusals.
- Release builds, where Rust's overflow checks are off and `100_000 * (i + 1)` and `height + 10` wrap instead of panicking, are not modelled. The model follows the checked arithmetic of a debug build.
- The exchange's and AMM's on-chain logic (deadline and slippage checks, minted liquidity) runs in the contracts. It appears only as the `minted` oracle.
- The provider's coin-selection algorithm is the `CoinSelector` oracle. The claim that a selection covers its request is the hypothesis `SelectionCovers`, not a checked fact.
- `async`/`await`, `TxParameters`, the `override_gas_limit` flag, and the parts of `FuelCallResponse` other than its value are transport concerns.
- `data_structures.rs` is not part of this model. The defaults `ExchangeContractConfiguration::new` uses for the two flags left `None` by the chain builder are the `ConfigDefaults` parameter.
- `HashMap` iteration order in `contract_instances` is unspecified. It is an explicit `order` parameter that lists each key once.
- `Bech32Address` is taken as the `Address` it converts to. Of a coin, only the fields the code reads (`utxo_id`, `amount`) matter. A message resource carries only an amount and a nonce.
- `usize` is treated as 64 bits wide, so `exchange_index as u64` is exact. Block heights are `u64`.
