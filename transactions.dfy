/** The transaction half of the `scripts` part of the setup code: the inputs
    that spend a wallet's coins of several assets and one variable output per
    asset, for a script transaction. */
module Transactions {
  import opened Types

  datatype UtxoId = UtxoId(txId: Bytes32, outputIndex: U8)

  /** `TxPointer`; the setup code only ever uses its default. */
  datatype TxPointer = TxPointer(blockHeight: U64, txIndex: U64)

  const DefaultTxPointer: TxPointer := TxPointer(0, 0)

  /** The fields of a spendable coin the model keeps. */
  datatype SpendableCoin = SpendableCoin(utxoId: UtxoId, amount: U64, assetId: AssetId, owner: Address)

  /** A spendable message: a resource kind these inputs cannot spend. */
  datatype SpendableMessage = SpendableMessage(amount: U64, nonce: Bytes32)

  /** `Resource`, as the provider's coin selection returns it. */
  datatype Resource = Coin(coin: SpendableCoin) | Message(message: SpendableMessage)

  /** The `Input` variant the setup code builds. */
  datatype Input = CoinSigned(
    utxoId: UtxoId,
    owner: Address,
    amount: U64,
    assetId: AssetId,
    txPointer: TxPointer,
    witnessIndex: U8,
    maturity: U64)

  /** The `Output` variant the setup code builds. */
  datatype Output = Variable(amount: U64, to: Address, assetId: AssetId)

  datatype TransactionParameters = TransactionParameters(inputs: seq<Input>, outputs: seq<Output>)

  datatype ProviderError = ProviderError(message: string)

  /** `provider.get_spendable_resources(owner, asset, amount)`: the ledger's
      coin selection, not reproduced. */
  type CoinSelector = (Address, AssetId, U64) -> Result<seq<Resource>, ProviderError>

  /** The request used when the caller gives no amounts. */
  const MaximumInputAmount: U64 := 1_000_000

  // ---------------------------------------------------------------------
  // transaction_input_coin and transaction_output_variable

  /** The closure of `transaction_input_coin`: a coin becomes a signed input
      of the requested asset owned by `from`; anything else panics. */
  function CoinInput(from: Address, assetId: AssetId, resource: Resource): Result<Input, Panic> {
    match resource
    case Coin(coin) => Ok(CoinSigned(coin.utxoId, from, coin.amount, assetId, DefaultTxPointer, 0, 0))
    case Message(_) => Err(ResourceTypeMismatch)
  }

  /** The `map(...).collect()` of `transaction_input_coin`: one input per
      selected coin, in selection order. */
  function CoinInputs(from: Address, assetId: AssetId, coins: seq<Resource>): (r: Result<seq<Input>, Panic>)
    ensures r.Ok? <==> forall k :: 0 <= k < |coins| ==> coins[k].Coin?
    ensures r.Err? ==> r.error == ResourceTypeMismatch
    ensures r.Ok? ==> |r.value| == |coins|
    ensures r.Ok? ==> forall k :: 0 <= k < |coins| ==>
      r.value[k] == CoinSigned(coins[k].coin.utxoId, from, coins[k].coin.amount, assetId, DefaultTxPointer, 0, 0)
  {
    if coins == [] then Ok([])
    else match CoinInput(from, assetId, coins[0])
      case Err(e) => Err(e)
      case Ok(input) =>
        match CoinInputs(from, assetId, coins[1..])
        case Err(e) => Err(e)
        case Ok(rest) => Ok([input] + rest)
  }

  /** `transaction_input_coin`: query the provider (its error is unwrapped,
      so it panics) and turn the selection into inputs. */
  function TransactionInputCoin(select: CoinSelector, from: Address, assetId: AssetId, amount: U64): Result<seq<Input>, Panic> {
    match select(from, assetId, amount)
    case Err(_) => Err(ResourcesUnavailable(assetId))
    case Ok(coins) => CoinInputs(from, assetId, coins)
  }

  /** `transaction_output_variable`. */
  function TransactionOutputVariable(): Output {
    Variable(0, ZeroAddress, DefaultAssetId)
  }

  // ---------------------------------------------------------------------
  // transaction_inputs_outputs, as a specification

  /** The amount requested for asset `i`: `amounts[i]`, which panics when the
      list is too short, or the maximum when no amounts are given. */
  function RequestAmount(amounts: Option<seq<U64>>, i: nat): Result<U64, Panic> {
    match amounts
    case None => Ok(MaximumInputAmount)
    case Some(list) => if i < |list| then Ok(list[i]) else Err(AmountMissing(i))
  }

  /** The inputs contributed by asset `i`. */
  function AssetInputs(select: CoinSelector, from: Address, assets: seq<AssetId>, amounts: Option<seq<U64>>, i: nat)
    : Result<seq<Input>, Panic>
    requires i < |assets|
  {
    match RequestAmount(amounts, i)
    case Err(e) => Err(e)
    case Ok(amount) => TransactionInputCoin(select, from, assets[i], amount)
  }

  /** The inputs of the first `n` assets, one group per asset, or the panic
      of the first asset that fails. */
  function InputGroups(select: CoinSelector, from: Address, assets: seq<AssetId>, amounts: Option<seq<U64>>, n: nat)
    : Result<seq<seq<Input>>, Panic>
    requires n <= |assets|
  {
    if n == 0 then Ok([])
    else match InputGroups(select, from, assets, amounts, n - 1)
      case Err(e) => Err(e)
      case Ok(groups) =>
        match AssetInputs(select, from, assets, amounts, n - 1)
        case Err(e) => Err(e)
        case Ok(group) => Ok(groups + [group])
  }

  function Flatten(groups: seq<seq<Input>>): seq<Input> {
    if groups == [] then [] else Flatten(groups[..|groups| - 1]) + groups[|groups| - 1]
  }

  /** The whole result of `transaction_inputs_outputs`. */
  function Assemble(select: CoinSelector, from: Address, assets: seq<AssetId>, amounts: Option<seq<U64>>)
    : Result<TransactionParameters, Panic>
  {
    match InputGroups(select, from, assets, amounts, |assets|)
    case Err(e) => Err(e)
    case Ok(groups) => Ok(TransactionParameters(Flatten(groups), seq(|assets|, _ => TransactionOutputVariable())))
  }

  // ---------------------------------------------------------------------
  // The method

  /** `transaction_inputs_outputs`: for each asset in order, extend the inputs
      with its coins and push one variable output. */
  method TransactionInputsOutputs(select: CoinSelector, from: Address, assets: seq<AssetId>, amounts: Option<seq<U64>>)
    returns (r: Result<TransactionParameters, Panic>)
    ensures r == Assemble(select, from, assets, amounts)
    ensures r.Ok? ==> |r.value.outputs| == |assets|
    ensures r.Ok? ==> forall k :: 0 <= k < |assets| ==> r.value.outputs[k] == Variable(0, ZeroAddress, DefaultAssetId)
  {
    var inputCoins: seq<Input> := [];
    var outputVariables: seq<Output> := [];
    ghost var groups: seq<seq<Input>> := [];
    for assetIndex := 0 to |assets|
      invariant InputGroups(select, from, assets, amounts, assetIndex) == Ok(groups)
      invariant inputCoins == Flatten(groups)
      invariant outputVariables == seq(assetIndex, _ => TransactionOutputVariable())
    {
      var amount: U64;
      if amounts.Some? {
        if assetIndex >= |amounts.value| {
          ErrorPersists(select, from, assets, amounts, assetIndex + 1, |assets|);
          return Err(AmountMissing(assetIndex));
        }
        amount := amounts.value[assetIndex];
      } else {
        amount := MaximumInputAmount;
      }
      var coins := TransactionInputCoin(select, from, assets[assetIndex], amount);
      if coins.Err? {
        ErrorPersists(select, from, assets, amounts, assetIndex + 1, |assets|);
        return Err(coins.error);
      }
      assert Flatten(groups + [coins.value]) == Flatten(groups) + coins.value by {
        assert (groups + [coins.value])[..|groups|] == groups;
      }
      inputCoins := inputCoins + coins.value;
      outputVariables := outputVariables + [TransactionOutputVariable()];
      groups := groups + [coins.value];
    }
    r := Ok(TransactionParameters(inputCoins, outputVariables));
  }

  // ---------------------------------------------------------------------
  // Properties

  /** Once an asset panics, every longer prefix panics the same way. */
  lemma {:induction false} ErrorPersists(select: CoinSelector, from: Address, assets: seq<AssetId>,
                                         amounts: Option<seq<U64>>, n: nat, m: nat)
    requires n <= m <= |assets|
    requires InputGroups(select, from, assets, amounts, n).Err?
    ensures InputGroups(select, from, assets, amounts, m) == InputGroups(select, from, assets, amounts, n)
    decreases m - n
  {
    if n < m {
      ErrorPersists(select, from, assets, amounts, n, m - 1);
    }
  }

  /** The first `n` assets succeed exactly when each of them does, and then
      group `i` is the inputs of asset `i`. */
  lemma {:induction false} InputGroupsOk(select: CoinSelector, from: Address, assets: seq<AssetId>,
                                         amounts: Option<seq<U64>>, n: nat)
    requires n <= |assets|
    ensures var r := InputGroups(select, from, assets, amounts, n);
      && (r.Ok? <==> forall i :: 0 <= i < n ==> AssetInputs(select, from, assets, amounts, i).Ok?)
      && (r.Ok? ==> |r.value| == n)
      && (r.Ok? ==> forall i :: 0 <= i < n ==> r.value[i] == AssetInputs(select, from, assets, amounts, i).value)
  {
    if n > 0 {
      InputGroupsOk(select, from, assets, amounts, n - 1);
    }
  }

  /** What asset `i` contributes: it succeeds exactly when its amount is
      there, the provider answers and every selected resource is a coin; each
      input then spends one selected coin, in order, for the requested asset,
      owned by `from`, with witness index and maturity 0. */
  lemma AssetInputsShape(select: CoinSelector, from: Address, assets: seq<AssetId>, amounts: Option<seq<U64>>, i: nat)
    requires i < |assets|
    ensures var amount := if amounts.Some? && i < |amounts.value| then amounts.value[i] else MaximumInputAmount;
      var r := AssetInputs(select, from, assets, amounts, i);
      var selection := select(from, assets[i], amount);
      && (amounts.Some? && i >= |amounts.value| ==> r == Err(AmountMissing(i)))
      && (r.Ok? <==> (amounts.None? || i < |amounts.value|) && selection.Ok?
                     && forall k :: 0 <= k < |selection.value| ==> selection.value[k].Coin?)
      && (r.Ok? ==> |r.value| == |selection.value|)
      && (r.Ok? ==> forall k :: 0 <= k < |r.value| ==>
            && r.value[k].utxoId == selection.value[k].coin.utxoId
            && r.value[k].amount == selection.value[k].coin.amount
            && r.value[k].assetId == assets[i]
            && r.value[k].owner == from
            && r.value[k].txPointer == DefaultTxPointer
            && r.value[k].witnessIndex == 0
            && r.value[k].maturity == 0)
  {
  }

  /** `transaction_inputs_outputs` succeeds exactly when every asset does;
      its inputs are then the concatenation, in asset order, of what each
      asset contributes, and there is one variable output per asset. */
  lemma AssembleOk(select: CoinSelector, from: Address, assets: seq<AssetId>, amounts: Option<seq<U64>>)
    ensures var r := Assemble(select, from, assets, amounts);
      && (r.Ok? <==> forall i :: 0 <= i < |assets| ==> AssetInputs(select, from, assets, amounts, i).Ok?)
      && (r.Ok? ==>
            var groups := InputGroups(select, from, assets, amounts, |assets|).value;
            && |groups| == |assets|
            && (forall i :: 0 <= i < |assets| ==> groups[i] == AssetInputs(select, from, assets, amounts, i).value)
            && r.value.inputs == Flatten(groups)
            && r.value.outputs == seq(|assets|, _ => Variable(0, ZeroAddress, DefaultAssetId)))
  {
    InputGroupsOk(select, from, assets, amounts, |assets|);
  }

  /** Given a list of amounts shorter than the list of assets, the call
      panics; when every asset before the first one without an amount
      succeeds, it panics on that asset's missing amount. */
  lemma ShortAmountsPanic(select: CoinSelector, from: Address, assets: seq<AssetId>, amounts: seq<U64>)
    requires |amounts| < |assets|
    ensures Assemble(select, from, assets, Some(amounts)).Err?
    ensures (forall i :: 0 <= i < |amounts| ==> AssetInputs(select, from, assets, Some(amounts), i).Ok?) ==>
      Assemble(select, from, assets, Some(amounts)) == Err(AmountMissing(|amounts|))
  {
    var m := |amounts|;
    InputGroupsOk(select, from, assets, Some(amounts), m);
    assert AssetInputs(select, from, assets, Some(amounts), m) == Err(AmountMissing(m));
    if InputGroups(select, from, assets, Some(amounts), m).Ok? {
      assert InputGroups(select, from, assets, Some(amounts), m + 1) == Err(AmountMissing(m));
    }
    ErrorPersists(select, from, assets, Some(amounts), m + 1, |assets|);
  }

  // ---------------------------------------------------------------------
  // Coverage, under the provider's promise

  function ResourceAmount(resource: Resource): U64 {
    match resource
    case Coin(coin) => coin.amount
    case Message(message) => message.amount
  }

  function SumResources(resources: seq<Resource>): int {
    if resources == [] then 0 else ResourceAmount(resources[0]) as int + SumResources(resources[1..])
  }

  function SumInputs(inputs: seq<Input>): int {
    if inputs == [] then 0 else inputs[0].amount as int + SumInputs(inputs[1..])
  }

  /** The provider's promise: a selection it returns covers the request. The
      setup code relies on it and does not check it. */
  ghost predicate SelectionCovers(select: CoinSelector) {
    forall owner, asset, amount :: select(owner, asset, amount).Ok? ==>
      SumResources(select(owner, asset, amount).value) >= amount as int
  }

  /** The inputs built from a selection carry its total amount. */
  lemma {:induction false} CoinInputsKeepTotal(from: Address, assetId: AssetId, coins: seq<Resource>)
    requires CoinInputs(from, assetId, coins).Ok?
    ensures SumInputs(CoinInputs(from, assetId, coins).value) == SumResources(coins)
  {
    if coins != [] {
      CoinInputsKeepTotal(from, assetId, coins[1..]);
    }
  }

  /** If the provider keeps its promise, the inputs a successful call
      gathers for asset `i` add up to at least the amount requested for it. */
  lemma AssembledInputsCover(select: CoinSelector, from: Address, assets: seq<AssetId>, amounts: Option<seq<U64>>, i: nat)
    requires SelectionCovers(select)
    requires Assemble(select, from, assets, amounts).Ok?
    requires i < |assets|
    ensures AssetInputs(select, from, assets, amounts, i).Ok?
    ensures var amount := if amounts.Some? then amounts.value[i] else MaximumInputAmount;
      SumInputs(AssetInputs(select, from, assets, amounts, i).value) >= amount as int
  {
    AssembleOk(select, from, assets, amounts);
    assert AssetInputs(select, from, assets, amounts, i).Ok?;
    AssetInputsShape(select, from, assets, amounts, i);
    var amount := if amounts.Some? then amounts.value[i] else MaximumInputAmount;
    var selection := select(from, assets[i], amount);
    CoinInputsKeepTotal(from, assets[i], selection.value);
  }
}
