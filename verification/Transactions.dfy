/**
 The transaction builders. The SDK's key, address, script and signing functions are
 uninterpreted and may fail; a signature is a function of the key, the unsigned transaction
 and the input's index.
 */
module Transactions {
  import opened Wrappers
  import opened Scripts
  import opened Fees

  type U64 = n: nat | n <= U64_MAX

  const TWO_TO_64: nat := U64_MAX + 1

  datatype Utxo = Utxo(txid: string, vout: nat, satoshis: U64, script: string)

  // A coin to spend and the key that signs for it.
  datatype Coin = Coin(utxo: Utxo, wif: string)

  datatype Output = Output(satoshis: U64, script: Bytes)

  datatype Payment = ToAddress(address: string, satoshis: U64) | ToScript(script: Bytes, satoshis: U64)

  // The part of a transaction that is signed.
  datatype Unsigned = Unsigned(coins: seq<Utxo>, outputs: seq<Output>)

  datatype Sdk = Sdk(
    addressOf: string -> Option<string>,
    payTo: string -> Option<Bytes>,
    base58: string -> Option<Bytes>,
    utf8: string -> Bytes,
    accepts: Utxo -> bool,
    sign: (string, Unsigned, nat) -> Option<string>)

  datatype Error =
    | TooFewCoins
    | NoOutputs
    | NoContent
    | BadAmount(text: string)
    | NothingLeft(have: nat, fee: nat)
    | BadKey(wif: string)
    | BadAddress(address: string)
    | BadInput(utxo: Utxo)
    | BadScript(text: string)
    | ZeroOutput
    | Insufficient(paid: nat, fee: nat, have: nat)
    | SignFailed(index: nat)

  datatype Built = Built(
    inputs: seq<Utxo>, unlocking: seq<Option<string>>, outputs: seq<Output>,
    fee: nat, change: nat, changeAddress: string)

  // ---------- Sums ----------

  function SumCoins(coins: seq<Utxo>): nat {
    if coins == [] then 0 else SumCoins(coins[..|coins| - 1]) + coins[|coins| - 1].satoshis
  }

  function SumOutputs(outputs: seq<Output>): nat {
    if outputs == [] then 0 else SumOutputs(outputs[..|outputs| - 1]) + outputs[|outputs| - 1].satoshis
  }

  function Utxos(coins: seq<Coin>): (u: seq<Utxo>)
    ensures |u| == |coins| && forall i :: 0 <= i < |coins| ==> u[i] == coins[i].utxo
  {
    seq(|coins|, i requires 0 <= i < |coins| => coins[i].utxo)
  }

  function SignedBy(utxos: seq<Utxo>, wif: string): (coins: seq<Coin>)
    ensures |coins| == |utxos| && forall i :: 0 <= i < |utxos| ==> coins[i] == Coin(utxos[i], wif)
  {
    seq(|utxos|, i requires 0 <= i < |utxos| => Coin(utxos[i], wif))
  }

  lemma SumsOfOne(coin: Utxo, output: Output, payment: Payment)
    ensures SumCoins([coin]) == coin.satoshis && SumOutputs([output]) == output.satoshis
    ensures SumPayments([payment]) == payment.satoshis
  {
  }

  // A payment to an address becomes an output to it, refused exactly if it is nothing or the
  // address cannot be paid; a payment to a script becomes that output.
  lemma OutputsOfOne(sdk: Sdk, address: string, script: Bytes, satoshis: U64)
    ensures OutputsOf(sdk, [ToScript(script, satoshis)]) == Some([Output(satoshis, script)])
    ensures OutputsOf(sdk, [ToAddress(address, satoshis)]) ==
            if satoshis == 0 || sdk.payTo(address).None? then None else Some([Output(satoshis, sdk.payTo(address).value)])
  {
    OnePayment(sdk, ToScript(script, satoshis));
    OnePayment(sdk, ToAddress(address, satoshis));
  }

  lemma {:induction false} SumCoinsAppends(a: seq<Utxo>, b: seq<Utxo>)
    ensures SumCoins(a + b) == SumCoins(a) + SumCoins(b)
  {
    if b == [] {
      assert a + b == a;
    } else {
      SumCoinsAppends(a, b[..|b| - 1]);
      assert (a + b)[..|a + b| - 1] == a + b[..|b| - 1];
    }
  }

  // Sums of satoshis are taken in 64 bits, without an overflow check.
  function Wrap(n: nat): (w: U64)
    ensures n < TWO_TO_64 <==> w == n
  {
    n % TWO_TO_64
  }

  lemma WrapAdds(a: nat, b: nat)
    ensures Wrap(Wrap(a) + b) == Wrap(a + b)
  {
  }

  // What builders reckon their inputs to be worth.
  function Total(utxos: seq<Utxo>): U64 {
    Wrap(SumCoins(utxos))
  }

  method TotalOf(utxos: seq<Utxo>) returns (total: U64)
    ensures total == Total(utxos)
  {
    total := 0;
    for i := 0 to |utxos|
      invariant total == Total(utxos[..i])
    {
      assert utxos[..i + 1][..i] == utxos[..i];
      WrapAdds(SumCoins(utxos[..i]), utxos[i].satoshis);
      total := Wrap(total + utxos[i].satoshis);
    }
    assert utxos[..|utxos|] == utxos;
  }

  function SumPayments(payments: seq<Payment>): nat {
    if payments == [] then 0 else SumPayments(payments[..|payments| - 1]) + payments[|payments| - 1].satoshis
  }

  function PaidFor(payments: seq<Payment>): U64 {
    Wrap(SumPayments(payments))
  }

  method TotalPaid(payments: seq<Payment>) returns (total: U64)
    ensures total == PaidFor(payments)
  {
    total := 0;
    for i := 0 to |payments|
      invariant total == PaidFor(payments[..i])
    {
      assert payments[..i + 1][..i] == payments[..i];
      WrapAdds(SumPayments(payments[..i]), payments[i].satoshis);
      total := Wrap(total + payments[i].satoshis);
    }
    assert payments[..|payments|] == payments;
  }

  // ---------- What a build has to deliver ----------

  // The built transaction spends exactly the coins, in order, each input unlocked by the
  // signature of its own key over the whole transaction; it makes exactly the payments and,
  // if there is change, one output more to the change address.
  ghost predicate Delivers(sdk: Sdk, b: Built, coins: seq<Coin>, payments: seq<Output>) {
    && b.inputs == Utxos(coins)
    && b.outputs == payments + ChangeOutputs(sdk, b.change, b.changeAddress)
    && |b.unlocking| == |coins|
    && forall i :: 0 <= i < |coins| ==>
         b.unlocking[i].Some? && b.unlocking[i] == sdk.sign(coins[i].wif, Unsigned(b.inputs, b.outputs), i)
  }

  function ChangeOutputs(sdk: Sdk, change: nat, address: string): seq<Output> {
    if change == 0 || change > U64_MAX then []
    else [Output(change, match sdk.payTo(address) case Some(script) => script case None => [])]
  }

  // Inputs are worth outputs and reported fee together.
  predicate Conserves(b: Built) {
    SumCoins(b.inputs) == SumOutputs(b.outputs) + b.fee
  }

  lemma DeliveredSums(sdk: Sdk, b: Built, coins: seq<Coin>, payments: seq<Output>)
    requires Delivers(sdk, b, coins, payments) && b.change <= U64_MAX
    ensures SumOutputs(b.outputs) == SumOutputs(payments) + b.change
    ensures SumCoins(b.inputs) == SumCoins(Utxos(coins))
  {
    var extra := ChangeOutputs(sdk, b.change, b.changeAddress);
    if extra == [] {
      assert payments + extra == payments;
    } else {
      assert (payments + extra)[..|payments|] == payments;
    }
  }

  // ---------- What payments become ----------

  // A payment to an address must be positive; one to a script need not be.
  function OutputOf(sdk: Sdk, p: Payment): Option<Output> {
    match p
    case ToScript(script, satoshis) => Some(Output(satoshis, script))
    case ToAddress(address, satoshis) =>
      if satoshis > 0 && sdk.payTo(address).Some? then Some(Output(satoshis, sdk.payTo(address).value)) else None
  }

  function OutputsOf(sdk: Sdk, payments: seq<Payment>): Option<seq<Output>> {
    if payments == [] then Some([])
    else
      var outputs := OutputsOf(sdk, payments[..|payments| - 1]);
      var output := OutputOf(sdk, payments[|payments| - 1]);
      if outputs.Some? && output.Some? then Some(outputs.value + [output.value]) else None
  }

  lemma {:induction false} OutputsOfPrefix(sdk: Sdk, payments: seq<Payment>, n: nat)
    requires n <= |payments| && OutputsOf(sdk, payments[..n]).None?
    ensures OutputsOf(sdk, payments).None?
    decreases |payments|
  {
    if n == |payments| {
      assert payments[..n] == payments;
    } else {
      assert payments[..|payments| - 1][..n] == payments[..n];
      OutputsOfPrefix(sdk, payments[..|payments| - 1], n);
    }
  }

  // ---------- The SDK's mutable transaction ----------

  class SdkTransaction {
    var coins: seq<Utxo>
    var unlocking: seq<Option<string>>
    var outputs: seq<Output>

    predicate Valid()
      reads this
    {
      |unlocking| == |coins|
    }

    constructor ()
      ensures Valid() && coins == [] && outputs == []
    {
      coins, unlocking, outputs := [], [], [];
    }

    method AddInputs(sdk: Sdk, utxos: seq<Utxo>) returns (error: Option<Error>)
      requires Valid()
      modifies this
      ensures Valid() && outputs == old(outputs)
      ensures error.None? ==> coins == old(coins) + utxos
      ensures error.Some? <==> exists i :: 0 <= i < |utxos| && !sdk.accepts(utxos[i])
    {
      for i := 0 to |utxos|
        invariant Valid() && outputs == old(outputs) && coins == old(coins) + utxos[..i]
        invariant forall k :: 0 <= k < i ==> sdk.accepts(utxos[k])
      {
        if !sdk.accepts(utxos[i]) {
          return Some(BadInput(utxos[i]));
        }
        coins, unlocking := coins + [utxos[i]], unlocking + [None];
      }
      return None;
    }

    method AddOutput(output: Output)
      modifies this`outputs
      ensures outputs == old(outputs) + [output]
    {
      outputs := outputs + [output];
    }

    method AddP2pkhOutput(sdk: Sdk, address: string, satoshis: U64) returns (error: Option<Error>)
      modifies this`outputs
      ensures error.None? <==> satoshis > 0 && sdk.payTo(address).Some?
      ensures error.None? ==> outputs == old(outputs) + [Output(satoshis, sdk.payTo(address).value)]
    {
      if satoshis == 0 {
        return Some(ZeroOutput);
      }
      var script := sdk.payTo(address);
      if script.None? {
        return Some(BadAddress(address));
      }
      AddOutput(Output(satoshis, script.value));
      return None;
    }

    // The change output at the end of every builder.
    method AddChange(sdk: Sdk, address: string, change: U64) returns (error: Option<Error>)
      modifies this`outputs
      ensures error.None? <==> change == 0 || sdk.payTo(address).Some?
      ensures error.None? ==> outputs == old(outputs) + ChangeOutputs(sdk, change, address)
    {
      if change > 0 {
        error := AddP2pkhOutput(sdk, address, change);
      } else {
        error := None;
      }
    }

    method AddPayments(sdk: Sdk, payments: seq<Payment>) returns (error: Option<Error>)
      modifies this`outputs
      ensures error.None? <==> OutputsOf(sdk, payments).Some?
      ensures error.None? ==> outputs == old(outputs) + OutputsOf(sdk, payments).value
    {
      for i := 0 to |payments|
        invariant OutputsOf(sdk, payments[..i]).Some?
        invariant outputs == old(outputs) + OutputsOf(sdk, payments[..i]).value
      {
        assert payments[..i + 1][..i] == payments[..i];
        match payments[i] {
          case ToScript(script, satoshis) =>
            AddOutput(Output(satoshis, script));
          case ToAddress(address, satoshis) =>
            error := AddP2pkhOutput(sdk, address, satoshis);
            if error.Some? {
              OutputsOfPrefix(sdk, payments, i + 1);
              return;
            }
        }
      }
      assert payments[..|payments|] == payments;
      return None;
    }

    // Signs each input with its own key.
    method SignEach(sdk: Sdk, signers: seq<Coin>) returns (error: Option<Error>)
      requires Valid() && |signers| == |coins|
      modifies this`unlocking
      ensures Valid()
      ensures error.None? <==>
                forall k :: 0 <= k < |coins| ==> sdk.sign(signers[k].wif, Unsigned(coins, outputs), k).Some?
      ensures error.None? ==>
                forall k :: 0 <= k < |coins| ==> unlocking[k] == sdk.sign(signers[k].wif, Unsigned(coins, outputs), k)
    {
      for i := 0 to |coins|
        invariant Valid()
        invariant forall k :: 0 <= k < i ==>
                    unlocking[k].Some? && unlocking[k] == sdk.sign(signers[k].wif, Unsigned(coins, outputs), k)
      {
        var script := sdk.sign(signers[i].wif, Unsigned(coins, outputs), i);
        if script.None? {
          return Some(SignFailed(i));
        }
        unlocking := unlocking[i := script];
      }
      return None;
    }
  }

  // ---------- From coins, payments and change to a signed transaction ----------

  // Everything the SDK is asked for works out.
  ghost predicate Works(sdk: Sdk, coins: seq<Coin>, payments: seq<Payment>, change: nat, address: string) {
    && (forall i :: 0 <= i < |coins| ==> sdk.accepts(coins[i].utxo))
    && OutputsOf(sdk, payments).Some?
    && (change > 0 ==> sdk.payTo(address).Some?)
    && var all := Unsigned(Utxos(coins), OutputsOf(sdk, payments).value + ChangeOutputs(sdk, change, address));
       forall i :: 0 <= i < |coins| ==> sdk.sign(coins[i].wif, all, i).Some?
  }

  method Complete(sdk: Sdk, coins: seq<Coin>, payments: seq<Payment>, fee: nat, change: U64, address: string)
    returns (result: Result<Built, Error>)
    ensures result.Ok? <==> Works(sdk, coins, payments, change, address)
    ensures result.Ok? ==>
              && Delivers(sdk, result.value, coins, OutputsOf(sdk, payments).value)
              && result.value.fee == fee && result.value.change == change && result.value.changeAddress == address
  {
    var tx := new SdkTransaction();
    var error := tx.AddInputs(sdk, Utxos(coins));
    if error.Some? {
      assert exists i :: 0 <= i < |coins| && !sdk.accepts(coins[i].utxo);
      return Err(error.value);
    }
    error := tx.AddPayments(sdk, payments);
    if error.Some? {
      return Err(error.value);
    }
    error := tx.AddChange(sdk, address, change);
    if error.Some? {
      return Err(error.value);
    }
    ghost var all := Unsigned(Utxos(coins), OutputsOf(sdk, payments).value + ChangeOutputs(sdk, change, address));
    assert Unsigned(tx.coins, tx.outputs) == all;
    error := tx.SignEach(sdk, coins);
    if error.Some? {
      return Err(error.value);
    }
    result := Ok(Built(tx.coins, tx.unlocking, tx.outputs, fee, change, address));
  }

  // ---------- Fee, change and the whole build ----------

  // What a successful build returns, for the total and the payments it has reckoned with.
  ghost predicate Settled(sdk: Sdk, b: Built, coins: seq<Coin>, payments: seq<Output>,
                          total: nat, paid: nat, fee: nat, address: string) {
    && Delivers(sdk, b, coins, payments)
    && b.fee == fee && b.change == total - paid - fee && b.changeAddress == address
  }

  ghost predicate Settles(sdk: Sdk, coins: seq<Coin>, payments: seq<Payment>,
                          total: nat, paid: nat, fee: nat, address: string) {
    total >= paid + fee && Works(sdk, coins, payments, total - paid - fee, address)
  }

  method Settle(sdk: Sdk, coins: seq<Coin>, payments: seq<Payment>, total: U64, paid: nat, fee: nat, address: string)
    returns (result: Result<Built, Error>)
    ensures result.Ok? <==> Settles(sdk, coins, payments, total, paid, fee, address)
    ensures result.Ok? ==> Settled(sdk, result.value, coins, OutputsOf(sdk, payments).value, total, paid, fee, address)
  {
    var change := Change(total, paid, fee);
    if change.None? {
      return Err(Insufficient(paid, fee, total));
    }
    result := Complete(sdk, coins, payments, fee, change.value, address);
  }

  // Satoshis are conserved exactly when the total and the payments reckoned with differ by
  // what the inputs and the payments really differ by.
  lemma SettledConserves(sdk: Sdk, b: Built, coins: seq<Coin>, payments: seq<Output>,
                         total: nat, paid: nat, fee: nat, address: string)
    requires Settled(sdk, b, coins, payments, total, paid, fee, address) && b.change <= U64_MAX
    ensures Conserves(b) <==> total - paid == SumCoins(Utxos(coins)) - SumOutputs(payments)
  {
    DeliveredSums(sdk, b, coins, payments);
  }

  // One output for each payment, worth the same.
  lemma {:induction false} OutputsOfPayments(sdk: Sdk, payments: seq<Payment>)
    requires OutputsOf(sdk, payments).Some?
    ensures |OutputsOf(sdk, payments).value| == |payments|
    ensures SumOutputs(OutputsOf(sdk, payments).value) == SumPayments(payments)
  {
    if payments == [] {
    } else {
      OutputsOfPayments(sdk, payments[..|payments| - 1]);
      var outputs := OutputsOf(sdk, payments).value;
      assert outputs[..|outputs| - 1] == OutputsOf(sdk, payments[..|payments| - 1]).value;
    }
  }

  lemma OnePayment(sdk: Sdk, payment: Payment)
    ensures SumPayments([payment]) == payment.satoshis
    ensures OutputsOf(sdk, [payment]) ==
            match OutputOf(sdk, payment) case Some(output) => Some([output]) case None => None
  {
    assert [payment][..0] == [];
    assert OutputsOf(sdk, [payment][..0]) == Some([]);
    if OutputOf(sdk, payment).Some? {
      assert [] + [OutputOf(sdk, payment).value] == [OutputOf(sdk, payment).value];
    }
  }
}
