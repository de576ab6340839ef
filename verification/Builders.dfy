/**
 The transaction builders. Those that are given a total by their caller trust it; the others
 add it up from their inputs.
 */
module Builders {
  import opened Wrappers
  import opened Scripts
  import opened Fees
  import opened Transactions
  import Decimal
  import OrdinalLock
  import opened TransferJson

  type AddressPayment = p: Payment | p.ToAddress? witness ToAddress("", 0)

  datatype CustomOutput = CustomOutput(satoshis: U64, lockingScriptHex: string)

  const U128_LIMIT: nat := 0x1_0000_0000_0000_0000_0000_0000_0000_0000

  const TOKEN_FEE_RATE: real := 0.05

  // ---------- One payment ----------

  // Each input is signed with its own key.
  method BuildMultiKeyP2pkhTx(sdk: Sdk, changeWif: string, toAddress: string, satoshis: U64, selected: seq<Coin>,
                              totalInput: U64, rate: real)
    returns (result: Result<Built, Error>)
    ensures result.Ok? <==>
              && sdk.addressOf(changeWif).Some?
              && Settles(sdk, selected, [ToAddress(toAddress, satoshis)], totalInput, satoshis,
                         PaymentFee(totalInput, satoshis, |selected|, 1, rate), sdk.addressOf(changeWif).value)
    ensures result.Ok? ==>
              && sdk.payTo(toAddress).Some?
              && Settled(sdk, result.value, selected, [Output(satoshis, sdk.payTo(toAddress).value)], totalInput, satoshis,
                         PaymentFee(totalInput, satoshis, |selected|, 1, rate), sdk.addressOf(changeWif).value)
              && (Conserves(result.value) <==> totalInput == SumCoins(Utxos(selected)))
  {
    var changeAddress := sdk.addressOf(changeWif);
    if changeAddress.None? {
      return Err(BadKey(changeWif));
    }
    var fee := PaymentFee(totalInput, satoshis, |selected|, 1, rate);
    var payment := ToAddress(toAddress, satoshis);
    OnePayment(sdk, payment);
    result := Settle(sdk, selected, [payment], totalInput, satoshis, fee, changeAddress.value);
    if result.Ok? {
      OutputsOfPayments(sdk, [payment]);
      SettledConserves(sdk, result.value, selected, [OutputOf(sdk, payment).value], totalInput, satoshis, fee,
                       changeAddress.value);
    }
  }

  // One key signs every input and takes the change.
  method BuildP2pkhTx(sdk: Sdk, wif: string, toAddress: string, satoshis: U64, selected: seq<Utxo>,
                      totalInput: U64, rate: real)
    returns (result: Result<Built, Error>)
    ensures result.Ok? <==>
              && sdk.addressOf(wif).Some?
              && Settles(sdk, SignedBy(selected, wif), [ToAddress(toAddress, satoshis)], totalInput, satoshis,
                         PaymentFee(totalInput, satoshis, |selected|, 1, rate), sdk.addressOf(wif).value)
    ensures result.Ok? ==>
              && sdk.payTo(toAddress).Some?
              && Settled(sdk, result.value, SignedBy(selected, wif), [Output(satoshis, sdk.payTo(toAddress).value)],
                         totalInput, satoshis, PaymentFee(totalInput, satoshis, |selected|, 1, rate),
                         sdk.addressOf(wif).value)
              && (Conserves(result.value) <==> totalInput == SumCoins(selected))
  {
    result := BuildMultiKeyP2pkhTx(sdk, wif, toAddress, satoshis, SignedBy(selected, wif), totalInput, rate);
    assert Utxos(SignedBy(selected, wif)) == selected;
  }

  // ---------- Several payments ----------

  // Given that the payments or the inputs are right, the builds conserve satoshis exactly
  // when the other side is right too.
  lemma WrappedPayments(total: nat, sum: nat, coins: nat)
    ensures sum < TWO_TO_64 ==> (total - Wrap(sum) == coins - sum <==> total == coins)
    ensures total == coins ==> (total - Wrap(sum) == coins - sum <==> sum < TWO_TO_64)
  {
  }

  method BuildMultiKeyOutputP2pkhTx(sdk: Sdk, changeWif: string, payments: seq<AddressPayment>, selected: seq<Coin>,
                                    totalInput: U64, rate: real)
    returns (result: Result<Built, Error>)
    ensures result.Ok? <==>
              && payments != []
              && sdk.addressOf(changeWif).Some?
              && Settles(sdk, selected, payments, totalInput, PaidFor(payments),
                         PaymentFee(totalInput, PaidFor(payments), |selected|, |payments|, rate),
                         sdk.addressOf(changeWif).value)
    ensures result.Ok? ==>
              && OutputsOf(sdk, payments).Some?
              && Settled(sdk, result.value, selected, OutputsOf(sdk, payments).value,
                         totalInput, PaidFor(payments),
                         PaymentFee(totalInput, PaidFor(payments), |selected|, |payments|, rate),
                         sdk.addressOf(changeWif).value)
    ensures result.Ok? && SumPayments(payments) < TWO_TO_64 ==>
              (Conserves(result.value) <==> totalInput == SumCoins(Utxos(selected)))
    ensures result.Ok? && totalInput == SumCoins(Utxos(selected)) ==>
              (Conserves(result.value) <==> SumPayments(payments) < TWO_TO_64)
  {
    if payments == [] {
      return Err(NoOutputs);
    }
    var changeAddress := sdk.addressOf(changeWif);
    if changeAddress.None? {
      return Err(BadKey(changeWif));
    }
    var paid := TotalPaid(payments);
    var fee := PaymentFee(totalInput, paid, |selected|, |payments|, rate);
    result := Settle(sdk, selected, payments, totalInput, paid, fee, changeAddress.value);
    if result.Ok? {
      OutputsOfPayments(sdk, payments);
      SettledConserves(sdk, result.value, selected, OutputsOf(sdk, payments).value, totalInput, paid, fee,
                       changeAddress.value);
      WrappedPayments(totalInput, SumPayments(payments), SumCoins(Utxos(selected)));
    }
  }

  method BuildMultiOutputP2pkhTx(sdk: Sdk, wif: string, payments: seq<AddressPayment>, selected: seq<Utxo>,
                                 totalInput: U64, rate: real)
    returns (result: Result<Built, Error>)
    ensures result.Ok? <==>
              && payments != []
              && sdk.addressOf(wif).Some?
              && Settles(sdk, SignedBy(selected, wif), payments, totalInput, PaidFor(payments),
                         PaymentFee(totalInput, PaidFor(payments), |selected|, |payments|, rate),
                         sdk.addressOf(wif).value)
    ensures result.Ok? ==>
              && OutputsOf(sdk, payments).Some?
              && Settled(sdk, result.value, SignedBy(selected, wif), OutputsOf(sdk, payments).value,
                         totalInput, PaidFor(payments),
                         PaymentFee(totalInput, PaidFor(payments), |selected|, |payments|, rate),
                         sdk.addressOf(wif).value)
    ensures result.Ok? && SumPayments(payments) < TWO_TO_64 ==>
              (Conserves(result.value) <==> totalInput == SumCoins(selected))
    ensures result.Ok? && totalInput == SumCoins(selected) ==>
              (Conserves(result.value) <==> SumPayments(payments) < TWO_TO_64)
  {
    result := BuildMultiKeyOutputP2pkhTx(sdk, wif, payments, SignedBy(selected, wif), totalInput, rate);
    assert Utxos(SignedBy(selected, wif)) == selected;
  }

  // ---------- Outputs with scripts of their own ----------

  function Decoded(outputs: seq<CustomOutput>): Option<seq<Payment>> {
    if outputs == [] then Some([])
    else
      var last := outputs[|outputs| - 1];
      var payments := Decoded(outputs[..|outputs| - 1]);
      var script := OrdinalLock.HexDecode(last.lockingScriptHex);
      if payments.Some? && script.Some? then Some(payments.value + [ToScript(script.value, last.satoshis)]) else None
  }

  lemma {:induction false} DecodedPrefix(outputs: seq<CustomOutput>, n: nat)
    requires n <= |outputs| && Decoded(outputs[..n]).None?
    ensures Decoded(outputs).None?
    decreases |outputs|
  {
    if n == |outputs| {
      assert outputs[..n] == outputs;
    } else {
      assert outputs[..|outputs| - 1][..n] == outputs[..n];
      DecodedPrefix(outputs[..|outputs| - 1], n);
    }
  }

  // All custom outputs decode exactly if each is an even number of hexadecimal digits.
  lemma {:induction false} DecodesIffAllHex(outputs: seq<CustomOutput>)
    ensures Decoded(outputs).Some? <==> forall i :: 0 <= i < |outputs| ==> OrdinalLock.IsHex(outputs[i].lockingScriptHex)
  {
    if outputs == [] {
    } else {
      DecodesIffAllHex(outputs[..|outputs| - 1]);
      OrdinalLock.DecodesIffHex(outputs[|outputs| - 1].lockingScriptHex);
    }
  }

  // What each custom output becomes, and that the fee is reckoned with its script's length.
  lemma {:induction false} DecodedOutputs(sdk: Sdk, outputs: seq<CustomOutput>)
    requires Decoded(outputs).Some?
    ensures var made := OutputsOf(sdk, Decoded(outputs).value);
            && made.Some? && |made.value| == |outputs|
            && forall i :: 0 <= i < |outputs| ==>
                 && made.value[i].satoshis == outputs[i].satoshis
                 && OrdinalLock.HexDecode(outputs[i].lockingScriptHex) == Some(made.value[i].script)
                 && HexLengths(outputs)[i] == |made.value[i].script|
  {
    if outputs == [] {
    } else {
      DecodedOutputs(sdk, outputs[..|outputs| - 1]);
      OrdinalLock.HexLength(outputs[|outputs| - 1].lockingScriptHex);
      assert HexLengths(outputs)[..|outputs| - 1] == HexLengths(outputs[..|outputs| - 1]);
      var payments := Decoded(outputs).value;
      assert payments[..|payments| - 1] == Decoded(outputs[..|outputs| - 1]).value;
    }
  }

  // The lengths the fee is reckoned with: half the hexadecimal text.
  function HexLengths(outputs: seq<CustomOutput>): seq<nat> {
    seq(|outputs|, i requires 0 <= i < |outputs| => |outputs[i].lockingScriptHex| / 2)
  }

  method DecodeScripts(outputs: seq<CustomOutput>) returns (result: Result<(seq<Payment>, seq<nat>), Error>)
    ensures result.Ok? <==> Decoded(outputs).Some?
    ensures result.Ok? ==> result.value == (Decoded(outputs).value, HexLengths(outputs))
  {
    var payments: seq<Payment>, lengths: seq<nat> := [], [];
    for i := 0 to |outputs|
      invariant Decoded(outputs[..i]) == Some(payments)
      invariant lengths == HexLengths(outputs)[..i]
    {
      assert outputs[..i + 1][..i] == outputs[..i];
      var script := OrdinalLock.HexDecode(outputs[i].lockingScriptHex);
      if script.None? {
        DecodedPrefix(outputs, i + 1);
        return Err(BadScript(outputs[i].lockingScriptHex));
      }
      lengths := lengths + [|outputs[i].lockingScriptHex| / 2];
      payments := payments + [ToScript(script.value, outputs[i].satoshis)];
    }
    assert outputs[..|outputs|] == outputs && lengths == HexLengths(outputs);
    return Ok((payments, lengths));
  }

  method BuildCustomOutputTx(sdk: Sdk, wif: string, outputs: seq<CustomOutput>, selected: seq<Utxo>,
                             totalInput: U64, rate: real)
    returns (result: Result<Built, Error>)
    ensures result.Ok? <==>
              && outputs != []
              && sdk.addressOf(wif).Some?
              && Decoded(outputs).Some?
              && var payments := Decoded(outputs).value;
                 Settles(sdk, SignedBy(selected, wif), payments, totalInput, PaidFor(payments),
                         ScriptPaymentFee(totalInput, PaidFor(payments), |selected|, HexLengths(outputs), rate),
                         sdk.addressOf(wif).value)
    ensures result.Ok? ==>
              var payments := Decoded(outputs).value;
              && OutputsOf(sdk, payments).Some?
              && Settled(sdk, result.value, SignedBy(selected, wif), OutputsOf(sdk, payments).value,
                         totalInput, PaidFor(payments),
                         ScriptPaymentFee(totalInput, PaidFor(payments), |selected|, HexLengths(outputs), rate),
                         sdk.addressOf(wif).value)
              && (SumPayments(payments) < TWO_TO_64 ==> (Conserves(result.value) <==> totalInput == SumCoins(selected)))
              && (totalInput == SumCoins(selected) ==> (Conserves(result.value) <==> SumPayments(payments) < TWO_TO_64))
  {
    if outputs == [] {
      return Err(NoOutputs);
    }
    var fromAddress := sdk.addressOf(wif);
    if fromAddress.None? {
      return Err(BadKey(wif));
    }
    var decoded := DecodeScripts(outputs);
    if decoded.Err? {
      return Err(decoded.error);
    }
    var (payments, lengths) := decoded.value;
    var paid := TotalPaid(payments);
    var fee := ScriptPaymentFee(totalInput, paid, |selected|, lengths, rate);
    var coins := SignedBy(selected, wif);
    result := Settle(sdk, coins, payments, totalInput, paid, fee, fromAddress.value);
    if result.Ok? {
      OutputsOfPayments(sdk, payments);
      SettledConserves(sdk, result.value, coins, OutputsOf(sdk, payments).value, totalInput, paid, fee, fromAddress.value);
      WrappedPayments(totalInput, SumPayments(payments), SumCoins(selected));
      assert Utxos(coins) == selected;
    }
  }

  // One satoshi on a script; the total is that of the coins.
  method SettleScript(sdk: Sdk, coins: seq<Coin>, script: Bytes, total: U64, rate: real, address: string)
    returns (result: Result<Built, Error>)
    requires total == Total(Utxos(coins))
    ensures result.Ok? <==> Settles(sdk, coins, [ToScript(script, 1)], total, 1,
                                    ScriptPaymentFee(total, 1, |coins|, [|script|], rate), address)
    ensures result.Ok? ==>
              && Settled(sdk, result.value, coins, [Output(1, script)], total, 1,
                         ScriptPaymentFee(total, 1, |coins|, [|script|], rate), address)
              && (Conserves(result.value) <==> SumCoins(Utxos(coins)) < TWO_TO_64)
  {
    var fee := ScriptPaymentFee(total, 1, |coins|, [|script|], rate);
    var payment := ToScript(script, 1);
    OnePayment(sdk, payment);
    result := Settle(sdk, coins, [payment], total, 1, fee, address);
    if result.Ok? {
      OutputsOfPayments(sdk, [payment]);
      SettledConserves(sdk, result.value, coins, [Output(1, script)], total, 1, fee, address);
    }
  }

  // A one-satoshi inscription; one key signs every input and takes the change.
  method BuildInscriptionTx(sdk: Sdk, wif: string, content: Bytes, contentType: string, destAddress: string,
                            funding: seq<Utxo>, rate: real)
    returns (result: Result<Built, Error>)
    ensures result.Ok? <==>
              && funding != [] && content != []
              && sdk.addressOf(wif).Some? && HashFromAddress(sdk.base58, destAddress).Ok?
              && var hash := HashFromAddress(sdk.base58, destAddress).value;
                 var script := InscriptionScript(Inscription(sdk.utf8(contentType), content, hash));
                 Settles(sdk, SignedBy(funding, wif), [ToScript(script, 1)], Total(funding), 1,
                         ScriptPaymentFee(Total(funding), 1, |funding|, [|script|], rate), sdk.addressOf(wif).value)
    ensures result.Ok? ==>
              var hash := HashFromAddress(sdk.base58, destAddress).value;
              var script := InscriptionScript(Inscription(sdk.utf8(contentType), content, hash));
              && Settled(sdk, result.value, SignedBy(funding, wif), [Output(1, script)], Total(funding), 1,
                         ScriptPaymentFee(Total(funding), 1, |funding|, [|script|], rate), sdk.addressOf(wif).value)
              && (Conserves(result.value) <==> SumCoins(funding) < TWO_TO_64)
              && (ParseInscription(result.value.outputs[0].script) == Some(Inscription(sdk.utf8(contentType), content, hash))
                  <==> |sdk.utf8(contentType)| <= 0xffff && |content| <= 0xffff)
  {
    if funding == [] {
      return Err(TooFewCoins);
    }
    if content == [] {
      return Err(NoContent);
    }
    var changeAddress := sdk.addressOf(wif);
    if changeAddress.None? {
      return Err(BadKey(wif));
    }
    var hash := HashFromAddress(sdk.base58, destAddress);
    if hash.Err? {
      return Err(BadAddress(destAddress));
    }
    var script := BuildInscriptionScript(content, sdk.utf8(contentType), hash.value);
    var total := TotalOf(funding);
    assert Utxos(SignedBy(funding, wif)) == funding;
    result := SettleScript(sdk, SignedBy(funding, wif), script, total, rate, changeAddress.value);
    if result.Ok? {
      assert result.value.outputs[0] == Output(1, script);
      InscriptionRoundTrip(Inscription(sdk.utf8(contentType), content, hash.value));
    }
  }

  // Coins of two keys: their total, added up kind by kind.
  lemma TwoKinds(first: seq<Utxo>, firstWif: string, second: seq<Utxo>, secondWif: string)
    ensures SumCoins(first + second) == SumCoins(first) + SumCoins(second)
    ensures Wrap(Total(first) + Total(second)) == Total(first + second)
    ensures Utxos(SignedBy(first, firstWif) + SignedBy(second, secondWif)) == first + second
  {
    SumCoinsAppends(first, second);
    WrapAdds(SumCoins(first), Wrap(SumCoins(second)));
    WrapAdds(SumCoins(second), SumCoins(first));
  }

  predicate ValidAmount(amount: string) {
    var parsed := Decimal.ParseUnsigned(amount, U128_LIMIT);
    parsed.Some? && parsed.value > 0
  }

  // The numeral of a positive number that fits 128 bits, after a plus sign perhaps.
  predicate PositiveNumeral(amount: string) {
    var digits := if amount != "" && amount[0] == '+' then amount[1..] else amount;
    digits != "" && Decimal.AllDigits(digits) && 0 < Decimal.Value(digits) < 0x1_0000_0000_0000_0000_0000_0000_0000_0000
  }

  lemma ValidAmountIsNumeral(amount: string)
    ensures ValidAmount(amount) <==> PositiveNumeral(amount)
    ensures ValidAmount(amount) ==> Plain(amount)
  {
    var digits := if amount != "" && amount[0] == '+' then amount[1..] else amount;
    if ValidAmount(amount) {
      assert forall i :: 0 <= i < |amount| ==> amount[i] == '+' || amount[i] in digits;
    }
  }

  // The script is an inscription to the recipient whose content, up to its encoding, reads as
  // the transfer asked for if the ticker needs no escaping, and which itself can be read as long
  // as content and type fit a push.
  ghost predicate CarriesTransfer(sdk: Sdk, script: Bytes, ticker: string, amount: string, protocol: string,
                                  recipient: Hash) {
    exists text: string ::
      var is21 := protocol in {"bsv-21", "bsv21"};
      var contentType := sdk.utf8(if is21 then "application/bsv-21" else "application/bsv-20");
      var pairs := [("p", if is21 then "bsv-21" else "bsv-20"), ("op", "transfer"),
                    (if is21 then "id" else "tick", ticker), ("amt", amount)];
      && (ReadObject(text) == Some(pairs) <==> Plain(ticker))
      && (ParseInscription(script) == Some(Inscription(contentType, sdk.utf8(text), recipient)) <==>
            |contentType| <= 0xffff && |sdk.utf8(text)| <= 0xffff)
  }

  function TransferScript(sdk: Sdk, ticker: string, amount: string, protocol: string, recipient: Hash): Bytes {
    InscriptionScript(
      Inscription(sdk.utf8(TransferType(protocol)), sdk.utf8(TransferText(ticker, amount, protocol)), recipient))
  }

  lemma TransferScriptCarries(sdk: Sdk, ticker: string, amount: string, protocol: string, recipient: Hash)
    requires Plain(amount)
    ensures var script := TransferScript(sdk, ticker, amount, protocol, recipient);
            CarriesTransfer(sdk, script, ticker, amount, protocol, recipient)
  {
    var text := TransferText(ticker, amount, protocol);
    TransferReadsBackIff(ticker, amount, protocol);
    InscriptionRoundTrip(Inscription(sdk.utf8(TransferType(protocol)), sdk.utf8(text), recipient));
    assert ReadObject(text).Some? || ReadObject(text).None?;
  }

  method BuildTransferScript(sdk: Sdk, ticker: string, amount: string, protocol: string, recipient: Hash)
    returns (script: Bytes)
    ensures script == TransferScript(sdk, ticker, amount, protocol, recipient)
  {
    var text := TransferText(ticker, amount, protocol);
    var contentType := TransferType(protocol);
    script := BuildInscriptionScript(sdk.utf8(text), sdk.utf8(contentType), recipient);
  }

  // One satoshi on a script, paid from coins of two keys.
  method SettleTwoKinds(sdk: Sdk, tokens: seq<Utxo>, tokenWif: string, funding: seq<Utxo>, fundingWif: string,
                        script: Bytes, rate: real, address: string)
    returns (result: Result<Built, Error>)
    ensures result.Ok? <==>
              Settles(sdk, SignedBy(tokens, tokenWif) + SignedBy(funding, fundingWif), [ToScript(script, 1)],
                      Total(tokens + funding), 1,
                      ScriptPaymentFee(Total(tokens + funding), 1, |tokens| + |funding|, [|script|], rate), address)
    ensures result.Ok? ==>
              && Settled(sdk, result.value, SignedBy(tokens, tokenWif) + SignedBy(funding, fundingWif), [Output(1, script)],
                         Total(tokens + funding), 1,
                         ScriptPaymentFee(Total(tokens + funding), 1, |tokens| + |funding|, [|script|], rate), address)
              && (Conserves(result.value) <==> SumCoins(tokens) + SumCoins(funding) < TWO_TO_64)
  {
    var totalTokens: nat := TotalOf(tokens);
    var totalFunding: nat := TotalOf(funding);
    var total := Wrap(totalTokens + totalFunding);
    TwoKinds(tokens, tokenWif, funding, fundingWif);
    var coins := SignedBy(tokens, tokenWif) + SignedBy(funding, fundingWif);
    result := SettleScript(sdk, coins, script, total, rate, address);
  }

  // A token transfer inscription; token inputs come first and each kind has its own key.
  method BuildTokenTransferTx(sdk: Sdk, tokenWif: string, tokens: seq<Utxo>, fundingWif: string, funding: seq<Utxo>,
                              recipient: string, amount: string, ticker: string, protocol: string, changeAddress: string)
    returns (result: Result<Built, Error>)
    ensures result.Ok? <==>
              && tokens != [] && funding != [] && PositiveNumeral(amount)
              && HashFromAddress(sdk.base58, recipient).Ok? && HashFromAddress(sdk.base58, changeAddress).Ok?
              && var script := TransferScript(sdk, ticker, amount, protocol, HashFromAddress(sdk.base58, recipient).value);
                 Settles(sdk, SignedBy(tokens, tokenWif) + SignedBy(funding, fundingWif), [ToScript(script, 1)],
                         Total(tokens + funding), 1,
                         ScriptPaymentFee(Total(tokens + funding), 1, |tokens| + |funding|, [|script|], TOKEN_FEE_RATE),
                         changeAddress)
    ensures result.Ok? ==>
              var script := TransferScript(sdk, ticker, amount, protocol, HashFromAddress(sdk.base58, recipient).value);
              && Settled(sdk, result.value, SignedBy(tokens, tokenWif) + SignedBy(funding, fundingWif), [Output(1, script)],
                         Total(tokens + funding), 1,
                         ScriptPaymentFee(Total(tokens + funding), 1, |tokens| + |funding|, [|script|], 0.05),
                         changeAddress)
              && (Conserves(result.value) <==> SumCoins(tokens) + SumCoins(funding) < TWO_TO_64)
    ensures result.Ok? ==>
              && result.value.outputs[0].satoshis == 1
              && CarriesTransfer(sdk, result.value.outputs[0].script, ticker, amount, protocol,
                                 HashFromAddress(sdk.base58, recipient).value)
  {
    ValidAmountIsNumeral(amount);
    if tokens == [] || funding == [] {
      return Err(TooFewCoins);
    }
    if !ValidAmount(amount) {
      return Err(BadAmount(amount));
    }
    var hash := HashFromAddress(sdk.base58, recipient);
    if hash.Err? {
      return Err(BadAddress(recipient));
    }
    var script := BuildTransferScript(sdk, ticker, amount, protocol, hash.value);
    if HashFromAddress(sdk.base58, changeAddress).Err? {
      return Err(BadAddress(changeAddress));
    }
    result := SettleTwoKinds(sdk, tokens, tokenWif, funding, fundingWif, script, TOKEN_FEE_RATE, changeAddress);
    TransferScriptCarries(sdk, ticker, amount, protocol, hash.value);
  }

  // ---------- Ordinals and consolidation ----------

  // The ordinal is input 0, signed with its own key, and output 0, worth one satoshi; the
  // fee counts a change output whether there is one or not.
  method BuildOrdinalTransferTx(sdk: Sdk, ordWif: string, ordinal: Utxo, toAddress: string, fundingWif: string,
                                funding: seq<Utxo>, rate: real)
    returns (result: Result<Built, Error>)
    ensures result.Ok? <==>
              && sdk.addressOf(fundingWif).Some?
              && Settles(sdk, [Coin(ordinal, ordWif)] + SignedBy(funding, fundingWif), [ToAddress(toAddress, 1)],
                         Total([ordinal] + funding), 1, TxFee(1 + |funding|, 2, rate), sdk.addressOf(fundingWif).value)
    ensures result.Ok? ==>
              && sdk.payTo(toAddress).Some?
              && Settled(sdk, result.value, [Coin(ordinal, ordWif)] + SignedBy(funding, fundingWif),
                         [Output(1, sdk.payTo(toAddress).value)], Total([ordinal] + funding), 1,
                         TxFee(1 + |funding|, 2, rate), sdk.addressOf(fundingWif).value)
              && (Conserves(result.value) <==> ordinal.satoshis + SumCoins(funding) < TWO_TO_64)
  {
    var fundingAddress := sdk.addressOf(fundingWif);
    if fundingAddress.None? {
      return Err(BadKey(fundingWif));
    }
    var totalFunding: nat := TotalOf(funding);
    var total := Wrap(ordinal.satoshis + totalFunding);
    TwoKinds([ordinal], ordWif, funding, fundingWif);
    assert [ordinal][..0] == [];
    var fee := TxFee(1 + |funding|, 2, rate);
    var coins := [Coin(ordinal, ordWif)] + SignedBy(funding, fundingWif);
    assert [Coin(ordinal, ordWif)] == SignedBy([ordinal], ordWif);
    var payment := ToAddress(toAddress, 1);
    OnePayment(sdk, payment);
    result := Settle(sdk, coins, [payment], total, 1, fee, fundingAddress.value);
    if result.Ok? {
      OutputsOfPayments(sdk, [payment]);
      SettledConserves(sdk, result.value, coins, [OutputOf(sdk, payment).value], total, 1, fee, fundingAddress.value);
    }
  }

  // At least two coins become one output of the same key; nothing is left for change.
  method BuildConsolidationTx(sdk: Sdk, wif: string, utxos: seq<Utxo>, rate: real)
    returns (result: Result<Built, Error>)
    ensures result.Ok? <==>
              && |utxos| >= 2 && sdk.addressOf(wif).Some? && Total(utxos) > TxFee(|utxos|, 1, rate)
              && Works(sdk, SignedBy(utxos, wif),
                       [ToAddress(sdk.addressOf(wif).value, Total(utxos) - TxFee(|utxos|, 1, rate))], 0,
                       sdk.addressOf(wif).value)
    ensures result.Ok? ==>
              && sdk.payTo(sdk.addressOf(wif).value).Some?
              && Settled(sdk, result.value, SignedBy(utxos, wif),
                         [Output(Total(utxos) - TxFee(|utxos|, 1, rate), sdk.payTo(sdk.addressOf(wif).value).value)],
                         Total(utxos), Total(utxos) - TxFee(|utxos|, 1, rate), TxFee(|utxos|, 1, rate),
                         sdk.addressOf(wif).value)
              && (Conserves(result.value) <==> SumCoins(utxos) < TWO_TO_64)
  {
    if |utxos| < 2 {
      return Err(TooFewCoins);
    }
    var address := sdk.addressOf(wif);
    if address.None? {
      return Err(BadKey(wif));
    }
    var total := TotalOf(utxos);
    var fee := TxFee(|utxos|, 1, rate);
    var outputSats := if total < fee then 0 else total - fee;
    if outputSats == 0 {
      return Err(NothingLeft(total, fee));
    }
    assert Utxos(SignedBy(utxos, wif)) == utxos;
    result := Gather(sdk, SignedBy(utxos, wif), outputSats, fee, address.value);
  }

  // Everything but the fee in one output.
  method Gather(sdk: Sdk, coins: seq<Coin>, satoshis: U64, fee: nat, address: string) returns (result: Result<Built, Error>)
    ensures result.Ok? <==> Works(sdk, coins, [ToAddress(address, satoshis)], 0, address)
    ensures result.Ok? ==>
              && sdk.payTo(address).Some?
              && Settled(sdk, result.value, coins, [Output(satoshis, sdk.payTo(address).value)],
                         satoshis + fee, satoshis, fee, address)
              && (Conserves(result.value) <==> SumCoins(Utxos(coins)) == satoshis + fee)
  {
    var payment := ToAddress(address, satoshis);
    OnePayment(sdk, payment);
    result := Complete(sdk, coins, [payment], fee, 0, address);
    if result.Ok? {
      OutputsOfPayments(sdk, [payment]);
      SettledConserves(sdk, result.value, coins, [OutputOf(sdk, payment).value], satoshis + fee, satoshis, fee, address);
    }
  }

  // ---------- The fee covers the transaction that was built ----------

  // For the builders that charge PaymentFee: exactly when the fee pays the rate for the
  // transaction as built, and by how much it can fall short.
  lemma FeeCoversBuilt(sdk: Sdk, b: Built, coins: seq<Coin>, payments: seq<Output>, total: U64, paid: nat, rate: real,
                       address: string)
    requires total >= paid + PaymentFee(total, paid, |coins|, |payments|, rate)
    requires Settled(sdk, b, coins, payments, total, paid, PaymentFee(total, paid, |coins|, |payments|, rate), address)
    requires rate >= 0.0 && b.fee < U64_MAX
    ensures Covers(b.fee, TxSize(|b.inputs|, |b.outputs|), rate) <==>
            total - paid > 100 || b.change == 0 || TxFee(|b.inputs|, |b.outputs|, rate) == b.fee
    ensures Covers(b.fee + Ceil(P2PKH_OUTPUT_SIZE as real * rate), TxSize(|b.inputs|, |b.outputs|), rate)
  {
    FeeCoversBuiltTransaction(total, paid, |coins|, |payments|, rate);
    FeeCoversIff(total, paid, |coins|, |payments|, rate);
  }

  function ScriptLengths(outputs: seq<Output>): (lengths: seq<nat>)
    ensures |lengths| == |outputs|
  {
    seq(|outputs|, i requires 0 <= i < |outputs| => |outputs[i].script|)
  }

  lemma LengthsOfOutputs(sdk: Sdk, b: Built, coins: seq<Coin>, payments: seq<Output>)
    requires Delivers(sdk, b, coins, payments) && b.change <= U64_MAX
    ensures |b.outputs| == |payments| + (if b.change > 0 then 1 else 0)
    ensures ScriptLengths(b.outputs) == if b.change > 0 then ScriptLengths(payments) + [|b.outputs[|payments|].script|]
                                        else ScriptLengths(payments)
  {
  }

  // What the outputs take: the payments, and a change output no larger than was counted for.
  lemma SizeOfOutputs(sdk: Sdk, b: Built, coins: seq<Coin>, payments: seq<Output>)
    requires Delivers(sdk, b, coins, payments) && b.change <= U64_MAX
    requires forall script :: sdk.payTo(b.changeAddress) == Some(script) ==> |script| <= P2PKH_OUTPUT_SIZE
    ensures OutputSizes(ScriptLengths(b.outputs))
         <= OutputSizes(ScriptLengths(payments)) + (if b.change > 0 then OutputSize(P2PKH_OUTPUT_SIZE) else 0)
  {
    LengthsOfOutputs(sdk, b, coins, payments);
    if b.change > 0 {
      OutputSizesAppend(ScriptLengths(payments), |b.outputs[|payments|].script|);
    }
  }

  // Bytes of the built transaction, with the scripts it has.
  function SizeOf(b: Built): nat {
    TX_OVERHEAD + |b.inputs| * P2PKH_INPUT_SIZE + OutputSizes(ScriptLengths(b.outputs))
  }

  // The same for the builders that measure scripts.
  lemma ScriptFeeCoversBuilt(sdk: Sdk, b: Built, coins: seq<Coin>, payments: seq<Output>, total: U64, paid: nat,
                             rate: real, address: string, fee: nat, size: nat)
    requires fee == ScriptPaymentFee(total, paid, |coins|, ScriptLengths(payments), rate) && total >= paid + fee
    requires Settled(sdk, b, coins, payments, total, paid, fee, address) && size == SizeOf(b)
    requires forall script :: sdk.payTo(address) == Some(script) ==> |script| <= P2PKH_OUTPUT_SIZE
    requires rate >= 0.0 && fee < U64_MAX
    ensures Covers(fee, size, rate) <==> FeeOfSize(size, rate) <= fee
    ensures if total - paid > 100 || b.change == 0 then Covers(fee, size, rate)
            else Covers(fee + Ceil(OutputSize(P2PKH_OUTPUT_SIZE) as real * rate), size, rate)
  {
    ScriptFeeCoversIff(total, paid, |coins|, ScriptLengths(payments), rate, fee, size);
    SizeOfOutputs(sdk, b, coins, payments);
    ScriptFeeCovers(total, paid, |coins|, ScriptLengths(payments), rate, fee, OutputSizes(ScriptLengths(b.outputs)), size);
  }

  lemma ChangeLength(sdk: Sdk, b: Built, coins: seq<Coin>, payments: seq<Output>) returns (changeLen: nat)
    requires Delivers(sdk, b, coins, payments) && b.change <= U64_MAX
    requires forall script :: sdk.payTo(b.changeAddress) == Some(script) ==> |script| <= P2PKH_OUTPUT_SIZE
    ensures changeLen <= P2PKH_OUTPUT_SIZE
    ensures ScriptLengths(b.outputs) == if b.change > 0 then ScriptLengths(payments) + [changeLen]
                                        else ScriptLengths(payments)
  {
    LengthsOfOutputs(sdk, b, coins, payments);
    changeLen := if b.change > 0 then |b.outputs[|payments|].script| else 0;
  }

  // Exactly when it covers the transaction as built: more than 100 satoshis are left over, or
  // there is no change, or the uncounted change output costs nothing more.
  lemma ScriptFeeCoversBuiltExactly(sdk: Sdk, b: Built, coins: seq<Coin>, payments: seq<Output>, total: U64, paid: nat,
                                    rate: real, address: string, fee: nat, size: nat)
    requires fee == ScriptPaymentFee(total, paid, |coins|, ScriptLengths(payments), rate) && total >= paid + fee
    requires Settled(sdk, b, coins, payments, total, paid, fee, address) && size == SizeOf(b)
    requires forall script :: sdk.payTo(address) == Some(script) ==> |script| <= P2PKH_OUTPUT_SIZE
    requires rate >= 0.0 && fee < U64_MAX
    ensures Covers(fee, size, rate) <==> total - paid > 100 || b.change == 0 || FeeOfSize(size, rate) == fee
  {
    var changeLen := ChangeLength(sdk, b, coins, payments);
    ScriptFeeCoversExactly(total, paid, |coins|, ScriptLengths(payments), rate, fee, changeLen,
                           ScriptLengths(b.outputs), size);
  }

  // The fee of an ordinal transfer counts a change output always, so it covers the transaction
  // whether there is one or not.
  lemma OrdinalTransferFeeCovers(sdk: Sdk, b: Built, coins: seq<Coin>, payment: Output, total: U64, rate: real,
                                 address: string)
    requires total >= 1 + TxFee(|coins|, 2, rate) && rate >= 0.0
    requires Settled(sdk, b, coins, [payment], total, 1, TxFee(|coins|, 2, rate), address)
    ensures Covers(b.fee, TxSize(|b.inputs|, |b.outputs|), rate)
    ensures b.change > 0 ==> b.fee == TxFee(|b.inputs|, |b.outputs|, rate)
  {
  }

  // The fee of a consolidation is the one for the transaction that is built, and covers it.
  lemma ConsolidationFeeCovers(sdk: Sdk, b: Built, coins: seq<Coin>, payment: Output, total: U64, rate: real,
                               address: string)
    requires total > TxFee(|coins|, 1, rate) && rate >= 0.0
    requires Settled(sdk, b, coins, [payment], total, total - TxFee(|coins|, 1, rate), TxFee(|coins|, 1, rate), address)
    ensures b.fee == TxFee(|b.inputs|, |b.outputs|, rate) && Covers(b.fee, TxSize(|b.inputs|, |b.outputs|), rate)
  {
  }
}
