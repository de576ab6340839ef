/**
 Fees and change. The fee rate, a floating-point number in the source, is an exact real here;
 the conversion to 64 bits saturates.
 */
module Fees {
  import opened Wrappers

  const P2PKH_INPUT_SIZE: nat := 148
  const P2PKH_OUTPUT_SIZE: nat := 34
  const TX_OVERHEAD: nat := 10
  const DUST_CHANGE: nat := 100
  const U64_MAX: nat := 0xFFFF_FFFF_FFFF_FFFF

  function Ceil(x: real): (c: int)
    ensures c as real - 1.0 < x <= c as real
  {
    if x.Floor as real == x then x.Floor else x.Floor + 1
  }

  function ToU64(n: int): (m: nat)
    ensures m <= U64_MAX
  {
    if n < 0 then 0 else if n > U64_MAX then U64_MAX else n
  }

  // The fee for a cost: its ceiling, one satoshi at least.
  function FeeOfCost(cost: real): (fee: nat)
    ensures 1 <= fee <= U64_MAX
  {
    var fee := ToU64(Ceil(cost));
    if fee < 1 then 1 else fee
  }

  function FeeOfSize(size: nat, rate: real): (fee: nat)
    ensures 1 <= fee <= U64_MAX
  {
    FeeOfCost(size as real * rate)
  }

  function TxSize(inputs: nat, outputs: nat): nat {
    TX_OVERHEAD + inputs * P2PKH_INPUT_SIZE + outputs * P2PKH_OUTPUT_SIZE
  }

  function TxFee(inputs: nat, outputs: nat, rate: real): nat {
    FeeOfSize(TxSize(inputs, outputs), rate)
  }

  // Bytes of one output with a script of the given length.
  function OutputSize(scriptLen: nat): nat {
    8 + (if scriptLen < 0xfd then 1 else if scriptLen <= 0xffff then 3 else 5) + scriptLen
  }

  function OutputSizes(scriptLens: seq<nat>): nat {
    if scriptLens == [] then 0 else OutputSizes(scriptLens[..|scriptLens| - 1]) + OutputSize(scriptLens[|scriptLens| - 1])
  }

  function ScriptFee(inputs: nat, scriptLens: seq<nat>, rate: real): nat {
    FeeOfSize(TX_OVERHEAD + inputs * P2PKH_INPUT_SIZE + OutputSizes(scriptLens), rate)
  }

  predicate WillHaveChange(total: nat, paid: nat) {
    total > paid + DUST_CHANGE
  }

  // What is left after the payments and the fee; None if there is not enough.
  function Change(total: nat, paid: nat, fee: nat): Option<nat> {
    if total < paid + fee then None else Some(total - paid - fee)
  }

  // The fee a P2PKH transaction with so many payments is charged: a change output is counted
  // if more than the dust threshold is left over.
  function PaymentFee(total: nat, paid: nat, inputs: nat, outputs: nat, rate: real): nat {
    TxFee(inputs, outputs + (if WillHaveChange(total, paid) then 1 else 0), rate)
  }

  // The same for outputs measured by their scripts; change is counted as a 34-byte script.
  function ScriptPaymentFee(total: nat, paid: nat, inputs: nat, scriptLens: seq<nat>, rate: real): nat {
    ScriptFee(inputs, scriptLens + (if WillHaveChange(total, paid) then [P2PKH_OUTPUT_SIZE] else []), rate)
  }

  // Fee and change of a P2PKH transaction with `outputs` payments.
  function FeeAndChange(total: nat, paid: nat, inputs: nat, outputs: nat, rate: real): Option<(nat, nat)> {
    var fee := PaymentFee(total, paid, inputs, outputs, rate);
    match Change(total, paid, fee)
    case None => None
    case Some(change) => Some((fee, change))
  }

  // ---------- The fee pays for the transaction that is built ----------

  lemma SizeTimesRate(a: nat, b: nat, rate: real)
    requires a <= b && rate >= 0.0
    ensures a as real * rate <= b as real * rate
    ensures b as real * rate == a as real * rate + (b - a) as real * rate
  {
  }

  // An unsaturated fee is the exact ceiling, or one satoshi.
  lemma FeeIsCeiling(size: nat, rate: real)
    requires rate >= 0.0 && FeeOfSize(size, rate) < U64_MAX
    ensures FeeOfSize(size, rate) as real >= size as real * rate
    ensures FeeOfSize(size, rate) == 1 || FeeOfSize(size, rate) as real - 1.0 < size as real * rate
  {
  }

  // A fee is at least one satoshi, and at most what 64 bits hold.
  lemma FeeIsBounded(size: nat, rate: real)
    ensures size as real * rate <= 1.0 ==> FeeOfSize(size, rate) == 1
    ensures size as real * rate >= 18_446_744_073_709_551_615.0 ==> FeeOfSize(size, rate) == 18_446_744_073_709_551_615
  {
  }

  predicate Covers(fee: int, size: nat, rate: real) {
    fee as real >= size as real * rate
  }

  lemma FeeCoversSmallerSize(counted: nat, built: nat, rate: real)
    requires rate >= 0.0 && built <= counted && FeeOfSize(counted, rate) < U64_MAX
    ensures Covers(FeeOfSize(counted, rate), built, rate)
  {
  }

  lemma FeeAgainstLargerSize(counted: nat, built: nat, extra: nat, rate: real)
    requires rate >= 0.0 && built <= counted + extra && FeeOfSize(counted, rate) < U64_MAX
    ensures Covers(FeeOfSize(counted, rate) + Ceil(extra as real * rate), built, rate)
  {
  }

  lemma FeeWithin(counted: nat, built: nat, extra: nat, short: bool, rate: real)
    requires rate >= 0.0 && FeeOfSize(counted, rate) < U64_MAX
    requires built <= counted + (if short then extra else 0)
    ensures if short then Covers(FeeOfSize(counted, rate) + Ceil(extra as real * rate), built, rate)
            else Covers(FeeOfSize(counted, rate), built, rate)
  {
    if short {
      FeeAgainstLargerSize(counted, built, extra, rate);
    } else {
      FeeCoversSmallerSize(counted, built, rate);
    }
  }

  // What a successful build has charged for, and what it has built.
  lemma SizesOfBuild(total: nat, paid: nat, inputs: nat, outputs: nat, rate: real, counted: nat, built: nat)
    requires PaymentFee(total, paid, inputs, outputs, rate) < U64_MAX
    requires FeeAndChange(total, paid, inputs, outputs, rate).Some?
    requires counted == TxSize(inputs, outputs + (if WillHaveChange(total, paid) then 1 else 0))
    requires built == TxSize(inputs, outputs +
                             (if FeeAndChange(total, paid, inputs, outputs, rate).value.1 > 0 then 1 else 0))
    ensures FeeAndChange(total, paid, inputs, outputs, rate).value.0 == FeeOfSize(counted, rate) < U64_MAX
    ensures if WillHaveChange(total, paid) || FeeAndChange(total, paid, inputs, outputs, rate).value.1 == 0
            then built <= counted else built == counted + P2PKH_OUTPUT_SIZE
  {
  }

  // The fee covers the rate on the real size, change output included, whenever more than 100
  // satoshis are left over before the fee or there is no change; otherwise it falls short by
  // at most the rate on one output, rounded up.
  lemma FeeCoversBuiltTransaction(total: nat, paid: nat, inputs: nat, outputs: nat, rate: real)
    requires rate >= 0.0 && PaymentFee(total, paid, inputs, outputs, rate) < U64_MAX
    requires FeeAndChange(total, paid, inputs, outputs, rate).Some?
    ensures var (fee, change) := FeeAndChange(total, paid, inputs, outputs, rate).value;
            var built := TxSize(inputs, outputs + (if change > 0 then 1 else 0));
            if total > paid + 100 || change == 0 then Covers(fee, built, rate)
            else Covers(fee + Ceil(P2PKH_OUTPUT_SIZE as real * rate), built, rate)
  {
    var (fee, change) := FeeAndChange(total, paid, inputs, outputs, rate).value;
    var counted := TxSize(inputs, outputs + (if WillHaveChange(total, paid) then 1 else 0));
    var built := TxSize(inputs, outputs + (if change > 0 then 1 else 0));
    SizesOfBuild(total, paid, inputs, outputs, rate, counted, built);
    if WillHaveChange(total, paid) || change == 0 {
      FeeCoversSmallerSize(counted, built, rate);
    } else {
      FeeAgainstLargerSize(counted, built, P2PKH_OUTPUT_SIZE, rate);
    }
  }

  lemma FeeMonotone(smaller: nat, larger: nat, rate: real)
    requires rate >= 0.0 && smaller <= larger
    ensures FeeOfSize(smaller, rate) <= FeeOfSize(larger, rate)
  {
    SizeTimesRate(smaller, larger, rate);
    FeeOfCostMonotone(smaller as real * rate, larger as real * rate);
  }

  lemma FeeOfCostMonotone(x: real, y: real)
    requires x <= y
    ensures FeeOfCost(x) <= FeeOfCost(y)
  {
    assert Ceil(x) as real - 1.0 < Ceil(y) as real;
  }

  // A fee charged for one size covers another exactly if that size's own fee is not higher.
  lemma CoversIff(counted: nat, built: nat, rate: real)
    requires rate >= 0.0 && FeeOfSize(counted, rate) < U64_MAX
    ensures Covers(FeeOfSize(counted, rate), built, rate) <==> FeeOfSize(built, rate) <= FeeOfSize(counted, rate)
  {
  }

  // Exactly when the fee covers the rate on the real size: more than 100 satoshis are left over
  // before the fee, or there is no change, or the uncounted change output costs nothing more.
  lemma FeeCoversIff(total: nat, paid: nat, inputs: nat, outputs: nat, rate: real)
    requires rate >= 0.0 && PaymentFee(total, paid, inputs, outputs, rate) < U64_MAX
    requires FeeAndChange(total, paid, inputs, outputs, rate).Some?
    ensures var (fee, change) := FeeAndChange(total, paid, inputs, outputs, rate).value;
            Covers(fee, TxSize(inputs, outputs + (if change > 0 then 1 else 0)), rate) <==>
            total > paid + 100 || change == 0 || TxFee(inputs, outputs + 1, rate) == fee
  {
    var (fee, change) := FeeAndChange(total, paid, inputs, outputs, rate).value;
    var counted := TxSize(inputs, outputs + (if WillHaveChange(total, paid) then 1 else 0));
    var built := TxSize(inputs, outputs + (if change > 0 then 1 else 0));
    SizesOfBuild(total, paid, inputs, outputs, rate, counted, built);
    CoversIff(counted, built, rate);
    if built <= counted {
      FeeMonotone(built, counted, rate);
    } else {
      FeeMonotone(counted, built, rate);
    }
  }

  // The shortfall is real: 200 of 300 satoshis sent at a tenth of a satoshi a byte.
  lemma FeeCanFallShort()
    ensures FeeAndChange(300, 200, 1, 1, 0.1) == Some((20, 80))
    ensures !Covers(20, TxSize(1, 2), 0.1)
  {
  }

  // ---------- The same for outputs measured by their scripts ----------

  lemma OutputSizesAppend(lengths: seq<nat>, last: nat)
    ensures OutputSizes(lengths + [last]) == OutputSizes(lengths) + OutputSize(last)
  {
  }

  // The size a script-measured fee is charged for.
  lemma ScriptFeeSize(total: nat, paid: nat, inputs: nat, lengths: seq<nat>, rate: real, counted: nat)
    requires counted == TX_OVERHEAD + inputs * P2PKH_INPUT_SIZE + OutputSizes(lengths) +
                        (if WillHaveChange(total, paid) then OutputSize(P2PKH_OUTPUT_SIZE) else 0)
    ensures ScriptPaymentFee(total, paid, inputs, lengths, rate) == FeeOfSize(counted, rate)
  {
    OutputSizesAppend(lengths, P2PKH_OUTPUT_SIZE);
    assert lengths + [] == lengths;
  }

  // A script-measured fee covers a transaction exactly if the fee for its real size is not higher.
  lemma ScriptFeeCoversIff(total: nat, paid: nat, inputs: nat, lengths: seq<nat>, rate: real, fee: nat, size: nat)
    requires fee == ScriptPaymentFee(total, paid, inputs, lengths, rate) < U64_MAX && rate >= 0.0
    ensures Covers(fee, size, rate) <==> FeeOfSize(size, rate) <= fee
  {
  }

  // Exactly when a script-measured fee covers the transaction, whose change script, if there is
  // change, is no longer than counted: more than 100 satoshis are left over before the fee, or
  // there is no change, or the uncounted change output costs nothing more.
  lemma ScriptFeeCoversExactly(total: nat, paid: nat, inputs: nat, lengths: seq<nat>, rate: real, fee: nat,
                               changeLen: nat, built: seq<nat>, size: nat)
    requires fee == ScriptPaymentFee(total, paid, inputs, lengths, rate) < U64_MAX && rate >= 0.0
    requires paid + fee <= total && changeLen <= P2PKH_OUTPUT_SIZE
    requires built == if total > paid + fee then lengths + [changeLen] else lengths
    requires size == TX_OVERHEAD + inputs * P2PKH_INPUT_SIZE + OutputSizes(built)
    ensures total > paid + fee ==> ScriptFee(inputs, lengths + [changeLen], rate) == FeeOfSize(size, rate)
    ensures Covers(fee, size, rate) <==>
            total > paid + 100 || total == paid + fee || ScriptFee(inputs, lengths + [changeLen], rate) == fee
  {
    var counted := TX_OVERHEAD + inputs * P2PKH_INPUT_SIZE + OutputSizes(lengths) +
                   (if WillHaveChange(total, paid) then OutputSize(P2PKH_OUTPUT_SIZE) else 0);
    ScriptFeeSize(total, paid, inputs, lengths, rate, counted);
    OutputSizesAppend(lengths, changeLen);
    CoversIff(counted, size, rate);
    if WillHaveChange(total, paid) || total == paid + fee {
      FeeMonotone(size, counted, rate);
    } else {
      FeeMonotone(counted, size, rate);
    }
  }

  // A bound for the shortfall. `outputs` is what the outputs take in the end: the measured
  // scripts, and a change output no larger than the one counted.
  lemma ScriptFeeCovers(total: nat, paid: nat, inputs: nat, lengths: seq<nat>, rate: real, fee: nat, outputs: nat, size: nat)
    requires fee == ScriptPaymentFee(total, paid, inputs, lengths, rate) < U64_MAX && rate >= 0.0
    requires paid + fee <= total
    requires outputs <= OutputSizes(lengths) + (if total > paid + fee then OutputSize(P2PKH_OUTPUT_SIZE) else 0)
    requires size == TX_OVERHEAD + inputs * P2PKH_INPUT_SIZE + outputs
    ensures if total > paid + 100 || total == paid + fee then Covers(fee, size, rate)
            else Covers(fee + Ceil(OutputSize(P2PKH_OUTPUT_SIZE) as real * rate), size, rate)
  {
    var counted := TX_OVERHEAD + inputs * P2PKH_INPUT_SIZE + OutputSizes(lengths) +
                   (if WillHaveChange(total, paid) then OutputSize(P2PKH_OUTPUT_SIZE) else 0);
    ScriptFeeSize(total, paid, inputs, lengths, rate, counted);
    FeeWithin(counted, size, OutputSize(P2PKH_OUTPUT_SIZE), total - paid <= DUST_CHANGE && total > paid + fee, rate);
  }
}
