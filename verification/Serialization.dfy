/**
 A transaction as bytes, as far as its size goes: the lengths the fees are reckoned with are
 those of the serialized form.
 */
module Serialization {
  import opened Scripts
  import opened Fees

  function Varint(n: nat): Bytes {
    if n < 0xfd then [n]
    else if n <= 0xffff then [0xfd] + LeBytes(n, 2)
    else if n <= 0xffff_ffff then [0xfe] + LeBytes(n, 4)
    else [0xff] + LeBytes(n, 8)
  }

  datatype TxInput = TxInput(txid: Hash32, vout: nat, unlocking: Bytes, sequence: nat)

  datatype TxOutput = TxOutput(satoshis: nat, script: Bytes)

  type Hash32 = h: Bytes | |h| == 32 witness seq(32, i => 0)

  function InputBytes(i: TxInput): Bytes {
    i.txid + LeBytes(i.vout, 4) + Varint(|i.unlocking|) + i.unlocking + LeBytes(i.sequence, 4)
  }

  function OutputBytes(o: TxOutput): Bytes {
    LeBytes(o.satoshis, 8) + Varint(|o.script|) + o.script
  }

  function AllInputs(inputs: seq<TxInput>): Bytes {
    if inputs == [] then [] else AllInputs(inputs[..|inputs| - 1]) + InputBytes(inputs[|inputs| - 1])
  }

  function AllOutputs(outputs: seq<TxOutput>): Bytes {
    if outputs == [] then [] else AllOutputs(outputs[..|outputs| - 1]) + OutputBytes(outputs[|outputs| - 1])
  }

  function TxBytes(version: nat, inputs: seq<TxInput>, outputs: seq<TxOutput>, lockTime: nat): Bytes {
    LeBytes(version, 4) + Varint(|inputs|) + AllInputs(inputs) + Varint(|outputs|) + AllOutputs(outputs) +
    LeBytes(lockTime, 4)
  }

  // An output takes what it is counted with.
  lemma OutputTakesItsSize(o: TxOutput)
    requires |o.script| <= 0xffff_ffff
    ensures |OutputBytes(o)| == OutputSize(|o.script|)
  {
  }

  predicate HasLengths(outputs: seq<TxOutput>, lengths: seq<nat>) {
    |outputs| == |lengths| && forall i :: 0 <= i < |outputs| ==> |outputs[i].script| == lengths[i] <= 0xffff_ffff
  }

  lemma {:induction false} OutputsTakeTheirSizes(outputs: seq<TxOutput>, lengths: seq<nat>)
    requires HasLengths(outputs, lengths)
    ensures |AllOutputs(outputs)| == OutputSizes(lengths)
  {
    if outputs == [] {
    } else {
      OutputsTakeTheirSizes(outputs[..|outputs| - 1], lengths[..|lengths| - 1]);
      OutputTakesItsSize(outputs[|outputs| - 1]);
    }
  }

  // A signature of 72 bytes and a public key of 33, each behind its length.
  lemma {:induction false} InputsTakeTheirSizes(inputs: seq<TxInput>)
    requires forall i :: 0 <= i < |inputs| ==> |inputs[i].unlocking| == 1 + 72 + 1 + 33
    ensures |AllInputs(inputs)| == |inputs| * P2PKH_INPUT_SIZE
  {
    if inputs == [] {
    } else {
      InputsTakeTheirSizes(inputs[..|inputs| - 1]);
    }
  }

  // The size a script-measured fee is charged for is that of the transaction, but for two or more
  // bytes that 253 inputs or outputs take more.
  lemma TransactionTakesItsSize(version: nat, inputs: seq<TxInput>, outputs: seq<TxOutput>, lengths: seq<nat>, lockTime: nat)
    requires forall i :: 0 <= i < |inputs| ==> |inputs[i].unlocking| == 107
    requires HasLengths(outputs, lengths)
    ensures var counted := TX_OVERHEAD + |inputs| * P2PKH_INPUT_SIZE + OutputSizes(lengths);
            var size := |TxBytes(version, inputs, outputs, lockTime)|;
            size >= counted && (size == counted <==> |inputs| < 253 && |outputs| < 253)
  {
    InputsTakeTheirSizes(inputs);
    OutputsTakeTheirSizes(outputs, lengths);
  }

  lemma {:induction false} P2pkhSizes(lengths: seq<nat>)
    requires forall i :: 0 <= i < |lengths| ==> lengths[i] == 25
    ensures OutputSizes(lengths) == |lengths| * P2PKH_OUTPUT_SIZE
  {
    if lengths == [] {
    } else {
      P2pkhSizes(lengths[..|lengths| - 1]);
    }
  }

  // So is the size of a transaction that pays addresses only; their scripts take 25 bytes.
  lemma P2pkhTransactionTakesItsSize(version: nat, inputs: seq<TxInput>, outputs: seq<TxOutput>, hashes: seq<Hash>,
                                     lockTime: nat)
    requires forall i :: 0 <= i < |inputs| ==> |inputs[i].unlocking| == 107
    requires |outputs| == |hashes| && forall i :: 0 <= i < |outputs| ==> outputs[i].script == P2pkh(hashes[i])
    ensures var size := |TxBytes(version, inputs, outputs, lockTime)|;
            && size >= TxSize(|inputs|, |outputs|)
            && (size == TxSize(|inputs|, |outputs|) <==> |inputs| < 253 && |outputs| < 253)
  {
    var lengths: seq<nat> := seq(|outputs|, i => 25);
    TransactionTakesItsSize(version, inputs, outputs, lengths, lockTime);
    P2pkhSizes(lengths);
  }
}
