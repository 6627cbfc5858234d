/** RevertTransaction (src/chain/branchchain.cpp): undo what a node adds to a cross-chain or
    contract transaction after it was signed, to get back the transaction as its author
    hashed it. */
module Revert {
  import opened Wrappers
  import opened Scripts
  import opened Transactions

  /** The elements of s that `drop` does not match, in their original order. */
  function Without<T>(s: seq<T>, drop: T -> bool): (r: seq<T>)
    ensures |r| <= |s|
  {
    if s == [] then []
    else (if drop(s[0]) then [] else [s[0]]) + Without(s[1..], drop)
  }

  /** Erase every element `drop` matches, walking from the back as the source's
      `for (int i = size - 1; i >= 0; i--) if (...) erase(begin() + i)` loops do. */
  method EraseWhere<T>(s: seq<T>, drop: T -> bool) returns (r: seq<T>)
    ensures r == Without(s, drop)
  {
    r := s;
    var i := |s|;
    while i > 0
      invariant 0 <= i <= |s|
      invariant r == s[..i] + Without(s[i..], drop)
    {
      i := i - 1;
      EraseStep(s, i, drop, r);
      if drop(r[i]) {
        r := r[..i] + r[i + 1..];
      }
    }
    assert s[..0] == [] && s[0..] == s;
  }

  /** One step of the backward walk: erasing position i when it is dropped extends the
      erased suffix by one element. */
  lemma EraseStep<T>(s: seq<T>, i: nat, drop: T -> bool, r: seq<T>)
    requires i < |s| && r == s[..i + 1] + Without(s[i + 1..], drop)
    ensures i < |r| && r[i] == s[i]
    ensures (if drop(r[i]) then r[..i] + r[i + 1..] else r) == s[..i] + Without(s[i..], drop)
  {
    var w := Without(s[i + 1..], drop);
    assert s[i..][0] == s[i] && s[i..][1..] == s[i + 1..];
    assert Without(s[i..], drop) == (if drop(s[i]) then [] else [s[i]]) + w;
    assert s[..i + 1] == s[..i] + [s[i]];
    assert r == s[..i] + [s[i]] + w;
    if drop(s[i]) {
      assert r[..i] == s[..i];
      assert r[i + 1..] == w;
    }
  }

  /** The single input MakeBranchTransStep2Tx gives a step-2 transaction: the null outpoint
      with index 0 and an empty signature script. */
  const Step2Input: TxIn := TxIn(OutPoint(NullHash, 0), [])

  function BranchRechargeOut(env: Env): TxOut -> bool { (o: TxOut) => env.isBranchRecharge(o.scriptPubKey) }
  function ContractChangeOut(env: Env): TxOut -> bool { (o: TxOut) => env.isContractChange(o.scriptPubKey) }
  function ContractIn(env: Env): TxIn -> bool { (i: TxIn) => env.isContract(i.scriptSig) }

  /** Whether the deep revert of a step-2 transaction clears the first output's script. */
  predicate ClearsFirstOutput(tx: Tx, fromTx: Option<Tx>, deep: bool)
  {
    deep && IsBranchChainTransStep2(tx) && fromTx.Some? && IsMortgage(fromTx.value)
  }

  /** The deep part: a step-2 transaction loses its copy of the step-1 transaction, the first
      output script when the step-1 transaction is a mortgage, and its SPV proof when it
      comes from a branch. */
  function DeepReverted(tx: Tx, fromTx: Option<Tx>, deep: bool): Tx
    requires ClearsFirstOutput(tx, fromTx, deep) ==> |tx.vout| > 0
  {
    if deep && IsBranchChainTransStep2(tx) then
      var t1 := tx.(fromTx := []);
      var t2 := if ClearsFirstOutput(tx, fromTx, deep)
                then t1.(vout := t1.vout[0 := t1.vout[0].(scriptPubKey := [])]) else t1;
      if t2.fromBranchId != MAIN then t2.(pmt := Some(EmptySpvProof)) else t2
    else tx
  }

  /** The transaction RevertTransaction returns. */
  function Reverted(env: Env, tx: Tx, fromTx: Option<Tx>, deep: bool): Tx
    requires ClearsFirstOutput(tx, fromTx, deep) ==> |tx.vout| > 0
  {
    var m := DeepReverted(tx, fromTx, deep);
    if IsBranchChainTransStep2(tx) && tx.fromBranchId != MAIN then
      m.(vin := [Step2Input], vout := Without(m.vout, BranchRechargeOut(env)))
    else if IsSmartContract(tx) then
      m.(vin := Without(m.vin, ContractIn(env)), vout := Without(m.vout, ContractChangeOut(env)))
    else m
  }

  /** The source indexes vout[0] unchecked, so a caller must not deep-revert a step-2
      transaction with no outputs whose step-1 transaction is a mortgage. */
  method RevertTransaction(env: Env, tx: Tx, fromTx: Option<Tx>, deep: bool) returns (mtx: Tx)
    requires ClearsFirstOutput(tx, fromTx, deep) ==> |tx.vout| > 0
    ensures mtx == Reverted(env, tx, fromTx, deep)
  {
    mtx := tx;
    if deep {
      if IsBranchChainTransStep2(tx) {
        mtx := mtx.(fromTx := []);
        if fromTx.Some? && IsMortgage(fromTx.value) {
          mtx := mtx.(vout := mtx.vout[0 := mtx.vout[0].(scriptPubKey := [])]);
        }
        if mtx.fromBranchId != MAIN {
          mtx := mtx.(pmt := Some(EmptySpvProof));
        }
      }
    }
    assert mtx == DeepReverted(tx, fromTx, deep);

    if IsBranchChainTransStep2(tx) && tx.fromBranchId != MAIN {
      mtx := mtx.(vin := [Step2Input]);
      var vout := EraseWhere(mtx.vout, BranchRechargeOut(env));
      mtx := mtx.(vout := vout);
    } else if IsSmartContract(tx) {
      var vin := EraseWhere(mtx.vin, ContractIn(env));
      var vout := EraseWhere(mtx.vout, ContractChangeOut(env));
      mtx := mtx.(vin := vin, vout := vout);
    }
  }

  // ---- properties of Without ----

  /** Every element that `drop` does not match survives, in order: `Without` keeps exactly
      the elements it should. */
  lemma {:induction false} WithoutKeeps<T>(s: seq<T>, drop: T -> bool, x: T)
    ensures x in Without(s, drop) <==> x in s && !drop(x)
  {
    if s != [] {
      WithoutKeeps(s[1..], drop, x);
      assert s == [s[0]] + s[1..];
    }
  }

  /** Nothing to drop leaves the sequence as it is; dropping twice is dropping once. */
  lemma {:induction false} WithoutIdempotent<T>(s: seq<T>, drop: T -> bool)
    ensures (forall x :: x in s ==> !drop(x)) ==> Without(s, drop) == s
    ensures Without(Without(s, drop), drop) == Without(s, drop)
  {
    if s != [] {
      WithoutIdempotent(s[1..], drop);
      assert s == [s[0]] + s[1..];
      if !drop(s[0]) {
        var r := Without(s, drop);
        assert r == [s[0]] + Without(s[1..], drop);
        assert r[0] == s[0] && r[1..] == Without(s[1..], drop);
        assert Without(r, drop) == [s[0]] + Without(r[1..], drop);
      } else {
        assert Without(s, drop) == [] + Without(s[1..], drop) == Without(s[1..], drop);
      }
    }
  }

  /** Outputs p selects that drop does not match. */
  function SelectedKept(p: TxOut -> bool, drop: TxOut -> bool): TxOut -> bool
  {
    (o: TxOut) => p(o) && !drop(o)
  }

  /** Erasing outputs removes their value and nothing else from any selection sum. */
  lemma {:induction false} SumWithout(outs: seq<TxOut>, drop: TxOut -> bool, p: TxOut -> bool)
    ensures SumSelected(Without(outs, drop), p) == SumSelected(outs, SelectedKept(p, drop))
  {
    if outs != [] {
      var head := if drop(outs[0]) then [] else [outs[0]];
      SumWithout(outs[1..], drop, p);
      assert outs == [outs[0]] + outs[1..];
      SumSelectedAppend(head, Without(outs[1..], drop), p);
      SumSelectedAppend([outs[0]], outs[1..], SelectedKept(p, drop));
      SumSelectedSnoc([], outs[0], SelectedKept(p, drop));
      if !drop(outs[0]) {
        SumSelectedSnoc([], outs[0], p);
      }
    }
  }

  /** Erasing outputs lowers the value out by exactly the value of the erased outputs. */
  lemma ValueOutWithout(outs: seq<TxOut>, drop: TxOut -> bool)
    ensures SumSelected(Without(outs, drop), AnyOutput) == SumSelected(outs, AnyOutput) - SumSelected(outs, drop)
  {
    SumWithout(outs, drop, AnyOutput);
    SumSelectedDisjoint(outs, SelectedKept(AnyOutput, drop), drop, AnyOutput);
  }

  // ---- properties of RevertTransaction ----

  /** A revert changes only inputs, outputs, the embedded step-1 transaction and the SPV
      proof: kind, target and source branch, amounts, contract and report data are kept. */
  lemma RevertKeepsIdentity(env: Env, tx: Tx, fromTx: Option<Tx>, deep: bool)
    requires ClearsFirstOutput(tx, fromTx, deep) ==> |tx.vout| > 0
    ensures Reverted(env, tx, fromTx, deep).(vin := tx.vin, vout := tx.vout, fromTx := tx.fromTx, pmt := tx.pmt) == tx
  {
  }

  /** A step-2 transaction from a branch reverts to the single null input and no
      branch-recharge output; every other output keeps its value and order, so the value out
      drops by exactly the recharge outputs. */
  lemma RevertStep2FromBranch(env: Env, tx: Tx, fromTx: Option<Tx>)
    requires IsBranchChainTransStep2(tx) && tx.fromBranchId != MAIN
    ensures var r := Reverted(env, tx, fromTx, false);
      && r.vin == [Step2Input]
      && (forall o :: o in r.vout <==> o in tx.vout && !env.isBranchRecharge(o.scriptPubKey))
      && ValueOut(r) == ValueOut(tx) - SumSelected(tx.vout, BranchRechargeOut(env))
      && r.fromTx == tx.fromTx && r.pmt == tx.pmt
  {
    var r := Reverted(env, tx, fromTx, false);
    forall o ensures o in r.vout <==> o in tx.vout && !env.isBranchRecharge(o.scriptPubKey) {
      WithoutKeeps(tx.vout, BranchRechargeOut(env), o);
    }
    ValueOutWithout(tx.vout, BranchRechargeOut(env));
  }

  /** The deep revert of a step-2 transaction: it drops the copy of the step-1 transaction,
      clears the first output's script when the step-1 transaction is a mortgage (keeping that
      output's value and every other output), and empties the SPV proof when the transaction
      comes from a branch; the shallow revert then runs on the result. */
  lemma RevertStep2Deep(env: Env, tx: Tx, fromTx: Option<Tx>)
    requires IsBranchChainTransStep2(tx)
    requires ClearsFirstOutput(tx, fromTx, true) ==> |tx.vout| > 0
    ensures var d := DeepReverted(tx, fromTx, true);
      && d.fromTx == []
      && (fromTx.Some? && IsMortgage(fromTx.value) ==>
            |d.vout| == |tx.vout| && d.vout[0].scriptPubKey == [] && d.vout[0].nValue == tx.vout[0].nValue &&
            d.vout[1..] == tx.vout[1..])
      && (fromTx.None? || !IsMortgage(fromTx.value) ==> d.vout == tx.vout)
      && (tx.fromBranchId != MAIN ==> d.pmt == Some(EmptySpvProof))
      && (tx.fromBranchId == MAIN ==> d.pmt == tx.pmt)
      && d.vin == tx.vin
    ensures Reverted(env, tx, fromTx, true) == Reverted(env, DeepReverted(tx, fromTx, true), fromTx, false)
    ensures tx.fromBranchId != MAIN ==>
      var r := Reverted(env, tx, fromTx, true);
      && r.fromTx == [] && r.pmt == Some(EmptySpvProof) && r.vin == [Step2Input]
      && (forall o :: o in r.vout <==> o in DeepReverted(tx, fromTx, true).vout && !env.isBranchRecharge(o.scriptPubKey))
  {
    var d := DeepReverted(tx, fromTx, true);
    if tx.fromBranchId != MAIN {
      RevertStep2FromBranch(env, d, fromTx);
    }
  }

  /** A smart-contract transaction reverts to the inputs not signed by a contract and the
      outputs that are not contract change, each in its original order. */
  lemma RevertSmartContract(env: Env, tx: Tx, fromTx: Option<Tx>, deep: bool)
    requires IsSmartContract(tx)
    ensures var r := Reverted(env, tx, fromTx, deep);
      && (forall i :: i in r.vin <==> i in tx.vin && !env.isContract(i.scriptSig))
      && (forall o :: o in r.vout <==> o in tx.vout && !env.isContractChange(o.scriptPubKey))
      && ValueOut(r) == ValueOut(tx) - SumSelected(tx.vout, ContractChangeOut(env))
  {
    var r := Reverted(env, tx, fromTx, deep);
    forall i ensures i in r.vin <==> i in tx.vin && !env.isContract(i.scriptSig) {
      WithoutKeeps(tx.vin, ContractIn(env), i);
    }
    forall o ensures o in r.vout <==> o in tx.vout && !env.isContractChange(o.scriptPubKey) {
      WithoutKeeps(tx.vout, ContractChangeOut(env), o);
    }
    ValueOutWithout(tx.vout, ContractChangeOut(env));
  }

  /** The shallow revert is idempotent: reverting a reverted transaction changes nothing. */
  lemma RevertIdempotent(env: Env, tx: Tx, fromTx: Option<Tx>)
    ensures Reverted(env, Reverted(env, tx, fromTx, false), fromTx, false) == Reverted(env, tx, fromTx, false)
  {
    if IsBranchChainTransStep2(tx) && tx.fromBranchId != MAIN {
      WithoutIdempotent(tx.vout, BranchRechargeOut(env));
    } else if IsSmartContract(tx) {
      WithoutIdempotent(tx.vin, ContractIn(env));
      WithoutIdempotent(tx.vout, ContractChangeOut(env));
    }
  }

  /** Transactions that are neither step-2 transfers from a branch nor smart contracts come
      back unchanged from a shallow revert. */
  lemma RevertOthersUnchanged(env: Env, tx: Tx, fromTx: Option<Tx>)
    requires !(IsBranchChainTransStep2(tx) && tx.fromBranchId != MAIN) && !IsSmartContract(tx)
    ensures Reverted(env, tx, fromTx, false) == tx
  {
  }
}
