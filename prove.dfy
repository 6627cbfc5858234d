/** Proofs that a branch transaction or a branch block's coinbase is valid, checked on the
    main chain from the transactions and SPV proofs a prove transaction carries
    (src/chain/branchchain.cpp). */
module Prove {
  import opened Wrappers
  import opened Scripts
  import opened Transactions
  import opened Revert
  import opened Spv
  import opened BranchChecks

  /** The output an outpoint names, or an empty one when the index is out of range. */
  function SpentOf(item: ProveDataItem, n: nat): TxOut
  {
    if n < |item.tx.vout| then item.tx.vout[n] else TxOut(0, [])
  }

  /** What the i-th input of proveTx must satisfy: its proof item names a known block, its SPV
      proof places the supplied transaction in a known block, that transaction is the one the
      input spends and has the output, a contract output is the transaction's own contract,
      and the signature passes the test as written at lines 1284-1299. */
  predicate InputProved(env: Env, proveTx: Tx, items: seq<ProveDataItem>, base: nat, i: nat, branch: BranchData)
    requires i < |proveTx.vin| && i + base < |items|
  {
    InputLocated(env, proveTx, items, base, i, branch)
    && SignatureAcceptedAsWritten(env, proveTx, i, items[i + base].tx.vout[proveTx.vin[i].prevout.n])
  }

  /** The same demands with the intended signature rule. */
  predicate InputProvedIntended(env: Env, proveTx: Tx, items: seq<ProveDataItem>, base: nat, i: nat, branch: BranchData)
    requires i < |proveTx.vin| && i + base < |items|
  {
    InputLocated(env, proveTx, items, base, i, branch)
    && SignatureAccepted(env, proveTx, i, items[i + base].tx.vout[proveTx.vin[i].prevout.n])
  }

  /** Everything input i must satisfy apart from its signature. */
  predicate InputLocated(env: Env, proveTx: Tx, items: seq<ProveDataItem>, base: nat, i: nat, branch: BranchData)
    requires i < |proveTx.vin| && i + base < |items|
  {
    var item := items[i + base];
    var prevout := proveTx.vin[i].prevout;
    && item.blockHash in branch.heads
    && item.spv.blockhash in branch.heads
    && CheckSpvProof(env, branch.heads[item.spv.blockhash].merkleRoot, item.spv.pmt, env.hash(item.tx)) >= 0
    && env.hash(item.tx) == prevout.hash
    && prevout.n < |item.tx.vout|
    && var o := item.tx.vout[prevout.n];
       env.isContract(o.scriptPubKey) ==> o.scriptPubKey == env.scriptForContract(proveTx.contractAddr)
  }

  // ---- the signature rule of one input ----

  /** As written at branchchain.cpp:1284-1299: a failed script check is forgiven for a
      contract call paying from its own contract, and, because `checkok` starts out true,
      for every transaction that is not a contract call. */
  predicate SignatureAcceptedAsWritten(env: Env, proveTx: Tx, i: nat, o: TxOut)
  {
    env.verifyInput(proveTx, i, o.scriptPubKey, o.nValue)
    || !IsCallContract(proveTx)
    || env.contractAddrOf(o.scriptPubKey) == Some(proveTx.contractAddr)
  }

  /** As evidently intended: a failed script check is forgiven only for a contract call
      paying from its own contract. */
  predicate SignatureAccepted(env: Env, proveTx: Tx, i: nat, o: TxOut)
  {
    env.verifyInput(proveTx, i, o.scriptPubKey, o.nValue)
    || (IsCallContract(proveTx) && env.contractAddrOf(o.scriptPubKey) == Some(proveTx.contractAddr))
  }

  /** The source's steps: the `!checkok` rejection can never be reached, since `checkok` is
      true on every path that arrives there, so it is not written out. */
  method CheckInputSignatureAsWritten(env: Env, proveTx: Tx, i: nat, o: TxOut) returns (v: Verdict)
    ensures v.Accepted? <==> SignatureAcceptedAsWritten(env, proveTx, i, o)
  {
    if !env.verifyInput(proveTx, i, o.scriptPubKey, o.nValue) {
      if IsCallContract(proveTx) {
        var destKey := env.contractAddrOf(o.scriptPubKey);
        if destKey.None? {
          return Rejected(0, "check smartcontract sign fail, contract addr fail");
        }
        if destKey.value != proveTx.contractAddr {
          return Rejected(0, "check smartcontract sign fail, contract addr error");
        }
      }
    }
    return Accepted;
  }

  /** The same steps with `checkok` starting out false. */
  method CheckInputSignature(env: Env, proveTx: Tx, i: nat, o: TxOut) returns (v: Verdict)
    ensures v.Accepted? <==> SignatureAccepted(env, proveTx, i, o)
    ensures v.Accepted? || v.Rejected?
  {
    if !env.verifyInput(proveTx, i, o.scriptPubKey, o.nValue) {
      var checkOk := false;
      if IsCallContract(proveTx) {
        var destKey := env.contractAddrOf(o.scriptPubKey);
        if destKey.None? {
          return Rejected(0, "check smartcontract sign fail, contract addr fail");
        }
        if destKey.value != proveTx.contractAddr {
          return Rejected(0, "check smartcontract sign fail, contract addr error");
        }
        checkOk := true;
      }
      if !checkOk {
        return Rejected(0, "CheckProveReportTx scriptcheck fail");
      }
    }
    return Accepted;
  }

  /** The discrepancy: as written, an input of an ordinary (non contract-call) transaction
      whose signature does not verify is accepted; the intended rule rejects it. */
  lemma AsWrittenAcceptsBadSignature(env: Env, proveTx: Tx, i: nat, o: TxOut)
    requires !IsCallContract(proveTx) && !env.verifyInput(proveTx, i, o.scriptPubKey, o.nValue)
    ensures SignatureAcceptedAsWritten(env, proveTx, i, o)
    ensures !SignatureAccepted(env, proveTx, i, o)
  {
  }

  /** Intended rule: an accepted input either carries a valid signature or is a contract call
      spending an output of its own contract; and it accepts nothing the as-written rule rejects. */
  lemma SignatureAcceptedMeansSigned(env: Env, proveTx: Tx, i: nat, o: TxOut)
    requires SignatureAccepted(env, proveTx, i, o)
    ensures !IsCallContract(proveTx) ==> env.verifyInput(proveTx, i, o.scriptPubKey, o.nValue)
    ensures !env.verifyInput(proveTx, i, o.scriptPubKey, o.nValue) ==> env.contractAddrOf(o.scriptPubKey) == Some(proveTx.contractAddr)
    ensures SignatureAcceptedAsWritten(env, proveTx, i, o)
  {
  }

  /** The intended input check is stricter than the one as written: it accepts only inputs the
      code accepts, and, outside contract calls, only signed ones; an unsigned input of any
      other transaction that the code accepts is refused. */
  lemma IntendedInputRule(env: Env, proveTx: Tx, items: seq<ProveDataItem>, base: nat, i: nat, branch: BranchData)
    requires i < |proveTx.vin| && i + base < |items|
    ensures InputProvedIntended(env, proveTx, items, base, i, branch) ==> InputProved(env, proveTx, items, base, i, branch)
    ensures InputProvedIntended(env, proveTx, items, base, i, branch) && !IsCallContract(proveTx) ==>
            var o := items[i + base].tx.vout[proveTx.vin[i].prevout.n];
            env.verifyInput(proveTx, i, o.scriptPubKey, o.nValue)
    ensures InputProved(env, proveTx, items, base, i, branch) && !IsCallContract(proveTx) &&
            (var o := items[i + base].tx.vout[proveTx.vin[i].prevout.n];
             !env.verifyInput(proveTx, i, o.scriptPubKey, o.nValue)) ==>
            !InputProvedIntended(env, proveTx, items, base, i, branch)
  {
    if InputProved(env, proveTx, items, base, i, branch) {
      var o := items[i + base].tx.vout[proveTx.vin[i].prevout.n];
      if InputProvedIntended(env, proveTx, items, base, i, branch) {
        SignatureAcceptedMeansSigned(env, proveTx, i, o);
      } else if !IsCallContract(proveTx) && !env.verifyInput(proveTx, i, o.scriptPubKey, o.nValue) {
        AsWrittenAcceptsBadSignature(env, proveTx, i, o);
      }
    }
  }

  /** The outputs the first n inputs spend. */
  function Spent(proveTx: Tx, items: seq<ProveDataItem>, base: nat, n: nat): (r: seq<TxOut>)
    requires n <= |proveTx.vin| && |items| == |proveTx.vin| + base
    ensures |r| == n
  {
    if n == 0 then []
    else Spent(proveTx, items, base, n - 1) + [SpentOf(items[n - 1 + base], proveTx.vin[n - 1].prevout.n)]
  }

  /** One more input adds its spent output to a selection sum over the spent outputs. */
  lemma SpentStep(proveTx: Tx, items: seq<ProveDataItem>, base: nat, i: nat, p: TxOut -> bool)
    requires i < |proveTx.vin| && |items| == |proveTx.vin| + base
    ensures var o := SpentOf(items[i + base], proveTx.vin[i].prevout.n);
      SumSelected(Spent(proveTx, items, base, i + 1), p) == SumSelected(Spent(proveTx, items, base, i), p) + (if p(o) then o.nValue else 0)
  {
    SumSelectedSnoc(Spent(proveTx, items, base, i), SpentOf(items[i + base], proveTx.vin[i].prevout.n), p);
  }

  function ContractInputOut(env: Env): TxOut -> bool { (o: TxOut) => env.isContract(o.scriptPubKey) }

  /** nInAmount: the value of every spent output. */
  function InAmount(proveTx: Tx, items: seq<ProveDataItem>, base: nat): Amount
    requires |items| == |proveTx.vin| + base
  {
    SumSelected(Spent(proveTx, items, base, |proveTx.vin|), AnyOutput)
  }

  /** nContractIn: the value of the spent contract outputs. */
  function ContractIn(env: Env, proveTx: Tx, items: seq<ProveDataItem>, base: nat): Amount
    requires |items| == |proveTx.vin| + base
  {
    SumSelected(Spent(proveTx, items, base, |proveTx.vin|), ContractInputOut(env))
  }

  /** An output the prove check accepts: a valid money value, and contract change only to the
      transaction's own contract. */
  predicate OutputOk(env: Env, proveTx: Tx, o: TxOut)
  {
    0 <= o.nValue <= MAX_MONEY
    && (env.isContractChange(o.scriptPubKey) ==> env.contractAddrOf(o.scriptPubKey) == Some(proveTx.contractAddr))
  }

  function Base(jumpFirst: bool): nat { if jumpFirst then 1 else 0 }

  /** The first n inputs are each proved by their item. */
  predicate InputsProvedUpTo(env: Env, proveTx: Tx, items: seq<ProveDataItem>, base: nat, n: nat, branch: BranchData)
    requires n <= |proveTx.vin| && |items| == |proveTx.vin| + base
  {
    n == 0 || (InputsProvedUpTo(env, proveTx, items, base, n - 1, branch) && InputProved(env, proveTx, items, base, n - 1, branch))
  }

  /** One unproved input leaves every longer run of inputs unproved. */
  lemma {:induction false} InputUnprovedBlocks(env: Env, proveTx: Tx, items: seq<ProveDataItem>, base: nat, n: nat, k: nat, branch: BranchData)
    requires k < n <= |proveTx.vin| && |items| == |proveTx.vin| + base
    requires !InputProved(env, proveTx, items, base, k, branch)
    ensures !InputsProvedUpTo(env, proveTx, items, base, n, branch)
  {
    if k < n - 1 {
      InputUnprovedBlocks(env, proveTx, items, base, n - 1, k, branch);
    }
  }

  /** Every input is proved by its item. */
  predicate InputsProved(env: Env, proveTx: Tx, items: seq<ProveDataItem>, base: nat, branch: BranchData)
    requires |items| == |proveTx.vin| + base
  {
    InputsProvedUpTo(env, proveTx, items, base, |proveTx.vin|, branch)
  }

  /** InputsProvedUpTo is the statement that each of the first n inputs is proved. */
  lemma {:induction false} InputsProvedUpToMeans(env: Env, proveTx: Tx, items: seq<ProveDataItem>, base: nat, n: nat, branch: BranchData)
    requires n <= |proveTx.vin| && |items| == |proveTx.vin| + base
    ensures InputsProvedUpTo(env, proveTx, items, base, n, branch)
        <==> forall k :: 0 <= k < n ==> InputProved(env, proveTx, items, base, k, branch)
  {
    if n > 0 {
      InputsProvedUpToMeans(env, proveTx, items, base, n - 1, branch);
    }
  }

  /** Every output is acceptable and the value out is a valid money value. */
  predicate OutputsOk(env: Env, proveTx: Tx)
  {
    (forall o :: o in proveTx.vout ==> OutputOk(env, proveTx, o)) && MoneyRange(ValueOut(proveTx))
  }

  /** Everything CheckTransactionProveWithProveData demands of a transaction and its proof
      items: not a coinbase, one item per input (after the skipped first one), every input
      proved, every output in range, the contract's inputs minus its change equal to
      contractOut, and no more value out than in. */
  predicate ProveValid(env: Env, proveTx: Tx, items: seq<ProveDataItem>, branch: BranchData, jumpFirst: bool)
  {
    var base := Base(jumpFirst);
    && !IsCoinBase(proveTx)
    && |items| == |proveTx.vin| + base
    && InputsProved(env, proveTx, items, base, branch)
    && OutputsOk(env, proveTx)
    && ContractIn(env, proveTx, items, base) - SumSelected(proveTx.vout, ContractChangeOut(env)) == proveTx.contractOut
    && InAmount(proveTx, items, base) >= ValueOut(proveTx)
  }

  /** The checks on input i, in the source's order. */
  method CheckProveInput(env: Env, proveTx: Tx, items: seq<ProveDataItem>, base: nat, i: nat, branch: BranchData)
    returns (v: Verdict)
    requires i < |proveTx.vin| && i + base < |items|
    ensures v.Accepted? <==> InputProved(env, proveTx, items, base, i, branch)
  {
    var item := items[i + base];
    if item.blockHash !in branch.heads {
      return Rejected(0, "proveitem's block not exist");
    }
    if item.spv.blockhash !in branch.heads {
      return Failed("no block data for the spv proof");
    }
    var blockData := branch.heads[item.spv.blockhash];
    if CheckSpvProof(env, blockData.merkleRoot, item.spv.pmt, env.hash(item.tx)) < 0 {
      return Rejected(0, "Check Prove ReportTx spv check fail");
    }
    var prevout := proveTx.vin[i].prevout;
    if env.hash(item.tx) != prevout.hash {
      return Rejected(0, "Check Prove ReportTx provide tx not match");
    }
    if prevout.n >= |item.tx.vout| {
      return Rejected(0, "Check Prove ReportTx ");
    }
    var spent := item.tx.vout[prevout.n];
    if env.isContract(spent.scriptPubKey) && spent.scriptPubKey != env.scriptForContract(proveTx.contractAddr) {
      return Rejected(0, "Invalid contract inpoint");
    }
    v := CheckInputSignatureAsWritten(env, proveTx, i, spent);
  }

  /** With non-negative outputs, a prefix never sums to more than the whole. */
  lemma PrefixAtMostTotal(outs: seq<TxOut>, j: nat)
    requires j <= |outs|
    requires forall o :: o in outs ==> o.nValue >= 0
    ensures SumSelected(outs[..j], AnyOutput) <= SumSelected(outs, AnyOutput)
  {
    assert outs == outs[..j] + outs[j..];
    SumSelectedAppend(outs[..j], outs[j..], AnyOutput);
    SumSelectedMonotone(outs[j..], AnyOutput, AnyOutput);
  }

  /** One more output of the prefix adds its value to a selection sum. */
  lemma PrefixSumStep(outs: seq<TxOut>, j: nat, p: TxOut -> bool)
    requires j < |outs|
    ensures SumSelected(outs[..j + 1], p) == SumSelected(outs[..j], p) + (if p(outs[j]) then outs[j].nValue else 0)
  {
    assert outs[..j + 1][..j] == outs[..j];
  }

  /** The output loop: range checks, the running total, and the contract change total. */
  method SumProveOutputs(env: Env, proveTx: Tx) returns (v: Verdict, valueOut: Amount, contractOut: Amount)
    ensures v.Accepted? <==> OutputsOk(env, proveTx)
    ensures v.Accepted? ==> valueOut == ValueOut(proveTx) && contractOut == SumSelected(proveTx.vout, ContractChangeOut(env))
    ensures v.Accepted? || v.Rejected?
  {
    var vout := proveTx.vout;
    valueOut, contractOut := 0, 0;
    for j := 0 to |vout|
      invariant forall k :: 0 <= k < j ==> OutputOk(env, proveTx, vout[k])
      invariant valueOut == SumSelected(vout[..j], AnyOutput) && MoneyRange(valueOut)
      invariant contractOut == SumSelected(vout[..j], ContractChangeOut(env))
    {
      v, valueOut, contractOut := ProveOutputStep(env, proveTx, j, valueOut, contractOut);
      if !v.Accepted? {
        return v, valueOut, contractOut;
      }
    }
    assert vout[..|vout|] == vout;
    v := Accepted;
  }

  /** One pass of the output loop: output j is range-checked and added to the running total,
      and to the contract change total when it is contract change. */
  method ProveOutputStep(env: Env, proveTx: Tx, j: nat, valueOut: Amount, contractOut: Amount)
    returns (v: Verdict, valueOut': Amount, contractOut': Amount)
    requires j < |proveTx.vout|
    requires forall k :: 0 <= k < j ==> OutputOk(env, proveTx, proveTx.vout[k])
    requires valueOut == SumSelected(proveTx.vout[..j], AnyOutput) && MoneyRange(valueOut)
    requires contractOut == SumSelected(proveTx.vout[..j], ContractChangeOut(env))
    ensures v.Accepted? || v.Rejected?
    ensures !v.Accepted? ==> !OutputsOk(env, proveTx)
    ensures v.Accepted? ==> forall k :: 0 <= k <= j ==> OutputOk(env, proveTx, proveTx.vout[k])
    ensures v.Accepted? ==> valueOut' == SumSelected(proveTx.vout[..j + 1], AnyOutput) && MoneyRange(valueOut')
    ensures v.Accepted? ==> contractOut' == SumSelected(proveTx.vout[..j + 1], ContractChangeOut(env))
  {
    var vout := proveTx.vout;
    PrefixSumStep(vout, j, AnyOutput);
    PrefixSumStep(vout, j, ContractChangeOut(env));
    var txout := vout[j];
    assert txout in vout;
    valueOut', contractOut' := valueOut, contractOut;
    if txout.nValue < 0 {
      return Rejected(100, "CheckProveReportTx bad-txns-vout-negative"), valueOut', contractOut';
    }
    if txout.nValue > MAX_MONEY {
      return Rejected(100, "CheckProveReportTx bad-txns-vout-toolarge"), valueOut', contractOut';
    }
    valueOut' := valueOut + txout.nValue;
    if !MoneyRange(valueOut') {
      if forall o :: o in vout ==> o.nValue >= 0 {
        PrefixAtMostTotal(vout, j + 1);
      }
      return Rejected(100, "CheckProveReportTx bad-txns-txouttotal-toolarge"), valueOut', contractOut';
    }
    if env.isContractChange(txout.scriptPubKey) {
      var contractId := env.contractAddrOf(txout.scriptPubKey);
      if contractId.None? || contractId.value != proveTx.contractAddr {
        return Rejected(0, "Invalid contract out public key"), valueOut', contractOut';
      }
      contractOut' := contractOut + txout.nValue;
    }
    v := Accepted;
  }

  /** The input loop: each input's checks in turn, adding up nInAmount and nContractIn. */
  method SumProveInputs(env: Env, proveTx: Tx, items: seq<ProveDataItem>, base: nat, branch: BranchData)
    returns (v: Verdict, inAmount: Amount, contractIn: Amount)
    requires |items| == |proveTx.vin| + base
    ensures v.Accepted? <==> InputsProved(env, proveTx, items, base, branch)
    ensures v.Accepted? ==> inAmount == InAmount(proveTx, items, base) && contractIn == ContractIn(env, proveTx, items, base)
  {
    inAmount, contractIn := 0, 0;
    for i := 0 to |proveTx.vin|
      invariant InputsProvedUpTo(env, proveTx, items, base, i, branch)
      invariant inAmount == SumSelected(Spent(proveTx, items, base, i), AnyOutput)
      invariant contractIn == SumSelected(Spent(proveTx, items, base, i), ContractInputOut(env))
    {
      v, inAmount, contractIn := ProveInputStep(env, proveTx, items, base, i, branch, inAmount, contractIn);
      if !v.Accepted? {
        return v, inAmount, contractIn;
      }
    }
    v := Accepted;
  }

  /** One pass of the input loop: input i is checked, and on success its spent output is added
      to the sums. */
  method ProveInputStep(env: Env, proveTx: Tx, items: seq<ProveDataItem>, base: nat, i: nat, branch: BranchData,
                        inAmount: Amount, contractIn: Amount)
    returns (v: Verdict, inAmount': Amount, contractIn': Amount)
    requires i < |proveTx.vin| && |items| == |proveTx.vin| + base
    requires InputsProvedUpTo(env, proveTx, items, base, i, branch)
    requires inAmount == SumSelected(Spent(proveTx, items, base, i), AnyOutput)
    requires contractIn == SumSelected(Spent(proveTx, items, base, i), ContractInputOut(env))
    ensures v.Accepted? ==> InputsProvedUpTo(env, proveTx, items, base, i + 1, branch)
    ensures !v.Accepted? ==> !InputsProved(env, proveTx, items, base, branch)
    ensures v.Accepted? ==> inAmount' == SumSelected(Spent(proveTx, items, base, i + 1), AnyOutput)
    ensures v.Accepted? ==> contractIn' == SumSelected(Spent(proveTx, items, base, i + 1), ContractInputOut(env))
  {
    v := CheckProveInput(env, proveTx, items, base, i, branch);
    if !v.Accepted? {
      InputUnprovedBlocks(env, proveTx, items, base, |proveTx.vin|, i, branch);
      return v, inAmount, contractIn;
    }
    inAmount', contractIn' := AddSpent(env, proveTx, items, base, i, inAmount, contractIn);
  }

  /** The input loop's sums after input i: its spent output's value is added to nInAmount,
      and to nContractIn when that output is a contract's. */
  method AddSpent(env: Env, proveTx: Tx, items: seq<ProveDataItem>, base: nat, i: nat, inAmount: Amount, contractIn: Amount)
    returns (inAmount': Amount, contractIn': Amount)
    requires i < |proveTx.vin| && |items| == |proveTx.vin| + base
    requires inAmount == SumSelected(Spent(proveTx, items, base, i), AnyOutput)
    requires contractIn == SumSelected(Spent(proveTx, items, base, i), ContractInputOut(env))
    ensures inAmount' == SumSelected(Spent(proveTx, items, base, i + 1), AnyOutput)
    ensures contractIn' == SumSelected(Spent(proveTx, items, base, i + 1), ContractInputOut(env))
  {
    var spent := SpentOf(items[i + base], proveTx.vin[i].prevout.n);
    SpentStep(proveTx, items, base, i, AnyOutput);
    SpentStep(proveTx, items, base, i, ContractInputOut(env));
    inAmount' := inAmount + spent.nValue;
    contractIn' := contractIn;
    if env.isContract(spent.scriptPubKey) {
      contractIn' := contractIn + spent.nValue;
    }
  }

  /** CheckTransactionProveWithProveData: fee is set, to the inputs' value minus the outputs'
      value, only on acceptance. jumpFirst skips the first proof item, which proves the
      transaction itself. */
  method CheckTransactionProveWithProveData(env: Env, proveTx: Tx, items: seq<ProveDataItem>, branch: BranchData, jumpFirst: bool)
    returns (v: Verdict, fee: Amount)
    ensures v.Accepted? <==> ProveValid(env, proveTx, items, branch, jumpFirst)
    ensures v.Accepted? ==> fee == InAmount(proveTx, items, Base(jumpFirst)) - ValueOut(proveTx) && fee >= 0
  {
    fee := 0;
    if IsCoinBase(proveTx) {
      return Rejected(0, "CheckProveReportTx Prove tx can not a coinbase transaction"), fee;
    }
    var base := Base(jumpFirst);
    if |items| != |proveTx.vin| + base {
      return Rejected(0, "vectProveData size invalid for prove each input"), fee;
    }
    var inAmount, contractIn;
    v, inAmount, contractIn := SumProveInputs(env, proveTx, items, base, branch);
    if !v.Accepted? {
      return v, fee;
    }
    var valueOut, contractOut;
    v, valueOut, contractOut := SumProveOutputs(env, proveTx);
    if !v.Accepted? {
      return v, fee;
    }
    if contractIn - contractOut != proveTx.contractOut {
      return Rejected(0, "Contract out not match"), fee;
    }
    // The second MoneyRange(nValueOut) test of the source cannot fail here: the output loop
    // already rejected every running total outside the range.
    if inAmount < valueOut {
      return Rejected(100, "value in/out error"), fee;
    }
    fee := inAmount - valueOut;
    return Accepted, fee;
  }

  // ---- CheckProveCoinbaseTx ----

  /** The fee of the transaction at vtx[k + 2] as proved by proof group k. */
  function GroupFee(vtx: seq<Tx>, groups: seq<seq<ProveDataItem>>, k: nat): Amount
    requires k < |groups| && |vtx| == |groups| + 2 && |groups[k]| == |vtx[k + 2].vin|
  {
    InAmount(vtx[k + 2], groups[k], 0) - ValueOut(vtx[k + 2])
  }

  /** Proof group k proves transaction vtx[k + 2]. */
  predicate GroupProved(env: Env, vtx: seq<Tx>, groups: seq<seq<ProveDataItem>>, k: nat, branch: BranchData)
    requires k < |groups| && |vtx| == |groups| + 2
  {
    ProveValid(env, vtx[k + 2], groups[k], branch, false)
  }

  /** The first n groups each prove their transaction. */
  predicate GroupsProvedUpTo(env: Env, vtx: seq<Tx>, groups: seq<seq<ProveDataItem>>, n: nat, branch: BranchData)
    requires n <= |groups| && |vtx| == |groups| + 2
  {
    n == 0 || (GroupsProvedUpTo(env, vtx, groups, n - 1, branch) && GroupProved(env, vtx, groups, n - 1, branch))
  }

  /** GroupsProvedUpTo is the statement that each of the first n groups proves its transaction. */
  lemma {:induction false} GroupsProvedUpToMeans(env: Env, vtx: seq<Tx>, groups: seq<seq<ProveDataItem>>, n: nat, branch: BranchData)
    requires n <= |groups| && |vtx| == |groups| + 2
    ensures GroupsProvedUpTo(env, vtx, groups, n, branch) <==> forall k :: 0 <= k < n ==> GroupProved(env, vtx, groups, k, branch)
  {
    if n > 0 {
      GroupsProvedUpToMeans(env, vtx, groups, n - 1, branch);
    }
  }

  /** One unproved group leaves every longer run of groups unproved. */
  lemma {:induction false} GroupUnprovedBlocks(env: Env, vtx: seq<Tx>, groups: seq<seq<ProveDataItem>>, n: nat, k: nat, branch: BranchData)
    requires k < n <= |groups| && |vtx| == |groups| + 2
    requires !GroupProved(env, vtx, groups, k, branch)
    ensures !GroupsProvedUpTo(env, vtx, groups, n, branch)
  {
    if k < n - 1 {
      GroupUnprovedBlocks(env, vtx, groups, n - 1, k, branch);
    }
  }

  /** totalFee after the first n groups. */
  function TotalFee(env: Env, vtx: seq<Tx>, groups: seq<seq<ProveDataItem>>, n: nat, branch: BranchData): Amount
    requires n <= |groups| && |vtx| == |groups| + 2
    requires GroupsProvedUpTo(env, vtx, groups, n, branch)
  {
    if n == 0 then 0
    else TotalFee(env, vtx, groups, n - 1, branch) + GroupFee(vtx, groups, n - 1)
  }

  /** Proved transactions never have negative fees, so neither has the block. */
  lemma {:induction false} TotalFeeNonNegative(env: Env, vtx: seq<Tx>, groups: seq<seq<ProveDataItem>>, n: nat, branch: BranchData)
    requires n <= |groups| && |vtx| == |groups| + 2
    requires GroupsProvedUpTo(env, vtx, groups, n, branch)
    ensures TotalFee(env, vtx, groups, n, branch) >= 0
  {
    if n > 0 {
      assert GroupsProvedUpTo(env, vtx, groups, n - 1, branch) && GroupProved(env, vtx, groups, n - 1, branch);
      TotalFeeNonNegative(env, vtx, groups, n - 1, branch);
      GroupFeeNonNegative(env, vtx, groups, n - 1, branch);
    }
  }

  /** A proved transaction's inputs cover its outputs, so its fee is not negative. */
  lemma GroupFeeNonNegative(env: Env, vtx: seq<Tx>, groups: seq<seq<ProveDataItem>>, k: nat, branch: BranchData)
    requires k < |groups| && |vtx| == |groups| + 2
    requires GroupProved(env, vtx, groups, k, branch)
    ensures GroupFee(vtx, groups, k) >= 0
  {
  }

  /** Everything CheckProveCoinbaseTx demands: a coinbase or Merkle-tree proof for a known
      block of a known branch, a transaction list of at least two that hashes to the block's
      Merkle root without duplicates, one proof group per transaction after the first two,
      every such transaction proved, and a coinbase paying out exactly their fees. */
  predicate CoinbaseProved(env: Env, tx: Tx, branches: map<Hash, BranchData>)
  {
    && IsProve(tx) && tx.proveData.Some?
    && var pd := tx.proveData.value;
    && (pd.provetype == ReportCoinbase || pd.provetype == ReportMerkleTree)
    && pd.branchId in branches
    && pd.blockHash in branches[pd.branchId].heads
    && |pd.vtx| >= 2
    && (pd.provetype == ReportCoinbase ==> env.hash(pd.vtx[0]) == pd.txHash)
    && (pd.provetype == ReportMerkleTree ==> pd.txHash == NullHash)
    && env.merkleRoot(pd.vtx).0 == branches[pd.branchId].heads[pd.blockHash].merkleRoot
    && !env.merkleRoot(pd.vtx).1
    && |pd.vtx| == |pd.vecBlockTxProve| + 2
    && GroupsProvedUpTo(env, pd.vtx, pd.vecBlockTxProve, |pd.vecBlockTxProve|, branches[pd.branchId])
    && ValueOut(pd.vtx[0]) == TotalFee(env, pd.vtx, pd.vecBlockTxProve, |pd.vecBlockTxProve|, branches[pd.branchId])
  }

  /** The loop over vtx[2..]: each transaction proved by its group, fees added up; the first
      failing transaction's verdict is returned. */
  method SumBlockFees(env: Env, vtx: seq<Tx>, groups: seq<seq<ProveDataItem>>, branch: BranchData)
    returns (v: Verdict, totalFee: Amount)
    requires |vtx| == |groups| + 2
    ensures v.Accepted? <==> GroupsProvedUpTo(env, vtx, groups, |groups|, branch)
    ensures v.Accepted? ==> totalFee == TotalFee(env, vtx, groups, |groups|, branch)
  {
    totalFee := 0;
    for i := 2 to |vtx|
      invariant GroupsProvedUpTo(env, vtx, groups, i - 2, branch)
      invariant totalFee == TotalFee(env, vtx, groups, i - 2, branch)
    {
      var fee;
      v, fee := CheckTransactionProveWithProveData(env, vtx[i], groups[i - 2], branch, false);
      if !v.Accepted? {
        GroupUnprovedBlocks(env, vtx, groups, |groups|, i - 2, branch);
        return v, totalFee;
      }
      totalFee := totalFee + fee;
    }
    v := Accepted;
  }

  method CheckProveCoinbaseTx(env: Env, tx: Tx, branches: map<Hash, BranchData>) returns (v: Verdict)
    ensures v.Accepted? <==> CoinbaseProved(env, tx, branches)
  {
    if !IsProve(tx) || tx.proveData.None?
       || !(tx.proveData.value.provetype == ReportCoinbase || tx.proveData.value.provetype == ReportMerkleTree) {
      return Failed("not a coinbase or merkle tree proof");
    }
    var pd := tx.proveData.value;
    if pd.branchId !in branches {
      return Rejected(0, "prove coinbase tx no branchid data");
    }
    var branch := branches[pd.branchId];
    if pd.blockHash !in branch.heads {
      return Rejected(0, "prove coinbase tx no block data");
    }
    var blockData := branch.heads[pd.blockHash];
    var vtx := pd.vtx;
    if |vtx| < 2 {
      return Rejected(100, "invalid vtx size");
    }
    if pd.provetype == ReportCoinbase && env.hash(vtx[0]) != pd.txHash {
      return Rejected(100, "coinbase tx is eq txHash");
    }
    if pd.provetype == ReportMerkleTree && pd.txHash != NullHash {
      return Rejected(100, "merkle poof txhash is invalid,must null");
    }
    var (root, mutated) := env.merkleRoot(vtx);
    if blockData.merkleRoot != root {
      return Rejected(100, "Invalid merkle tree for vtx");
    }
    if mutated {
      return Rejected(100, "duplicate transaction in vtx");
    }
    var groups := pd.vecBlockTxProve;
    if |vtx| != |groups| + 2 {
      return Rejected(100, "provide vecblocktxprove size invalid");
    }
    var totalFee;
    v, totalFee := SumBlockFees(env, vtx, groups, branch);
    if !v.Accepted? {
      return v;
    }
    if ValueOut(vtx[0]) != totalFee {
      return Rejected(100, "Prove coinbase transaction fail, fee invalid");
    }
    return Accepted;
  }

  /** The branch chain pays no block reward: a proved coinbase pays out exactly the fees of
      the block's proved transactions, which is never negative. */
  lemma ProvedCoinbaseIsFeesOnly(env: Env, tx: Tx, branches: map<Hash, BranchData>)
    requires CoinbaseProved(env, tx, branches)
    ensures var pd := tx.proveData.value;
      ValueOut(pd.vtx[0]) >= 0
  {
    var pd := tx.proveData.value;
    TotalFeeNonNegative(env, pd.vtx, pd.vecBlockTxProve, |pd.vecBlockTxProve|, branches[pd.branchId]);
  }
}
