/** The output aggregators of src/chain/branchchain.cpp: each walks tx.vout and adds up the
    value of the outputs whose script has one shape. Each method is proved equal to a sum over
    exactly the outputs of that shape. */
module Outputs {
  import opened Hex
  import opened Scripts
  import opened Transactions

  // ---- the shapes ----

  /** First op OP_CREATE_BRANCH (the GetOp result is not checked; an empty script reads as
      OP_INVALIDOPCODE and never matches). */
  predicate CreateBranchScript(s: Script)
  {
    HasOpcode(s, 0, OpCreateBranch)
  }

  /** `OP_TRANS_BRANCH <32-byte push whose hash hex is the branch id>`: a transfer to a branch. */
  predicate ToBranchScript(s: Script, branchId: string)
  {
    |s| >= 1 && s[0] == Code(OpTransBranch) && |DataAt(s, 1)| == 32 && HashHex(DataAt(s, 1)) == branchId
  }

  /** `OP_RETURN OP_TRANS_BRANCH`: a transfer back to the main chain. */
  predicate ToMainScript(s: Script)
  {
    |s| >= 1 && s[0] == Code(OpReturn) && HasOpcode(s, 1, OpTransBranch)
  }

  /** The transfer outputs of a step-1 transaction: to a branch, or to main when sendToBranchid is MAIN. */
  predicate TransScript(s: Script, sendTo: string)
  {
    if sendTo != MAIN then ToBranchScript(s, sendTo) else ToMainScript(s)
  }

  predicate MortgageMineScript(s: Script) { |s| >= 1 && s[0] == Code(OpMineBranchMortgage) }

  /** First op OP_MINE_BRANCH_COIN; the GetOp result is ignored at branchchain.cpp:445, so an
      empty script reads as OP_INVALIDOPCODE and contributes nothing. */
  predicate MortgageCoinScript(s: Script) { HasOpcode(s, 0, OpMineBranchCoin) }

  predicate ContractScript(s: Script) { |s| >= 1 && s[0] == Code(OpContract) }

  // ---- output selectors ----

  function CreateBranchOut(): TxOut -> bool { (o: TxOut) => CreateBranchScript(o.scriptPubKey) }
  function TransOut(sendTo: string): TxOut -> bool { (o: TxOut) => TransScript(o.scriptPubKey, sendTo) }
  function ToBranchOut(branchId: string): TxOut -> bool { (o: TxOut) => ToBranchScript(o.scriptPubKey, branchId) }
  function ToMainOut(): TxOut -> bool { (o: TxOut) => ToMainScript(o.scriptPubKey) }
  function MortgageMineOut(): TxOut -> bool { (o: TxOut) => MortgageMineScript(o.scriptPubKey) }
  function MortgageCoinOut(): TxOut -> bool { (o: TxOut) => MortgageCoinScript(o.scriptPubKey) }
  function ContractOut(): TxOut -> bool { (o: TxOut) => ContractScript(o.scriptPubKey) }
  function MortgageOrBranchOut(branchId: string): TxOut -> bool
  {
    (o: TxOut) => MortgageMineScript(o.scriptPubKey) || ToBranchScript(o.scriptPubKey, branchId)
  }
  function CoinOrMainOut(): TxOut -> bool
  {
    (o: TxOut) => MortgageCoinScript(o.scriptPubKey) || ToMainScript(o.scriptPubKey)
  }

  // ---- specifications ----

  /** What GetBranchChainTransOut adds up. */
  function BranchChainTransTotal(tx: Tx): Amount
  {
    if IsBranchChainTransStep1(tx) then SumSelected(tx.vout, TransOut(tx.sendToBranchid)) else 0
  }

  /** What GetMortgageMineOut adds up: mortgage outputs, and with bWithBranchOut also the
      transfers to tx.sendToBranchid. */
  function MortgageMineTotal(tx: Tx, withBranchOut: bool): Amount
  {
    SumSelected(tx.vout, MortgageMineOut())
      + (if withBranchOut then SumSelected(tx.vout, ToBranchOut(tx.sendToBranchid)) else 0)
  }

  /** What GetMortgageCoinOut adds up: mine-coin outputs, and with bWithBranchOut also the
      transfers to main. */
  function MortgageCoinTotal(tx: Tx, withBranchOut: bool): Amount
  {
    SumSelected(tx.vout, MortgageCoinOut())
      + (if withBranchOut then SumSelected(tx.vout, ToMainOut()) else 0)
  }

  /** What GetBranchChainOut returns: the transfer total of a step-1 transaction, the mortgage
      total (with branch transfers) of a mortgage transaction, zero otherwise. */
  function BranchChainOutTotal(tx: Tx): Amount
  {
    if IsBranchChainTransStep1(tx) then BranchChainTransTotal(tx)
    else if IsMortgage(tx) then MortgageMineTotal(tx, true)
    else 0
  }

  // ---- the aggregators ----

  method GetBranchChainCreateTxOut(tx: Tx) returns (amount: Amount)
    ensures !IsBranchCreate(tx) ==> amount == 0
    ensures IsBranchCreate(tx) ==> amount == SumSelected(tx.vout, CreateBranchOut())
  {
    amount := 0;
    if !IsBranchCreate(tx) {
      return;
    }
    for i := 0 to |tx.vout|
      invariant amount == SumSelected(tx.vout[..i], CreateBranchOut())
    {
      assert tx.vout[..i + 1][..i] == tx.vout[..i];
      if HasOpcode(tx.vout[i].scriptPubKey, 0, OpCreateBranch) {
        amount := amount + tx.vout[i].nValue;
      }
    }
    assert tx.vout[..|tx.vout|] == tx.vout;
  }

  method GetBranchChainTransOut(tx: Tx) returns (amount: Amount)
    ensures amount == BranchChainTransTotal(tx)
  {
    amount := 0;
    if !IsBranchChainTransStep1(tx) {
      return;
    }
    for i := 0 to |tx.vout|
      invariant amount == SumSelected(tx.vout[..i], TransOut(tx.sendToBranchid))
    {
      assert tx.vout[..i + 1][..i] == tx.vout[..i];
      var s := tx.vout[i].scriptPubKey;
      if |s| >= 1 {
        if tx.sendToBranchid != MAIN {
          if s[0] == Code(OpTransBranch) {
            var vch := DataAt(s, 1);
            if 1 < |s| && |vch| == 32 {
              if HashHex(vch) == tx.sendToBranchid {
                amount := amount + tx.vout[i].nValue;
              }
            }
          }
        } else {
          if s[0] == Code(OpReturn) {
            if OpAt(s, 1) == Code(OpTransBranch) {
              amount := amount + tx.vout[i].nValue;
            }
          }
        }
      }
    }
    assert tx.vout[..|tx.vout|] == tx.vout;
  }

  method GetMortgageMineOut(tx: Tx, withBranchOut: bool) returns (amount: Amount)
    ensures amount == MortgageMineTotal(tx, withBranchOut)
  {
    amount := 0;
    for i := 0 to |tx.vout|
      invariant amount == MortgageMineTotal(tx.(vout := tx.vout[..i]), withBranchOut)
    {
      assert tx.vout[..i + 1][..i] == tx.vout[..i];
      var s := tx.vout[i].scriptPubKey;
      if |s| == 0 {
        continue;
      }
      if s[0] == Code(OpMineBranchMortgage) {
        amount := amount + tx.vout[i].nValue;
      }
      if withBranchOut && s[0] == Code(OpTransBranch) {
        var vch := DataAt(s, 1);
        if 1 < |s| && |vch| == 32 && HashHex(vch) == tx.sendToBranchid {
          amount := amount + tx.vout[i].nValue;
        }
      }
    }
    assert tx.vout[..|tx.vout|] == tx.vout;
  }

  method GetMortgageCoinOut(tx: Tx, withBranchOut: bool) returns (amount: Amount)
    ensures amount == MortgageCoinTotal(tx, withBranchOut)
  {
    amount := 0;
    for i := 0 to |tx.vout|
      invariant amount == MortgageCoinTotal(tx.(vout := tx.vout[..i]), withBranchOut)
    {
      assert tx.vout[..i + 1][..i] == tx.vout[..i];
      var s := tx.vout[i].scriptPubKey;
      // GetOp's result is ignored here: on an empty script the opcode reads OP_INVALIDOPCODE
      var opcode := OpAt(s, 0);
      if opcode == Code(OpMineBranchCoin) {
        amount := amount + tx.vout[i].nValue;
      }
      if withBranchOut && opcode == Code(OpReturn) {
        opcode := OpAt(s, 1);
        if opcode == Code(OpTransBranch) {
          amount := amount + tx.vout[i].nValue;
        }
      }
    }
    assert tx.vout[..|tx.vout|] == tx.vout;
  }

  method GetContractAmountOut(tx: Tx) returns (amount: Amount)
    ensures amount == SumSelected(tx.vout, ContractOut())
  {
    amount := 0;
    var i := 0;
    while i < |tx.vout|
      invariant 0 <= i <= |tx.vout|
      invariant amount == SumSelected(tx.vout[..i], ContractOut())
    {
      assert tx.vout[..i + 1][..i] == tx.vout[..i];
      var s := tx.vout[i].scriptPubKey;
      if |s| >= 1 && s[0] == Code(OpContract) {
        amount := amount + tx.vout[i].nValue;
      }
      i := i + 1;
    }
    assert tx.vout[..|tx.vout|] == tx.vout;
  }

  method GetBranchChainOut(tx: Tx) returns (amount: Amount)
    ensures amount == BranchChainOutTotal(tx)
  {
    if IsBranchChainTransStep1(tx) {
      amount := GetBranchChainTransOut(tx);
    } else if IsMortgage(tx) {
      amount := GetMortgageMineOut(tx, true);
    } else {
      amount := 0;
    }
  }

  // ---- properties ----

  /** The transfer outputs are exactly the `[OP_TRANS_BRANCH, 32-byte id]` outputs for a branch
      target and the `[OP_RETURN, OP_TRANS_BRANCH]` outputs for the main target; with
      non-negative values the total is at most the transaction's value out. */
  lemma TransTotalBounded(tx: Tx)
    requires forall o :: o in tx.vout ==> o.nValue >= 0
    ensures 0 <= BranchChainTransTotal(tx) <= ValueOut(tx)
  {
    SumSelectedMonotone(tx.vout, TransOut(tx.sendToBranchid), AnyOutput);
  }

  /** A step-1 transfer to a branch pays exactly the outputs tagged with that branch's id:
      when every output is so tagged the whole value out is transferred, and when none is,
      nothing is. */
  lemma TransTotalExtremes(tx: Tx)
    requires IsBranchChainTransStep1(tx)
    ensures (forall o :: o in tx.vout ==> TransScript(o.scriptPubKey, tx.sendToBranchid))
              ==> BranchChainTransTotal(tx) == ValueOut(tx)
    ensures (forall o :: o in tx.vout ==> !TransScript(o.scriptPubKey, tx.sendToBranchid))
              ==> BranchChainTransTotal(tx) == 0
  {
    SumSelectedExtremes(tx.vout, TransOut(tx.sendToBranchid));
  }

  /** The mortgage and branch-transfer parts of GetMortgageMineOut never count the same output,
      so the single-pass total is the sum over the union of the two shapes. */
  lemma MortgageMineIsUnion(tx: Tx)
    ensures MortgageMineTotal(tx, true)
         == SumSelected(tx.vout, MortgageOrBranchOut(tx.sendToBranchid))
  {
    SumSelectedDisjoint(tx.vout, MortgageMineOut(), ToBranchOut(tx.sendToBranchid),
      MortgageOrBranchOut(tx.sendToBranchid));
  }

  /** Likewise for GetMortgageCoinOut: mine-coin outputs and transfers to main are disjoint. */
  lemma MortgageCoinIsUnion(tx: Tx)
    ensures MortgageCoinTotal(tx, true)
         == SumSelected(tx.vout, CoinOrMainOut())
  {
    SumSelectedDisjoint(tx.vout, MortgageCoinOut(), ToMainOut(), CoinOrMainOut());
  }

  /** GetBranchChainOut is zero for every transaction that is neither a step-1 transfer nor a
      mortgage, and with non-negative outputs it never exceeds the value out. */
  lemma BranchChainOutBounded(tx: Tx)
    requires forall o :: o in tx.vout ==> o.nValue >= 0
    ensures !IsBranchChainTransStep1(tx) && !IsMortgage(tx) ==> BranchChainOutTotal(tx) == 0
    ensures 0 <= BranchChainOutTotal(tx) <= ValueOut(tx)
  {
    if IsBranchChainTransStep1(tx) {
      TransTotalBounded(tx);
    } else if IsMortgage(tx) {
      MortgageMineIsUnion(tx);
      SumSelectedMonotone(tx.vout, MortgageOrBranchOut(tx.sendToBranchid), AnyOutput);
    } else {
      SumSelectedMonotone(tx.vout, AnyOutput, AnyOutput);
    }
  }
}
