/** The local value, height and duplicate rules of src/chain/branchchain.cpp that a node
    applies to step-2 transfers, reports and report rewards. */
module BranchChecks {
  import opened Wrappers
  import opened Scripts
  import opened Transactions
  import opened Outputs
  import opened Revert

  /** The status a report can have in a branch block's records (RP_FLAG_*). */
  datatype ReportFlag = FlagReported | FlagProved

  /** BranchBlockData: a known header of a branch chain. `stakeOut` is vout[0] of the block's
      stake transaction, the only part of it the rules read. */
  datatype BranchBlockData = BranchBlockData(nHeight: int, merkleRoot: Hash,
                                             reportStatus: map<Hash, ReportFlag>, stakeOut: TxOut)

  /** BranchData: the headers of one branch chain by hash, and the height of its best chain. */
  datatype BranchData = BranchData(heads: map<Hash, BranchBlockData>, height: int)

  // ---- CheckBranchTransaction, the part that needs no remote node ----

  /** Outputs that are not branch-recharge outputs (IsCoinBranchTranScript). */
  function NotRechargeOut(env: Env): TxOut -> bool { (o: TxOut) => !env.isBranchRecharge(o.scriptPubKey) }

  /** nOrginalOut: the step-2 value out, leaving out branch-recharge outputs when the
      transfer comes from a branch. */
  function OriginalOut(env: Env, step2: Tx): Amount
  {
    if step2.fromBranchId != MAIN then SumSelected(step2.vout, NotRechargeOut(env)) else ValueOut(step2)
  }

  /** The nOrginalOut loop: recount the value out without branch-recharge outputs when the
      transfer comes from a branch. */
  method ComputeOriginalOut(env: Env, step2: Tx) returns (originalOut: Amount)
    ensures originalOut == OriginalOut(env, step2)
  {
    originalOut := ValueOut(step2);
    if step2.fromBranchId != MAIN {
      originalOut := 0;
      for i := 0 to |step2.vout|
        invariant originalOut == SumSelected(step2.vout[..i], NotRechargeOut(env))
      {
        assert step2.vout[..i + 1][..i] == step2.vout[..i];
        if !env.isBranchRecharge(step2.vout[i].scriptPubKey) {
          originalOut := originalOut + step2.vout[i].nValue;
        }
      }
      assert step2.vout[..|step2.vout|] == step2.vout;
    }
  }

  /** Without recharge outputs to leave out, nOrginalOut is the whole value out; with
      non-negative values it never exceeds it. */
  lemma OriginalOutBounded(env: Env, step2: Tx)
    requires forall o :: o in step2.vout ==> o.nValue >= 0
    ensures 0 <= OriginalOut(env, step2) <= ValueOut(step2)
    ensures (forall o :: o in step2.vout ==> !env.isBranchRecharge(o.scriptPubKey)) ==> OriginalOut(env, step2) == ValueOut(step2)
  {
    SumSelectedMonotone(step2.vout, NotRechargeOut(env), AnyOutput);
    SumSelectedExtremes(step2.vout, NotRechargeOut(env));
  }

  /** A step-2 transaction that redeems a mortgage has exactly one output, a mine-coin script
      carrying the same key id and height as the mortgage script in the step-1 transaction. */
  predicate MortgageLinked(fromTx: Tx, step2: Tx)
    requires |fromTx.vout| > 0
  {
    var mine := GetMortgageMineData(fromTx.vout[0].scriptPubKey, true);
    mine.Some? && |step2.vout| == 1 &&
    var coin := GetMortgageCoinData(step2.vout[0].scriptPubKey, true);
    coin.Some? && coin.value.keyId == mine.value.keyId && coin.value.height == mine.value.height
  }

  /** Everything CheckBranchTransaction demands before it asks the source chain for
      confirmations. */
  predicate LocallyValid(env: Env, ownBranchId: string, step2: Tx, fromTx: Tx)
    requires IsMortgage(fromTx) ==> |fromTx.vout| > 0
  {
    && IsBranchChainTransStep2(step2)
    && step2.fromBranchId != ownBranchId
    && (IsMortgage(fromTx) ==> MortgageLinked(fromTx, step2))
    && env.decodeTx(fromTx.sendToTxHexData).Some?
    && env.hash(env.decodeTx(fromTx.sendToTxHexData).value) == env.hash(Reverted(env, step2, Some(fromTx), true))
    && step2.inAmount == BranchChainOutTotal(fromTx)
    && MoneyRange(step2.inAmount)
    && OriginalOut(env, step2) <= step2.inAmount
  }

  /** CheckBranchTransaction up to the remote confirmation: Accepted means the transaction
      goes on to the RPC stage. The caller always passes the step-1 transaction. */
  method CheckBranchTransaction(env: Env, ownBranchId: string, step2: Tx, fromTx: Tx) returns (v: Verdict)
    requires IsMortgage(fromTx) ==> |fromTx.vout| > 0
    ensures v.Accepted? <==> LocallyValid(env, ownBranchId, step2, fromTx)
    ensures v.Rejected? && step2.inAmount != BranchChainOutTotal(fromTx) ==> v.dos == 100
  {
    if !IsBranchChainTransStep2(step2) {
      return Rejected(100, "is not a IsBranchChainTransStep2");
    }
    if step2.fromBranchId == ownBranchId {
      return Rejected(100, "ctFromChain eq ctToChain");
    }
    if IsMortgage(fromTx) {
      var mine := GetMortgageMineData(fromTx.vout[0].scriptPubKey, true);
      if mine.None? {
        return Rejected(100, "invalid mortgage mine script");
      }
      if |step2.vout| != 1 {
        return Failed("invalid mortgage transaction");
      }
      var coin := GetMortgageCoinData(step2.vout[0].scriptPubKey, true);
      if coin.None? {
        return Failed("invalid mortgage transaction");
      }
      if coin.value.keyId != mine.value.keyId || coin.value.height != mine.value.height {
        return Rejected(100, "invalid mortgage coin script");
      }
    }
    var trans2 := env.decodeTx(fromTx.sendToTxHexData);
    if trans2.None? {
      return Failed("sendToTxHexData is not a valid transaction data");
    }
    var trans2my := RevertTransaction(env, step2, Some(fromTx), true);
    if env.hash(trans2.value) != env.hash(trans2my) {
      return Rejected(100, "transaction hash error");
    }
    var amount := GetBranchChainOut(fromTx);
    if amount != step2.inAmount || !MoneyRange(step2.inAmount) {
      return Rejected(100, "Invalid inAmount!");
    }
    var originalOut := ComputeOriginalOut(env, step2);
    if originalOut > step2.inAmount {
      return Rejected(100, "GetValueOut larger than inAmount");
    }
    return Accepted;
  }

  /** A locally valid transfer from a branch never pays out, outside its recharge outputs,
      more than the step-1 transaction locked up, and that amount is a valid money value. */
  lemma LocallyValidConservesValue(env: Env, ownBranchId: string, step2: Tx, fromTx: Tx)
    requires IsMortgage(fromTx) ==> |fromTx.vout| > 0
    requires LocallyValid(env, ownBranchId, step2, fromTx)
    requires step2.fromBranchId != MAIN
    ensures SumSelected(step2.vout, NotRechargeOut(env)) <= BranchChainOutTotal(fromTx) <= MAX_MONEY
  {
  }

  // ---- CheckReportTxCommonly ----

  /** The reported block must be a known header no higher than the branch's best height and
      at most redeemSafeHeight (REDEEM_SAFE_HEIGHT) blocks below it. */
  function CheckReportTxCommonly(tx: Tx, branch: BranchData, redeemSafeHeight: int): (v: Verdict)
    requires tx.reportData.Some?
    ensures v.Accepted? || v.Rejected?
    ensures v.Rejected? ==> v.dos == 0
  {
    var h := tx.reportData.value.reportedBlockHash;
    if h !in branch.heads then Rejected(0, "CheckReportCheatTx Can not found block data in mapHeads")
    else if branch.height < branch.heads[h].nHeight then Rejected(0, "Report block height larger than branchdata height")
    else if branch.height - branch.heads[h].nHeight > redeemSafeHeight then Rejected(0, "Report block too old")
    else Accepted
  }

  /** A report is accepted exactly for a known block within the last redeemSafeHeight blocks
      of the branch's best chain. */
  lemma ReportWindow(tx: Tx, branch: BranchData, redeemSafeHeight: int)
    requires tx.reportData.Some?
    ensures var h := tx.reportData.value.reportedBlockHash;
      (CheckReportTxCommonly(tx, branch, redeemSafeHeight).Accepted? <==>
         h in branch.heads && branch.heads[h].nHeight <= branch.height <= branch.heads[h].nHeight + redeemSafeHeight)
  {
  }

  /** Growing the branch only ever closes the window: a report rejected as too old stays
      rejected at every greater best height. */
  lemma ReportWindowCloses(tx: Tx, branch: BranchData, redeemSafeHeight: int, later: int)
    requires tx.reportData.Some? && later >= branch.height
    requires CheckReportTxCommonly(tx, branch, redeemSafeHeight) == Rejected(0, "Report block too old")
    ensures CheckReportTxCommonly(tx, branch.(height := later), redeemSafeHeight) == Rejected(0, "Report block too old")
  {
  }

  // ---- CheckBranchDuplicateTx ----

  /** BranchCache: the not-yet-committed branch data of a block or the mempool. */
  datatype BranchCache = BranchCache(hasSyncInCache: Tx -> bool, reportFlags: map<Hash, ReportFlag>)

  /** pBranchDb: whether a sync transaction's header is already stored, and the report flags. */
  datatype BranchDb = BranchDb(headerIncluded: Tx -> bool, reportFlags: map<Hash, ReportFlag>)

  predicate ProvedIn(flags: map<Hash, ReportFlag>, key: Hash)
  {
    key in flags && flags[key] == FlagProved
  }

  /** CheckBranchDuplicateTx; the cache is optional, recvRepeat is
      pBranchChainTxRecordsDb->IsTxRecvRepeat. */
  function CheckBranchDuplicateTx(env: Env, tx: Tx, cache: Option<BranchCache>, db: BranchDb, recvRepeat: Tx -> bool): (v: Verdict)
    ensures v.Accepted? || v.Rejected?
  {
    if IsSyncBranchInfo(tx) && cache.Some? && cache.value.hasSyncInCache(tx) then Rejected(0, "branch block info duplicate")
    else if IsSyncBranchInfo(tx) && db.headerIncluded(tx) then Rejected(0, "blockheader info has include before")
    else if IsBranchChainTransStep2(tx) && recvRepeat(tx) then Rejected(0, "txn-already-in-records")
    else if IsReport(tx) && cache.Some? && env.reportKey(tx) in cache.value.reportFlags then Rejected(0, "duplicate report in cache")
    else if IsReport(tx) && env.reportKey(tx) in db.reportFlags then Rejected(0, "duplicate report in db")
    else if IsProve(tx) && cache.Some? && ProvedIn(cache.value.reportFlags, env.proveKey(tx)) then Rejected(0, "duplicate prove in cache")
    else if IsProve(tx) && ProvedIn(db.reportFlags, env.proveKey(tx)) then Rejected(0, "duplicate prove in db")
    else Accepted
  }

  /** What counts as a duplicate, kind by kind: a header already seen, a transfer already
      received, any flag for a report, a PROVED flag for a proof. Duplicates never earn a
      ban score. */
  lemma DuplicateRules(env: Env, tx: Tx, cache: Option<BranchCache>, db: BranchDb, recvRepeat: Tx -> bool)
    ensures var v := CheckBranchDuplicateTx(env, tx, cache, db, recvRepeat);
      && (IsSyncBranchInfo(tx) ==> (v.Rejected? <==> (cache.Some? && cache.value.hasSyncInCache(tx)) || db.headerIncluded(tx)))
      && (IsBranchChainTransStep2(tx) ==> (v.Rejected? <==> recvRepeat(tx)))
      && (IsReport(tx) ==> (v.Rejected? <==> (cache.Some? && env.reportKey(tx) in cache.value.reportFlags) || env.reportKey(tx) in db.reportFlags))
      && (IsProve(tx) ==> (v.Rejected? <==> (cache.Some? && ProvedIn(cache.value.reportFlags, env.proveKey(tx))) || ProvedIn(db.reportFlags, env.proveKey(tx))))
      && (v.Rejected? ==> v.dos == 0)
  {
  }

  /** A proof whose report is only REPORTED so far is not a duplicate; a second report of the
      same thing is. */
  lemma ReportedIsNotProved(env: Env, tx: Tx, db: BranchDb, recvRepeat: Tx -> bool)
    requires IsProve(tx) && db.reportFlags == map[env.proveKey(tx) := FlagReported]
    ensures CheckBranchDuplicateTx(env, tx, None, db, recvRepeat) == Accepted
  {
  }

  // ---- CheckReportRewardTransaction ----

  /** C++ integer division by 2: truncates toward zero. */
  function Half(x: int): (r: int)
    ensures x >= 0 ==> 0 <= r && x - 1 <= 2 * r <= x
    ensures x < 0 ==> r <= 0 && x <= 2 * r <= x + 1
  {
    if x >= 0 then x / 2 else -((-x) / 2)
  }

  /** The reporter's half and the miner's rest of the stake; the miner gets the odd unit. */
  function RewardSplit(nValueIn: Amount): (r: (Amount, Amount))
    ensures r.0 + r.1 == nValueIn
    ensures nValueIn >= 0 ==> 0 <= r.0 <= r.1 <= r.0 + 1
  {
    var reporter := Half(nValueIn);
    (reporter, nValueIn - reporter)
  }

  /** The stage check as written at branchchain.cpp:1586: report height minus the height of
      the block being checked, compared with REPORT_OUTOF_HEIGHT. */
  predicate StillInProveStageAsWritten(reportHeight: int, height: int, reportOutOfHeight: int)
  {
    reportHeight - height < reportOutOfHeight
  }

  /** The stage check as evidently intended: the reward block is fewer than
      REPORT_OUTOF_HEIGHT blocks above the report. */
  predicate StillInProveStage(reportHeight: int, height: int, reportOutOfHeight: int)
  {
    height - reportHeight < reportOutOfHeight
  }

  /** As written, with any positive REPORT_OUTOF_HEIGHT, a reward in a block at or above its
      report (the report lies on the active chain) is always still "in prove stage". */
  lemma AsWrittenNeverLeavesProveStage(reportHeight: int, height: int, reportOutOfHeight: int)
    requires reportOutOfHeight > 0 && height >= reportHeight
    ensures StillInProveStageAsWritten(reportHeight, height, reportOutOfHeight)
  {
  }

  /** Concrete case: a report at height 100, a reward at height 200, REPORT_OUTOF_HEIGHT 10. */
  lemma AsWrittenRejectsLateReward()
    ensures StillInProveStageAsWritten(100, 200, 10)
    ensures !StillInProveStage(100, 200, 10)
  {
  }

  /** Corrected: the prove stage covers exactly the REPORT_OUTOF_HEIGHT blocks starting at
      the report, and ends for good afterwards. */
  lemma ProveStageEnds(reportHeight: int, height: int, reportOutOfHeight: int)
    ensures reportHeight <= height < reportHeight + reportOutOfHeight ==> StillInProveStage(reportHeight, height, reportOutOfHeight)
    ensures height >= reportHeight + reportOutOfHeight ==> !StillInProveStage(reportHeight, height, reportOutOfHeight)
    ensures !StillInProveStage(reportHeight, height, reportOutOfHeight) ==>
              forall later :: later >= height ==> !StillInProveStage(reportHeight, later, reportOutOfHeight)
  {
  }

  /** A transaction found through the transaction index, with the hash of its block. */
  datatype IndexedTx = IndexedTx(tx: Tx, blockHash: Hash)

  /** CheckReportRewardTransaction, with the prove-stage test chosen by `intended`: the test
      as written at line 1586 when false, the corrected one when true. txIndex stands for
      ReadTxDataByTxIndex, blockHeights for mapBlockIndex, activeChain for chainActive,
      branches for pBranchDb, and height for the height of the block being checked; the
      reward's inputs and outputs and the report's outputs are non-empty by the time it runs. */
  function ReportRewardVerdict(intended: bool, env: Env, tx: Tx, isMainChain: bool, height: int,
                               txIndex: map<Hash, IndexedTx>, blockHeights: map<Hash, int>,
                               activeChain: set<Hash>, branches: map<Hash, BranchData>,
                               reportOutOfHeight: int): Verdict
    requires |tx.vin| > 0 && |tx.vout| > 0
    requires tx.reporttxid in txIndex ==> |txIndex[tx.reporttxid].tx.vout| > 0
  {
    if !IsReportReward(tx) then Failed("not a report reward")
    else if !isMainChain then Rejected(100, "mainchain-not-accept-reportreward-tx")
    else if tx.reporttxid !in txIndex then Failed("report tx not exist")
    else
      var report := txIndex[tx.reporttxid];
      if !IsReport(report.tx) || report.tx.reportData.None? then Rejected(100, "invalid-report-tx")
      else if report.blockHash !in blockHeights then Failed("report block not exist")
      else if report.blockHash !in activeChain then Failed("report tx not in active chain")
      else if (if intended then StillInProveStage(blockHeights[report.blockHash], height, reportOutOfHeight)
               else StillInProveStageAsWritten(blockHeights[report.blockHash], height, reportOutOfHeight))
      then Rejected(100, "Still in prove stage.")
      else
        var rd := report.tx.reportData.value;
        if rd.reportedBranchId !in branches then Failed("no branch data")
        else if rd.reportedBlockHash !in branches[rd.reportedBranchId].heads then Failed("no reported block")
        else
          var blockdata := branches[rd.reportedBranchId].heads[rd.reportedBlockHash];
          var flagKey := env.reportKey(report.tx);
          if flagKey !in blockdata.reportStatus || blockdata.reportStatus[flagKey] == FlagProved then Failed("report not open")
          else
            var coin := GetMortgageCoinData(blockdata.stakeOut.scriptPubKey, false);
            if coin.None? then Rejected(100, "invalid-stake-pubkey")
            else if tx.vin[0].prevout != OutPoint(coin.value.hash, 0) then Rejected(100, "Invalid-report-reward-input")
            else
              var split := RewardSplit(blockdata.stakeOut.nValue);
              if tx.vout[0].scriptPubKey != report.tx.vout[0].scriptPubKey then Rejected(100, "vout[0]-must-to-reporter")
              else if tx.vout[0].nValue < split.0 then Rejected(100, "invalid-reporter-out-value")
              else Accepted
  }

  /** The check as written. Every rejection bans with score 100. */
  function CheckReportRewardTransaction(env: Env, tx: Tx, isMainChain: bool, height: int,
                                        txIndex: map<Hash, IndexedTx>, blockHeights: map<Hash, int>,
                                        activeChain: set<Hash>, branches: map<Hash, BranchData>,
                                        reportOutOfHeight: int): (v: Verdict)
    requires |tx.vin| > 0 && |tx.vout| > 0
    requires tx.reporttxid in txIndex ==> |txIndex[tx.reporttxid].tx.vout| > 0
    ensures v.Rejected? ==> v.dos == 100
    ensures !IsReportReward(tx) ==> v.Failed?
    ensures IsReportReward(tx) && !isMainChain ==> v == Rejected(100, "mainchain-not-accept-reportreward-tx")
  {
    ReportRewardVerdict(false, env, tx, isMainChain, height, txIndex, blockHeights, activeChain, branches, reportOutOfHeight)
  }

  /** The check with the prove-stage test corrected. */
  function CheckReportRewardIntended(env: Env, tx: Tx, isMainChain: bool, height: int,
                                     txIndex: map<Hash, IndexedTx>, blockHeights: map<Hash, int>,
                                     activeChain: set<Hash>, branches: map<Hash, BranchData>,
                                     reportOutOfHeight: int): (v: Verdict)
    requires |tx.vin| > 0 && |tx.vout| > 0
    requires tx.reporttxid in txIndex ==> |txIndex[tx.reporttxid].tx.vout| > 0
    ensures v.Rejected? ==> v.dos == 100
    ensures !IsReportReward(tx) ==> v.Failed?
    ensures IsReportReward(tx) && !isMainChain ==> v == Rejected(100, "mainchain-not-accept-reportreward-tx")
  {
    ReportRewardVerdict(true, env, tx, isMainChain, height, txIndex, blockHeights, activeChain, branches, reportOutOfHeight)
  }

  /** What an accepted reward satisfies apart from the stage test: it names an active-chain
      report, pays the reporter's script, spends output 0 of the coin the reported block's stake
      was mortgaged from, pays the reporter at least half the stake (rounded down), and the
      report's flag is still REPORTED. */
  predicate RewardTerms(env: Env, tx: Tx, isMainChain: bool, txIndex: map<Hash, IndexedTx>,
                        blockHeights: map<Hash, int>, activeChain: set<Hash>, branches: map<Hash, BranchData>)
    requires |tx.vin| > 0 && |tx.vout| > 0
    requires tx.reporttxid in txIndex ==> |txIndex[tx.reporttxid].tx.vout| > 0
  {
    && IsReportReward(tx) && isMainChain && tx.reporttxid in txIndex
    && var report := txIndex[tx.reporttxid];
       && IsReport(report.tx) && report.tx.reportData.Some?
       && report.blockHash in activeChain && report.blockHash in blockHeights
       && tx.vout[0].scriptPubKey == report.tx.vout[0].scriptPubKey
       && var rd := report.tx.reportData.value;
          && rd.reportedBranchId in branches && rd.reportedBlockHash in branches[rd.reportedBranchId].heads
          && var blockdata := branches[rd.reportedBranchId].heads[rd.reportedBlockHash];
             var coin := GetMortgageCoinData(blockdata.stakeOut.scriptPubKey, false);
             && env.reportKey(report.tx) in blockdata.reportStatus
             && blockdata.reportStatus[env.reportKey(report.tx)] == FlagReported
             && coin.Some? && tx.vin[0].prevout == OutPoint(coin.value.hash, 0)
             && 2 * tx.vout[0].nValue >= blockdata.stakeOut.nValue - (if blockdata.stakeOut.nValue >= 0 then 1 else 0)
  }

  /** As written, a reward is accepted exactly when it meets the reward terms and its report's
      block lies at least REPORT_OUTOF_HEIGHT blocks ABOVE the block being checked. */
  lemma RewardAccepted(env: Env, tx: Tx, isMainChain: bool, height: int,
                       txIndex: map<Hash, IndexedTx>, blockHeights: map<Hash, int>,
                       activeChain: set<Hash>, branches: map<Hash, BranchData>, reportOutOfHeight: int)
    requires |tx.vin| > 0 && |tx.vout| > 0
    requires tx.reporttxid in txIndex ==> |txIndex[tx.reporttxid].tx.vout| > 0
    ensures CheckReportRewardTransaction(env, tx, isMainChain, height, txIndex, blockHeights, activeChain, branches, reportOutOfHeight).Accepted?
            <==>
            RewardTerms(env, tx, isMainChain, txIndex, blockHeights, activeChain, branches) &&
            blockHeights[txIndex[tx.reporttxid].blockHash] - height >= reportOutOfHeight
  {
  }

  /** The discrepancy on the whole check: with a positive REPORT_OUTOF_HEIGHT, the check as
      written accepts no reward in a block at or above its report's block. */
  lemma AsWrittenRewardNeverAccepted(env: Env, tx: Tx, isMainChain: bool, height: int,
                                     txIndex: map<Hash, IndexedTx>, blockHeights: map<Hash, int>,
                                     activeChain: set<Hash>, branches: map<Hash, BranchData>, reportOutOfHeight: int)
    requires |tx.vin| > 0 && |tx.vout| > 0
    requires tx.reporttxid in txIndex ==> |txIndex[tx.reporttxid].tx.vout| > 0
    requires reportOutOfHeight > 0
    requires tx.reporttxid in txIndex && txIndex[tx.reporttxid].blockHash in blockHeights
    requires blockHeights[txIndex[tx.reporttxid].blockHash] <= height
    ensures !CheckReportRewardTransaction(env, tx, isMainChain, height, txIndex, blockHeights, activeChain, branches, reportOutOfHeight).Accepted?
  {
    if CheckReportRewardTransaction(env, tx, isMainChain, height, txIndex, blockHeights, activeChain, branches, reportOutOfHeight).Accepted? {
      RewardAccepted(env, tx, isMainChain, height, txIndex, blockHeights, activeChain, branches, reportOutOfHeight);
      assert false;
    }
  }

  /** With the corrected test, an accepted reward meets the reward terms and comes at least
      REPORT_OUTOF_HEIGHT blocks after its report; and a reward that meets the terms that late
      is accepted. */
  lemma RewardAcceptedIntended(env: Env, tx: Tx, isMainChain: bool, height: int,
                               txIndex: map<Hash, IndexedTx>, blockHeights: map<Hash, int>,
                               activeChain: set<Hash>, branches: map<Hash, BranchData>, reportOutOfHeight: int)
    requires |tx.vin| > 0 && |tx.vout| > 0
    requires tx.reporttxid in txIndex ==> |txIndex[tx.reporttxid].tx.vout| > 0
    ensures CheckReportRewardIntended(env, tx, isMainChain, height, txIndex, blockHeights, activeChain, branches, reportOutOfHeight).Accepted?
            <==>
            RewardTerms(env, tx, isMainChain, txIndex, blockHeights, activeChain, branches) &&
            height >= blockHeights[txIndex[tx.reporttxid].blockHash] + reportOutOfHeight
  {
  }
}
