/** Transactions as the branch-chain rules see them, amounts, and the functions the rules
    call into but whose bodies lie outside this model (hashing, script classification,
    signature checking, partial-Merkle extraction, hex decoding), gathered in `Env`. */
module Transactions {
  import opened Wrappers
  import opened Hex
  import opened Scripts

  /** CellAmount, in the smallest unit. 64-bit overflow of sums is not modelled. */
  type Amount = int

  const COIN: int := 100000000
  const MAX_MONEY: int := 21000000 * COIN

  predicate MoneyRange(x: Amount)
  {
    0 <= x <= MAX_MONEY
  }

  /** uint256 / uint160 values as their stored bytes. */
  type Hash = seq<byte>

  function Zeros(n: nat): (z: seq<byte>)
    ensures |z| == n && forall k :: 0 <= k < n ==> z[k] == 0
  {
    if n == 0 then [] else Zeros(n - 1) + [0]
  }

  /** The null uint256 (SetNull). */
  const NullHash: Hash := Zeros(32)

  /** CellBaseChainParams::MAIN, the branch id of the main chain. */
  const MAIN: string := "main"

  datatype OutPoint = OutPoint(hash: Hash, n: nat)

  datatype TxIn = TxIn(prevout: OutPoint, scriptSig: Script)

  datatype TxOut = TxOut(nValue: Amount, scriptPubKey: Script)

  /** The transaction kinds the IsXxx() predicates distinguish (they test nVersion). */
  datatype TxKind =
    | Normal | BranchCreate | TransStep1 | TransStep2 | Mortgage
    | PublishContract | CallContract | Report | Prove | SyncBranchInfo
    | ReportReward | RedeemMortgageStatement | LockMortgageMineCoin | UnlockMortgageMineCoin

  /** ReportType of a report or prove transaction. */
  datatype ReportType = ReportTx | ReportCoinbase | ReportMerkleTree | ReportContractData | ReportOther(code: int)

  /** The partial Merkle tree carried by an SPV proof: the leaf hashes and which leaves match. */
  datatype Pmt = Pmt(hashes: seq<Hash>, matches: seq<bool>)

  /** CellSpvProof: a partial Merkle tree and the hash of the block it was cut from. */
  datatype SpvProof = SpvProof(pmt: Pmt, blockhash: Hash)

  /** A default-constructed CellSpvProof. */
  const EmptySpvProof: SpvProof := SpvProof(Pmt([], []), NullHash)

  /** What CellPartialMerkleTree::ExtractMatches hands back: the root it recomputed, and each
      matched leaf hash paired with its position, in tree order (vMatch and vIndex always
      grow together, so they are kept as one sequence of pairs). */
  datatype Extraction = Extraction(root: Hash, matches: seq<(Hash, nat)>)

  datatype ReportData = ReportData(reporttype: ReportType, reportedBranchId: Hash,
                                   reportedBlockHash: Hash, reportedTxHash: Hash)

  /** One proof item: a transaction (already deserialised), the block it sits in and its SPV proof. */
  datatype ProveDataItem = ProveDataItem(blockHash: Hash, tx: Tx, spv: SpvProof)

  /** ProveData of a prove transaction; `vtx` is vtxData already deserialised. */
  datatype ProveData = ProveData(provetype: ReportType, branchId: Hash, blockHash: Hash, txHash: Hash,
                                 vectProveData: seq<ProveDataItem>, vtx: seq<Tx>,
                                 vecBlockTxProve: seq<seq<ProveDataItem>>)

  datatype Tx = Tx(
    kind: TxKind,
    vin: seq<TxIn>,
    vout: seq<TxOut>,
    sendToBranchid: string,
    sendToTxHexData: string,
    fromBranchId: string,
    inAmount: Amount,
    fromTx: seq<byte>,
    pmt: Option<SpvProof>,
    contractAddr: Hash,
    contractOut: Amount,
    reporttxid: Hash,
    reportData: Option<ReportData>,
    proveData: Option<ProveData>)

  predicate IsBranchCreate(tx: Tx) { tx.kind == BranchCreate }
  predicate IsBranchChainTransStep1(tx: Tx) { tx.kind == TransStep1 }
  predicate IsBranchChainTransStep2(tx: Tx) { tx.kind == TransStep2 }
  predicate IsMortgage(tx: Tx) { tx.kind == Mortgage }
  predicate IsSmartContract(tx: Tx) { tx.kind == PublishContract || tx.kind == CallContract }
  predicate IsCallContract(tx: Tx) { tx.kind == CallContract }
  predicate IsReport(tx: Tx) { tx.kind == Report }
  predicate IsProve(tx: Tx) { tx.kind == Prove }
  predicate IsSyncBranchInfo(tx: Tx) { tx.kind == SyncBranchInfo }
  predicate IsReportReward(tx: Tx) { tx.kind == ReportReward }

  /** IsCoinBase: a single input spending the null outpoint (n = 0xffffffff). */
  predicate IsCoinBase(tx: Tx)
  {
    |tx.vin| == 1 && tx.vin[0].prevout == OutPoint(NullHash, 0xffff_ffff)
  }

  /** Sum of the values of the outputs that p selects, accumulated front to back as the
      source's `for (txout : vout) if (...) nAmount += txout.nValue` loops do. */
  function SumSelected(outs: seq<TxOut>, p: TxOut -> bool): int
  {
    if outs == [] then 0
    else SumSelected(outs[..|outs| - 1], p) + (if p(outs[|outs| - 1]) then outs[|outs| - 1].nValue else 0)
  }

  predicate AnyOutput(o: TxOut) { true }

  /** GetValueOut: the sum of all output values. */
  function ValueOut(tx: Tx): Amount
  {
    SumSelected(tx.vout, AnyOutput)
  }

  /** Functions the rules call whose bodies are not part of this model; every rule is proved
      for all of them. */
  datatype Env = Env(
    hash: Tx -> Hash,                            // GetHash
    isContract: Script -> bool,                  // CellScript::IsContract
    isContractChange: Script -> bool,            // CellScript::IsContractChange
    isBranchRecharge: Script -> bool,            // IsCoinBranchTranScript
    contractAddrOf: Script -> Option<Hash>,      // CellScript::GetContractAddr
    scriptForContract: Hash -> Script,           // GetScriptForDestination(contract id)
    extract: Pmt -> Extraction,                  // CellPartialMerkleTree::ExtractMatches
    verifyInput: (Tx, nat, Script, Amount) -> bool,  // CScriptCheck for input i
    decodeTx: string -> Option<Tx>,              // DecodeHexTx
    merkleRoot: seq<Tx> -> (Hash, bool),         // VecTxMerkleRoot with its `mutated` flag
    reportKey: Tx -> Hash,                       // GetReportTxHashKey
    proveKey: Tx -> Hash)                        // GetProveTxHashKey

  /** The outcome of a Check* function: accepted, rejected through state.DoS/Invalid with a
      ban score and reason, or a bare `return false` / error(...) that sets no state. */
  datatype Verdict = Accepted | Rejected(dos: nat, reason: string) | Failed(msg: string)

  /** The main chain's id is never the hex form of a hash, so it cannot be mistaken for a branch. */
  lemma MainIsNotAHash(h: Hash)
    ensures HashHex(h) != MAIN
  {
    HashHexDigits(h);
    if |HashHex(h)| == |MAIN| {
      assert !IsHexDigit(MAIN[0]);
    }
  }

  /** One more output adds its value when it is selected. */
  lemma SumSelectedSnoc(outs: seq<TxOut>, o: TxOut, p: TxOut -> bool)
    ensures SumSelected(outs + [o], p) == SumSelected(outs, p) + (if p(o) then o.nValue else 0)
  {
    assert (outs + [o])[..|outs|] == outs;
  }

  /** The sum splits over concatenation. */
  lemma {:induction false} SumSelectedAppend(a: seq<TxOut>, b: seq<TxOut>, p: TxOut -> bool)
    ensures SumSelected(a + b, p) == SumSelected(a, p) + SumSelected(b, p)
    decreases |b|
  {
    if b == [] {
      assert a + b == a;
    } else {
      var b' := b[..|b| - 1];
      assert (a + b)[..|a + b| - 1] == a + b';
      SumSelectedAppend(a, b', p);
    }
  }

  /** With non-negative values, selecting more outputs never lowers the sum. */
  lemma {:induction false} SumSelectedMonotone(outs: seq<TxOut>, p: TxOut -> bool, q: TxOut -> bool)
    requires forall o :: o in outs ==> o.nValue >= 0 && (p(o) ==> q(o))
    ensures 0 <= SumSelected(outs, p) <= SumSelected(outs, q)
    decreases |outs|
  {
    if outs != [] {
      SumSelectedMonotone(outs[..|outs| - 1], p, q);
    }
  }

  /** Selecting by either of two disjoint tests sums both selections. */
  lemma {:induction false} SumSelectedDisjoint(outs: seq<TxOut>, p: TxOut -> bool, q: TxOut -> bool, r: TxOut -> bool)
    requires forall o :: o in outs ==> !(p(o) && q(o)) && (r(o) <==> p(o) || q(o))
    ensures SumSelected(outs, r) == SumSelected(outs, p) + SumSelected(outs, q)
    decreases |outs|
  {
    if outs != [] {
      SumSelectedDisjoint(outs[..|outs| - 1], p, q, r);
    }
  }

  /** Nothing selected sums to zero; everything selected sums to the whole value out. */
  lemma {:induction false} SumSelectedExtremes(outs: seq<TxOut>, p: TxOut -> bool)
    ensures (forall o :: o in outs ==> !p(o)) ==> SumSelected(outs, p) == 0
    ensures (forall o :: o in outs ==> p(o)) ==> SumSelected(outs, p) == SumSelected(outs, AnyOutput)
    decreases |outs|
  {
    if outs != [] {
      SumSelectedExtremes(outs[..|outs| - 1], p);
    }
  }
}
