/** The decisions of getblocktemplate and submitblock (src/mining/mining.cpp): BIP 22 result
    strings, the names of BIP 9 deployments, the outcomes of a block proposal or submission,
    the `transactions` entries of a template, the version-bit adjustment, the long-poll id
    and the pre-segwit limits. Block decoding, validation and the chain's block index lie
    outside this model and come in as values. */
module BlockTemplate {
  import opened Wrappers
  import opened Hex
  import opened Transactions
  import opened RpcConfigs
  import opened MiningRpc
  import opened VersionBits

  // ---- BIP22ValidationResult ----

  /** MCValidationState: valid, invalid with a reject reason, or a local error. */
  datatype ValidationState = StateValid | StateInvalid(rejectReason: string) | StateError(errorReason: string)

  /** What a BIP 22 call answers: JSON null for success, or a string. */
  datatype Answer = NullAnswer | Text(text: string)

  /** BIP22ValidationResult: null for a valid state, the reject reason (or "rejected" when it
      is empty) for an invalid one, and RPC_VERIFY_ERROR for an error. */
  function Bip22Result(state: ValidationState): (r: Result<Answer, RpcError>)
    ensures r.Err? <==> state.StateError?
    ensures r.Err? ==> r.error == RpcError(VerifyError, state.errorReason)
    ensures r == Ok(NullAnswer) <==> state.StateValid?
    ensures state.StateInvalid? && state.rejectReason != [] ==> r == Ok(Text(state.rejectReason))
    ensures state.StateInvalid? && state.rejectReason == [] ==> r == Ok(Text("rejected"))
  {
    match state
    case StateValid => Ok(NullAnswer)
    case StateError(reason) => Err(RpcError(VerifyError, reason))
    case StateInvalid(reason) => if reason == [] then Ok(Text("rejected")) else Ok(Text(reason))
  }

  /** An invalid block is always reported with a non-empty reason. */
  lemma InvalidHasReason(state: ValidationState)
    requires state.StateInvalid?
    ensures Bip22Result(state).Ok? && Bip22Result(state).value.Text? && Bip22Result(state).value.text != []
  {
  }

  // ---- gbt_vb_name ----

  /** VBDeploymentInfo: the rule name of a deployment and whether a client that does not know
      it may still use the template. */
  datatype DeploymentInfo = DeploymentInfo(name: string, gbtForce: bool)

  /** gbt_vb_name: the rule name, with a '!' in front when clients must understand it. */
  function GbtVbName(info: DeploymentInfo): (s: string)
    ensures |s| == |info.name| + (if info.gbtForce then 0 else 1)
    ensures s[|s| - |info.name|..] == info.name
  {
    if info.gbtForce then info.name else "!" + info.name
  }

  /** How BIP 9 says a client reads a rule name back. */
  function ReadVbName(s: string): DeploymentInfo
  {
    if s != [] && s[0] == '!' then DeploymentInfo(s[1..], false) else DeploymentInfo(s, true)
  }

  /** The name and the force flag are recovered from the rule name, for every deployment
      whose own name does not start with '!'. */
  lemma VbNameRoundTrip(info: DeploymentInfo)
    requires info.name == [] || info.name[0] != '!'
    ensures ReadVbName(GbtVbName(info)) == info
  {
    if !info.gbtForce {
      assert GbtVbName(info)[1..] == info.name;
    }
  }

  // ---- block proposals and submitblock ----

  /** What the block index knows of a block: IsValid(BLOCK_VALID_SCRIPTS), and whether its
      status carries one of the BLOCK_FAILED_MASK bits. */
  datatype KnownBlock = KnownBlock(validScripts: bool, failed: bool)

  /** The answer for a block the index already has, when it is conclusive. */
  function KnownVerdict(kb: KnownBlock): (r: Option<string>)
    ensures r.None? <==> !kb.validScripts && !kb.failed
  {
    if kb.validScripts then Some("duplicate")
    else if kb.failed then Some("duplicate-invalid")
    else None
  }

  /** A decoded block, as far as these answers look at it. */
  datatype DecodedBlock = DecodedBlock(hash: Hash, prevHash: Hash, startsWithCoinbase: bool)

  /** getblocktemplate in "proposal" mode. `decode` is DecodeHex; `testState` is the state
      TestBlockValidity leaves behind. */
  function ProposalResult(data: JVal, decode: string -> Option<DecodedBlock>, index: map<Hash, KnownBlock>,
                          tipHash: Hash, testState: ValidationState): (r: Result<Answer, RpcError>)
  {
    if !data.JStr? then Err(RpcError(TypeError, "Missing data String key for proposal"))
    else match decode(data.s)
      case None => Err(RpcError(DeserializationError, "Block decode failed"))
      case Some(block) =>
        if block.hash in index then
          match KnownVerdict(index[block.hash])
          case Some(v) => Ok(Text(v))
          case None => Ok(Text("duplicate-inconclusive"))
        else if block.prevHash != tipHash then Ok(Text("inconclusive-not-best-prevblk"))
        else Bip22Result(testState)
  }

  /** A known block is answered from the index alone, and only a block built on the tip is
      tested. */
  lemma ProposalOutcomes(data: JVal, decode: string -> Option<DecodedBlock>, index: map<Hash, KnownBlock>,
                         tipHash: Hash, testState: ValidationState)
    requires data.JStr? && decode(data.s).Some?
    ensures var block := decode(data.s).value;
            var r := ProposalResult(data, decode, index, tipHash, testState);
            (block.hash in index ==>
               r.Ok? && r.value.Text? &&
               r.value.text in {"duplicate", "duplicate-invalid", "duplicate-inconclusive"} &&
               (forall other :: ProposalResult(data, decode, index, tipHash, other) == r)) &&
            (block.hash !in index && block.prevHash != tipHash ==>
               r == Ok(Text("inconclusive-not-best-prevblk"))) &&
            (block.hash !in index && block.prevHash == tipHash ==> r == Bip22Result(testState))
  {
  }

  /** submitblock. `accepted` is what ProcessNewBlock returns, and `checked` the state the
      BlockChecked callback caught for this block, None when it never fired. */
  function SubmitBlockResult(decoded: Option<DecodedBlock>, index: map<Hash, KnownBlock>,
                             accepted: bool, checked: Option<ValidationState>): (r: Result<Answer, RpcError>)
    ensures r.Err? && r.error.code != VerifyError ==> r.error.code == DeserializationError
  {
    match decoded
    case None => Err(RpcError(DeserializationError, "Block decode failed"))
    case Some(block) =>
      if !block.startsWithCoinbase then Err(RpcError(DeserializationError, "Block does not start with a coinbase"))
      else if block.hash in index && KnownVerdict(index[block.hash]).Some? then
        Ok(Text(KnownVerdict(index[block.hash]).value))
      else if block.hash in index then
        if accepted && checked.None? then Ok(Text("duplicate-inconclusive")) else Ok(Text("duplicate"))
      else if checked.None? then Ok(Text("inconclusive"))
      else Bip22Result(checked.value)
  }

  /** The answers of submitblock for a well-formed block: a block known valid or failed is
      answered before it is processed, a block whose header alone was known is
      "duplicate-inconclusive" exactly when it was accepted without a callback, and a new
      block without a callback is "inconclusive". */
  lemma SubmitBlockOutcomes(block: DecodedBlock, index: map<Hash, KnownBlock>,
                            accepted: bool, checked: Option<ValidationState>)
    requires block.startsWithCoinbase
    ensures var r := SubmitBlockResult(Some(block), index, accepted, checked);
            (block.hash in index && index[block.hash].validScripts ==> r == Ok(Text("duplicate"))) &&
            (block.hash in index && !index[block.hash].validScripts && index[block.hash].failed ==>
               r == Ok(Text("duplicate-invalid"))) &&
            (block.hash in index && KnownVerdict(index[block.hash]).Some? ==>
               forall a, c :: SubmitBlockResult(Some(block), index, a, c) == r) &&
            (block.hash in index && KnownVerdict(index[block.hash]).None? ==>
               (r == Ok(Text("duplicate-inconclusive")) <==> accepted && checked.None?) &&
               (r != Ok(Text("duplicate-inconclusive")) ==> r == Ok(Text("duplicate")))) &&
            (block.hash !in index && checked.None? ==> r == Ok(Text("inconclusive"))) &&
            (block.hash !in index && checked.Some? ==> r == Bip22Result(checked.value))
  {
  }

  // ---- the `transactions` entries of a template ----

  /** What an entry of `transactions` states about a transaction, besides its serialisation,
      witness hash and weight: its id, the template positions it depends on, its fee and
      its signature-operation count. */
  datatype TemplateEntry = TemplateEntry(txid: Hash, depends: seq<nat>, fee: int, sigops: int)

  /** WITNESS_SCALE_FACTOR. */
  const WITNESS_SCALE_FACTOR: int := 4

  /** setTxIndex after the first `n` transactions: each hash mapped to its last position. */
  function TxIndex(vtx: seq<Tx>, txHash: Tx -> Hash, n: nat): (m: map<Hash, nat>)
    requires n <= |vtx|
  {
    if n == 0 then map[] else TxIndex(vtx, txHash, n - 1)[txHash(vtx[n - 1]) := n - 1]
  }

  /** A hash is in setTxIndex exactly when one of the first `n` transactions has it, and it
      maps to the last such position. */
  lemma {:induction false} TxIndexMeans(vtx: seq<Tx>, txHash: Tx -> Hash, n: nat, h: Hash)
    requires n <= |vtx|
    ensures h in TxIndex(vtx, txHash, n) <==> exists j :: 0 <= j < n && txHash(vtx[j]) == h
    ensures h in TxIndex(vtx, txHash, n) ==>
            var j := TxIndex(vtx, txHash, n)[h];
            j < n && txHash(vtx[j]) == h && forall k :: j < k < n ==> txHash(vtx[k]) != h
  {
    if n > 0 {
      TxIndexMeans(vtx, txHash, n - 1, h);
      if txHash(vtx[n - 1]) != h && exists j :: 0 <= j < n && txHash(vtx[j]) == h {
        var j :| 0 <= j < n && txHash(vtx[j]) == h;
        assert j < n - 1;
      }
    }
  }

  /** The `depends` of a transaction with inputs `vin`: for each input whose previous
      transaction is already in setTxIndex, that transaction's position, in input order. */
  function Depends(vin: seq<TxIn>, index: map<Hash, nat>): seq<nat>
  {
    if vin == [] then []
    else
      var last := vin[|vin| - 1].prevout.hash;
      Depends(vin[..|vin| - 1], index) + if last in index then [index[last]] else []
  }

  /** Every position in `depends` holds a transaction one of the inputs spends from. */
  lemma {:induction false} DependsSpent(vin: seq<TxIn>, index: map<Hash, nat>, d: nat)
    requires d in Depends(vin, index)
    ensures exists k :: 0 <= k < |vin| && vin[k].prevout.hash in index && index[vin[k].prevout.hash] == d
  {
    if vin != [] {
      var last := vin[|vin| - 1].prevout.hash;
      if d in Depends(vin[..|vin| - 1], index) {
        DependsSpent(vin[..|vin| - 1], index, d);
        var k :| 0 <= k < |vin| - 1 && vin[..|vin| - 1][k].prevout.hash in index &&
                 index[vin[..|vin| - 1][k].prevout.hash] == d;
        assert vin[k] == vin[..|vin| - 1][k];
      } else {
        assert last in index && index[last] == d;
      }
    }
  }

  /** The sigops an entry reports: the template's cost, scaled down before segwit. */
  function EntrySigOps(cost: int, preSegWit: bool): int
  {
    if preSegWit then cost / WITNESS_SCALE_FACTOR else cost
  }

  /** The entries for the first `n` transactions of the template. */
  function TemplateEntries(vtx: seq<Tx>, txHash: Tx -> Hash, fees: seq<int>, sigOps: seq<int>,
                           preSegWit: bool, n: nat): seq<TemplateEntry>
    requires n <= |vtx| == |fees| == |sigOps|
  {
    if n == 0 then []
    else
      var tx := vtx[n - 1];
      TemplateEntries(vtx, txHash, fees, sigOps, preSegWit, n - 1) +
      if IsCoinBase(tx) then []
      else [TemplateEntry(txHash(tx), Depends(tx.vin, TxIndex(vtx, txHash, n)), fees[n - 1],
                          EntrySigOps(sigOps[n - 1], preSegWit))]
  }

  /** Each entry stands for one transaction that is not a coinbase: its id, fee and sigops
      are that transaction's (from the same template index), and every position it depends
      on is at or before its own and holds a transaction it spends from. */
  lemma {:induction false} EntriesDescribeTransactions(vtx: seq<Tx>, txHash: Tx -> Hash, fees: seq<int>,
                                                        sigOps: seq<int>, preSegWit: bool, n: nat, e: TemplateEntry)
    requires n <= |vtx| == |fees| == |sigOps|
    requires e in TemplateEntries(vtx, txHash, fees, sigOps, preSegWit, n)
    ensures exists p :: 0 <= p < n && !IsCoinBase(vtx[p]) && e.txid == txHash(vtx[p]) &&
              e.fee == fees[p] && e.sigops == EntrySigOps(sigOps[p], preSegWit) &&
              forall d :: d in e.depends ==>
                d <= p && exists k :: 0 <= k < |vtx[p].vin| && vtx[p].vin[k].prevout.hash == txHash(vtx[d])
  {
    var prev := TemplateEntries(vtx, txHash, fees, sigOps, preSegWit, n - 1);
    if e in prev {
      EntriesDescribeTransactions(vtx, txHash, fees, sigOps, preSegWit, n - 1, e);
    } else {
      var p := n - 1;
      var index := TxIndex(vtx, txHash, n);
      forall d | d in e.depends
        ensures d <= p && exists k :: 0 <= k < |vtx[p].vin| && vtx[p].vin[k].prevout.hash == txHash(vtx[d])
      {
        DependsSpent(vtx[p].vin, index, d);
        var k :| 0 <= k < |vtx[p].vin| && vtx[p].vin[k].prevout.hash in index && index[vtx[p].vin[k].prevout.hash] == d;
        TxIndexMeans(vtx, txHash, n, vtx[p].vin[k].prevout.hash);
      }
    }
  }

  /** The coinbase is left out, every other transaction gets exactly one entry. */
  lemma {:induction false} EntryCount(vtx: seq<Tx>, txHash: Tx -> Hash, fees: seq<int>, sigOps: seq<int>,
                                      preSegWit: bool, n: nat)
    requires n <= |vtx| == |fees| == |sigOps|
    ensures |TemplateEntries(vtx, txHash, fees, sigOps, preSegWit, n)| == NonCoinbaseCount(vtx[..n])
  {
    if n > 0 {
      EntryCount(vtx, txHash, fees, sigOps, preSegWit, n - 1);
      assert vtx[..n][..n - 1] == vtx[..n - 1];
    }
  }

  function NonCoinbaseCount(txs: seq<Tx>): nat
  {
    if txs == [] then 0
    else NonCoinbaseCount(txs[..|txs| - 1]) + if IsCoinBase(txs[|txs| - 1]) then 0 else 1
  }

  /** The inner loop: one `depends` entry per input whose transaction is already indexed. */
  method CollectDepends(vin: seq<TxIn>, setTxIndex: map<Hash, nat>) returns (deps: seq<nat>)
    ensures deps == Depends(vin, setTxIndex)
  {
    deps := [];
    for k := 0 to |vin|
      invariant deps == Depends(vin[..k], setTxIndex)
    {
      assert vin[..k + 1][..k] == vin[..k];
      if vin[k].prevout.hash in setTxIndex {
        deps := deps + [setTxIndex[vin[k].prevout.hash]];
      }
    }
    assert vin[..|vin|] == vin;
  }

  /** The loop building `transactions`: each transaction is indexed before its own inputs
      are looked up; the coinbase is indexed but gets no entry. Before segwit every sigop
      cost must be a multiple of WITNESS_SCALE_FACTOR, which the loop asserts. */
  method BuildTemplateEntries(vtx: seq<Tx>, txHash: Tx -> Hash, fees: seq<int>, sigOps: seq<int>, preSegWit: bool)
    returns (transactions: seq<TemplateEntry>)
    requires |vtx| == |fees| == |sigOps|
    requires preSegWit ==> forall p :: 0 <= p < |vtx| && !IsCoinBase(vtx[p]) ==> sigOps[p] % WITNESS_SCALE_FACTOR == 0
    ensures transactions == TemplateEntries(vtx, txHash, fees, sigOps, preSegWit, |vtx|)
  {
    var setTxIndex: map<Hash, nat> := map[];
    transactions := [];
    var i := 0;
    while i < |vtx|
      invariant 0 <= i <= |vtx|
      invariant setTxIndex == TxIndex(vtx, txHash, i)
      invariant transactions == TemplateEntries(vtx, txHash, fees, sigOps, preSegWit, i)
    {
      var tx := vtx[i];
      setTxIndex := setTxIndex[txHash(tx) := i];
      i := i + 1;
      if IsCoinBase(tx) {
        continue;
      }
      var deps := CollectDepends(tx.vin, setTxIndex);
      var indexInTemplate := i - 1;
      var nTxSigOps := sigOps[indexInTemplate];
      if preSegWit {
        assert nTxSigOps % WITNESS_SCALE_FACTOR == 0;
        nTxSigOps := nTxSigOps / WITNESS_SCALE_FACTOR;
      }
      transactions := transactions + [TemplateEntry(txHash(tx), deps, fees[indexInTemplate], nTxSigOps)];
    }
  }

  // ---- the BIP 9 version-bit adjustment ----

  /** ThresholdState of a BIP 9 deployment at the template's parent block. */
  datatype ThresholdState = Defined | Started | LockedIn | Active | Failed

  /** A deployment of VersionBitsDeploymentInfo / vDeployments: its info and its bit. */
  datatype Deployment = Deployment(info: DeploymentInfo, bit: bv32)

  /** The template's version, and the `rules` and `vbavailable` lists built with it. */
  datatype VbResult = VbResult(version: bv32, rules: seq<string>, vbavailable: seq<(string, bv32)>)

  /** The client lists the rule in its `rules`, or the rule may be used without that. */
  predicate Supported(d: Deployment, clientRules: set<string>)
  {
    d.info.name in clientRules || d.info.gbtForce
  }

  predicate BitsInRange(ds: seq<Deployment>)
  {
    forall j :: 0 <= j < |ds| ==> ds[j].bit < 32
  }

  /** One case of the switch over a deployment's state. */
  function VbStep(acc: VbResult, d: Deployment, state: ThresholdState, clientRules: set<string>): Result<VbResult, RpcError>
    requires d.bit < 32
  {
    match state
    case Defined => Ok(acc)
    case Failed => Ok(acc)
    case Active =>
      if !Supported(d, clientRules) then
        Err(RpcError(InvalidParameter, "Support for '" + d.info.name + "' rule requires explicit client support"))
      else Ok(acc.(rules := acc.rules + [GbtVbName(d.info)]))
    case LockedIn => Ok(Offer(acc.(version := SetBit(acc.version, d.bit)), d, clientRules))
    case Started => Ok(Offer(acc, d, clientRules))
  }

  /** STARTED and LOCKED_IN: the deployment is listed in `vbavailable`, and its bit is
      cleared for a client that lacks a rule it may not ignore. */
  function Offer(acc: VbResult, d: Deployment, clientRules: set<string>): VbResult
    requires d.bit < 32
  {
    var version := if Supported(d, clientRules) then acc.version else ClearBit(acc.version, d.bit);
    acc.(version := version, vbavailable := acc.vbavailable + [(GbtVbName(d.info), d.bit)])
  }

  /** The switch applied to the first `n` deployments, starting from the assembled version. */
  function VersionBitsUpTo(ds: seq<Deployment>, states: seq<ThresholdState>, clientRules: set<string>,
                           version: bv32, n: nat): (r: Result<VbResult, RpcError>)
    requires |states| == |ds| && n <= |ds| && BitsInRange(ds)
    ensures r.Err? ==> r.error.code == InvalidParameter
    ensures r.Ok? ==> |r.value.rules| + |r.value.vbavailable| <= n
  {
    if n == 0 then Ok(VbResult(version, [], []))
    else match VersionBitsUpTo(ds, states, clientRules, version, n - 1)
      case Err(e) => Err(e)
      case Ok(acc) => VbStep(acc, ds[n - 1], states[n - 1], clientRules)
  }

  /** The `rules` entries of the first `n` deployments: the names of the ACTIVE ones, in order. */
  function ActiveRules(ds: seq<Deployment>, states: seq<ThresholdState>, n: nat): seq<string>
    requires |states| == |ds| && n <= |ds|
  {
    if n == 0 then []
    else ActiveRules(ds, states, n - 1) + (if states[n - 1].Active? then [GbtVbName(ds[n - 1].info)] else [])
  }

  /** The `vbavailable` entries of the first `n` deployments: name and bit of the STARTED and
      LOCKED_IN ones, in order. */
  function OfferedBits(ds: seq<Deployment>, states: seq<ThresholdState>, n: nat): seq<(string, bv32)>
    requires |states| == |ds| && n <= |ds|
  {
    if n == 0 then []
    else OfferedBits(ds, states, n - 1) +
         (if states[n - 1].Started? || states[n - 1].LockedIn? then [(GbtVbName(ds[n - 1].info), ds[n - 1].bit)] else [])
  }

  /** When the request succeeds, `rules` lists exactly the ACTIVE deployments and
      `vbavailable` exactly the STARTED and LOCKED_IN ones, each in deployment order; DEFINED
      and FAILED deployments appear in neither. */
  lemma {:induction false} VersionBitsLists(ds: seq<Deployment>, states: seq<ThresholdState>, clientRules: set<string>,
                                            version: bv32, n: nat)
    requires |states| == |ds| && n <= |ds| && BitsInRange(ds)
    ensures var r := VersionBitsUpTo(ds, states, clientRules, version, n);
            r.Ok? ==> r.value.rules == ActiveRules(ds, states, n) && r.value.vbavailable == OfferedBits(ds, states, n)
  {
    if n > 0 {
      VersionBitsLists(ds, states, clientRules, version, n - 1);
    }
  }

  /** Once a deployment has failed the request, the later ones change nothing. */
  lemma {:induction false} FailureStays(ds: seq<Deployment>, states: seq<ThresholdState>, clientRules: set<string>,
                                        version: bv32, j: nat, n: nat)
    requires |states| == |ds| && j <= n <= |ds| && BitsInRange(ds)
    requires VersionBitsUpTo(ds, states, clientRules, version, j).Err?
    ensures VersionBitsUpTo(ds, states, clientRules, version, n) == VersionBitsUpTo(ds, states, clientRules, version, j)
  {
    if j < n {
      FailureStays(ds, states, clientRules, version, j, n - 1);
    }
  }

  /** The loop over all deployments that adjusts the block version. */
  method AdjustVersionBits(ds: seq<Deployment>, states: seq<ThresholdState>, clientRules: set<string>, version: bv32)
    returns (r: Result<VbResult, RpcError>)
    requires |states| == |ds| && BitsInRange(ds)
    ensures r == VersionBitsUpTo(ds, states, clientRules, version, |ds|)
  {
    var nVersion := version;
    var aRules: seq<string> := [];
    var vbavailable: seq<(string, bv32)> := [];
    for j := 0 to |ds|
      invariant VersionBitsUpTo(ds, states, clientRules, version, j) == Ok(VbResult(nVersion, aRules, vbavailable))
    {
      var d := ds[j];
      match states[j] {
        case Defined =>
        case Failed =>
        case LockedIn =>
          nVersion := SetBit(nVersion, d.bit);
          vbavailable := vbavailable + [(GbtVbName(d.info), d.bit)];
          if d.info.name !in clientRules && !d.info.gbtForce {
            nVersion := ClearBit(nVersion, d.bit);
          }
        case Started =>
          vbavailable := vbavailable + [(GbtVbName(d.info), d.bit)];
          if d.info.name !in clientRules && !d.info.gbtForce {
            nVersion := ClearBit(nVersion, d.bit);
          }
        case Active =>
          aRules := aRules + [GbtVbName(d.info)];
          if d.info.name !in clientRules && !d.info.gbtForce {
            FailureStays(ds, states, clientRules, version, j + 1, |ds|);
            return Err(RpcError(InvalidParameter, "Support for '" + d.info.name + "' rule requires explicit client support"));
          }
      }
    }
    r := Ok(VbResult(nVersion, aRules, vbavailable));
  }

  /** A deployment's bit as it ends up: LOCKED_IN sets it, STARTED keeps it, and both clear
      it for a client that lacks a rule it may not ignore; the other states leave it. */
  function ExpectedBit(d: Deployment, state: ThresholdState, clientRules: set<string>, before: bv32): bv32
    requires d.bit < 32
  {
    match state
    case LockedIn => if Supported(d, clientRules) then Mask(d.bit) else 0
    case Started => if Supported(d, clientRules) then before else 0
    case _ => before
  }

  /** With distinct bits, each deployment's bit in the final version is decided by its own
      state alone; a bit no deployment uses is left as assembled. */
  lemma {:induction false} VersionBitOutcome(ds: seq<Deployment>, states: seq<ThresholdState>, clientRules: set<string>,
                                             version: bv32, n: nat, k: bv32)
    requires |states| == |ds| && n <= |ds| && BitsInRange(ds)
    requires forall i, j :: 0 <= i < j < |ds| ==> ds[i].bit != ds[j].bit
    requires k < 32
    requires VersionBitsUpTo(ds, states, clientRules, version, n).Ok?
    ensures var v := VersionBitsUpTo(ds, states, clientRules, version, n).value.version;
            (forall j :: 0 <= j < n && ds[j].bit == k ==>
               BitOf(v, k) == ExpectedBit(ds[j], states[j], clientRules, BitOf(version, k))) &&
            ((forall j :: 0 <= j < n ==> ds[j].bit != k) ==> BitOf(v, k) == BitOf(version, k))
  {
    if n > 0 {
      var acc := VersionBitsUpTo(ds, states, clientRules, version, n - 1);
      assert acc.Ok?;
      VersionBitOutcome(ds, states, clientRules, version, n - 1, k);
      StepBit(acc.value, ds[n - 1], states[n - 1], clientRules, k);
      if ds[n - 1].bit == k {
        assert forall j :: 0 <= j < n - 1 ==> ds[j].bit != ds[n - 1].bit;
        assert BitOf(acc.value.version, k) == BitOf(version, k);
      }
    }
  }

  /** Offering a STARTED deployment: its own bit is kept for a client that can use it and
      cleared otherwise; every other bit is kept. */
  lemma StartedBit(acc: VbResult, d: Deployment, clientRules: set<string>, k: bv32)
    requires d.bit < 32 && k < 32
    ensures BitOf(Offer(acc, d, clientRules).version, k)
         == if d.bit == k then ExpectedBit(d, Started, clientRules, BitOf(acc.version, k)) else BitOf(acc.version, k)
  {
    var v0 := acc.version;
    if !Supported(d, clientRules) {
      assert Offer(acc, d, clientRules).version == ClearBit(v0, d.bit);
      if d.bit == k { OwnBit(v0, k); } else { OtherBitCleared(v0, d.bit, k); }
    }
  }

  /** Offering a LOCKED_IN deployment after setting its bit: its own bit is set for a client
      that can use it and cleared otherwise; every other bit is kept. */
  lemma LockedInBit(acc: VbResult, d: Deployment, clientRules: set<string>, k: bv32)
    requires d.bit < 32 && k < 32
    ensures BitOf(Offer(acc.(version := SetBit(acc.version, d.bit)), d, clientRules).version, k)
         == if d.bit == k then ExpectedBit(d, LockedIn, clientRules, BitOf(acc.version, k)) else BitOf(acc.version, k)
  {
    var raised := SetBit(acc.version, d.bit);
    if Supported(d, clientRules) {
      assert Offer(acc.(version := raised), d, clientRules).version == raised;
      LockedInSupportedBit(acc.version, d.bit, k);
    } else {
      assert Offer(acc.(version := raised), d, clientRules).version == ClearBit(raised, d.bit);
      LockedInUnsupportedBit(acc.version, d.bit, k);
    }
  }

  /** Setting a bit turns it on and leaves every other bit as it was. */
  lemma LockedInSupportedBit(v0: bv32, b: bv32, k: bv32)
    requires b < 32 && k < 32
    ensures BitOf(SetBit(v0, b), k) == if b == k then Mask(b) else BitOf(v0, k)
  {
    if b == k { OwnBit(v0, k); } else { OtherBitSet(v0, b, k); }
  }

  /** Setting a bit and clearing it again leaves it clear and every other bit as it was. */
  lemma LockedInUnsupportedBit(v0: bv32, b: bv32, k: bv32)
    requires b < 32 && k < 32
    ensures BitOf(ClearBit(SetBit(v0, b), b), k) == if b == k then 0 else BitOf(v0, k)
  {
    var raised := SetBit(v0, b);
    if b == k {
      OwnBit(raised, k);
    } else {
      OtherBitCleared(raised, b, k);
      OtherBitSet(v0, b, k);
    }
  }

  /** One deployment's step: its own bit becomes ExpectedBit, every other bit is kept. */
  lemma StepBit(acc: VbResult, d: Deployment, state: ThresholdState, clientRules: set<string>, k: bv32)
    requires d.bit < 32 && k < 32
    requires VbStep(acc, d, state, clientRules).Ok?
    ensures var v := VbStep(acc, d, state, clientRules).value.version;
            BitOf(v, k) == if d.bit == k then ExpectedBit(d, state, clientRules, BitOf(acc.version, k))
                           else BitOf(acc.version, k)
  {
    match state
    case Defined =>
    case Failed =>
    case Active =>
    case Started => StartedBit(acc, d, clientRules, k);
    case LockedIn => LockedInBit(acc, d, clientRules, k);
  }

  /** A deployment that is ACTIVE for a client that lacks its rule and may not ignore it
      makes getblocktemplate fail, whatever the other deployments are. */
  lemma {:induction false} UnsupportedActiveFails(ds: seq<Deployment>, states: seq<ThresholdState>, clientRules: set<string>,
                                                  version: bv32, n: nat, j: nat)
    requires |states| == |ds| && n <= |ds| && BitsInRange(ds)
    requires j < n && states[j] == Active && !Supported(ds[j], clientRules)
    ensures VersionBitsUpTo(ds, states, clientRules, version, n).Err?
    ensures VersionBitsUpTo(ds, states, clientRules, version, n).error.code == InvalidParameter
  {
    if j < n - 1 {
      UnsupportedActiveFails(ds, states, clientRules, version, n - 1, j);
    }
  }

  // ---- the long-poll id ----

  /** The `longpollid` of a template: the tip's hash in hex followed by the decimal count of
      transaction updates. */
  function LongPollId(tipHash: Hash, transactionsUpdated: nat): (s: string)
    requires |tipHash| == 32
    ensures |s| > 64
  {
    HashHex(tipHash) + DecimalString(transactionsUpdated)
  }

  /** How a long-poll request reads the id back: the first 64 characters as the watched
      hash, the rest by atoi64 into an unsigned 32-bit count. None where substr(64) would
      throw, on a text shorter than 64 characters. */
  function ParseLongPollId(lpstr: string): Option<(Hash, nat)>
  {
    if |lpstr| < 64 then None
    else Some((ParseHashHex(lpstr[..64]), Atoi64(lpstr[64..]) % 0x1_0000_0000))
  }

  /** A long-poll id is read back as the hash and the count it was made from. */
  lemma LongPollRoundTrip(tipHash: Hash, transactionsUpdated: nat)
    requires |tipHash| == 32 && transactionsUpdated < 0x1_0000_0000
    ensures ParseLongPollId(LongPollId(tipHash, transactionsUpdated)) == Some((tipHash, transactionsUpdated))
  {
    var h := HashHex(tipHash);
    var count := DecimalString(transactionsUpdated);
    var s := h + count;
    assert s == LongPollId(tipHash, transactionsUpdated);
    assert |h| == 64;
    assert s[..64] == h;
    assert s[64..] == count;
    HashHexRoundTrip(tipHash);
    DecimalRoundTrip(transactionsUpdated);
    assert Atoi64(count) % 0x1_0000_0000 == transactionsUpdated;
    assert ParseLongPollId(s) == Some((ParseHashHex(h), Atoi64(count) % 0x1_0000_0000));
  }

  // ---- limits ----

  /** `sigoplimit`, `sizelimit` and `weightlimit` of a template. */
  datatype Limits = Limits(sigOpLimit: int, sizeLimit: int, weightLimit: Option<int>)

  /** Before segwit the sigop and size limits are given in legacy units (the consensus
      values divided by WITNESS_SCALE_FACTOR, which the code asserts to be exact), and no
      weight limit is given. The consensus values are parameters. */
  function TemplateLimits(preSegWit: bool, maxSigOpsCost: int, maxSerializedSize: int, maxWeight: int): (r: Limits)
    requires preSegWit ==> maxSigOpsCost % WITNESS_SCALE_FACTOR == 0 && maxSerializedSize % WITNESS_SCALE_FACTOR == 0
    ensures r.weightLimit.Some? <==> !preSegWit
    ensures preSegWit ==> r.sigOpLimit * WITNESS_SCALE_FACTOR == maxSigOpsCost &&
                          r.sizeLimit * WITNESS_SCALE_FACTOR == maxSerializedSize
    ensures !preSegWit ==> r == Limits(maxSigOpsCost, maxSerializedSize, Some(maxWeight))
  {
    if preSegWit then Limits(maxSigOpsCost / WITNESS_SCALE_FACTOR, maxSerializedSize / WITNESS_SCALE_FACTOR, None)
    else Limits(maxSigOpsCost, maxSerializedSize, Some(maxWeight))
  }

  /** A pre-segwit client that scales its legacy limits back up gets the consensus limits. */
  lemma LimitsScaleBack(maxSigOpsCost: int, maxSerializedSize: int, maxWeight: int)
    requires maxSigOpsCost % WITNESS_SCALE_FACTOR == 0 && maxSerializedSize % WITNESS_SCALE_FACTOR == 0
    ensures var legacy := TemplateLimits(true, maxSigOpsCost, maxSerializedSize, maxWeight);
            var modern := TemplateLimits(false, maxSigOpsCost, maxSerializedSize, maxWeight);
            legacy.sigOpLimit * WITNESS_SCALE_FACTOR == modern.sigOpLimit &&
            legacy.sizeLimit * WITNESS_SCALE_FACTOR == modern.sizeLimit
  {
  }
}
