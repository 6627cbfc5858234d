/** Block generation by the wallet RPCs (src/mining/mining.cpp): the priority order of
    staking coins, the try/erase loop of generateBlocks, and the way generateblockcommon
    splits a request between the BigBoom blocks and ordinary blocks. Building, signing,
    checking and submitting a block happen outside this model and are an oracle. */
module Generate {
  import opened Wrappers
  import opened Hex
  import opened Scripts
  import opened Transactions
  import opened MiningRpc

  /** MCOutput as generateBlocks sees it: a wallet output (the transaction it belongs to,
      its index, the output itself and its depth in the chain), or the placeholder without a
      transaction that genforbigboomimp passes, for which a fresh key is drawn. */
  datatype MinerOutput = NoCoin | Coin(txHash: Hash, i: nat, out: TxOut, depth: int)

  // ---- CoinsComparer ----

  /** The weight CoinsComparer orders by: value times the number of blocks the coin will
      have aged once the next block is on the chain. A placeholder carries no value. */
  function Priority(o: MinerOutput, tipHeight: int): int
  {
    if o.Coin? then o.out.nValue * (tipHeight + 1 - o.depth) else 0
  }

  /** CoinsComparer: `a` goes before `b` when it weighs strictly more. */
  predicate CoinsComparer(a: MinerOutput, b: MinerOutput, tipHeight: int)
  {
    Priority(a, tipHeight) > Priority(b, tipHeight)
  }

  /** CoinsComparer is a strict weak order, as std::sort needs: irreflexive, transitive, and
      outputs of equal weight are interchangeable. */
  lemma ComparerIsStrictWeakOrder(a: MinerOutput, b: MinerOutput, c: MinerOutput, tipHeight: int)
    ensures !CoinsComparer(a, a, tipHeight)
    ensures CoinsComparer(a, b, tipHeight) && CoinsComparer(b, c, tipHeight) ==> CoinsComparer(a, c, tipHeight)
    ensures (!CoinsComparer(a, b, tipHeight) && !CoinsComparer(b, a, tipHeight) &&
             !CoinsComparer(b, c, tipHeight) && !CoinsComparer(c, b, tipHeight)) ==>
            (!CoinsComparer(a, c, tipHeight) && !CoinsComparer(c, a, tipHeight))
  {
  }

  /** What std::sort leaves behind: no output is ordered before one that precedes it. */
  predicate SortedByPriority(s: seq<MinerOutput>, tipHeight: int)
  {
    forall i, j :: 0 <= i < j < |s| ==> !CoinsComparer(s[j], s[i], tipHeight)
  }

  /** A sorted vector has non-increasing weight, and checking neighbours is enough. */
  lemma {:induction false} SortedIffNonIncreasing(s: seq<MinerOutput>, tipHeight: int)
    ensures SortedByPriority(s, tipHeight) <==>
            forall i :: 0 <= i < |s| - 1 ==> Priority(s[i + 1], tipHeight) <= Priority(s[i], tipHeight)
  {
    if forall i :: 0 <= i < |s| - 1 ==> Priority(s[i + 1], tipHeight) <= Priority(s[i], tipHeight) {
      forall i, j | 0 <= i < j < |s|
        ensures Priority(s[j], tipHeight) <= Priority(s[i], tipHeight)
      {
        NeighboursChain(s, tipHeight, i, j);
      }
    }
  }

  lemma {:induction false} NeighboursChain(s: seq<MinerOutput>, tipHeight: int, i: nat, j: nat)
    requires forall k :: 0 <= k < |s| - 1 ==> Priority(s[k + 1], tipHeight) <= Priority(s[k], tipHeight)
    requires i <= j < |s|
    ensures Priority(s[j], tipHeight) <= Priority(s[i], tipHeight)
    decreases j - i
  {
    if i < j {
      NeighboursChain(s, tipHeight, i + 1, j);
    }
  }

  /** Places one output into a sorted vector after every output that weighs more. */
  function InsertByPriority(o: MinerOutput, s: seq<MinerOutput>, tipHeight: int): (r: seq<MinerOutput>)
    requires SortedByPriority(s, tipHeight)
    ensures multiset(r) == multiset(s) + multiset{o}
    ensures SortedByPriority(r, tipHeight)
  {
    if s == [] then [o]
    else if !CoinsComparer(s[0], o, tipHeight) then [o] + s
    else
      var rest := InsertByPriority(o, s[1..], tipHeight);
      assert s == [s[0]] + s[1..];
      forall k | 0 <= k < |rest|
        ensures !CoinsComparer(rest[k], s[0], tipHeight)
      {
        assert rest[k] in multiset(rest);
        if rest[k] != o {
          assert rest[k] in multiset(s[1..]);
          var m :| 0 <= m < |s[1..]| && s[1..][m] == rest[k];
          assert s[m + 1] == rest[k];
        }
      }
      [s[0]] + rest
  }

  /** The sort at line 401: a permutation of the wallet's outputs in priority order. Among
      outputs of equal weight std::sort leaves the order unspecified; this picks one. */
  function SortByPriority(s: seq<MinerOutput>, tipHeight: int): (r: seq<MinerOutput>)
    ensures multiset(r) == multiset(s)
    ensures SortedByPriority(r, tipHeight)
  {
    if s == [] then []
    else
      assert s == [s[0]] + s[1..];
      InsertByPriority(s[0], SortByPriority(s[1..], tipHeight), tipHeight)
  }

  // ---- generateBlocks ----

  /** How one attempt at a block ends: BlockAssembler built no template, SignBlock failed,
      CheckBlockWork found no valid proof, the block was solved and accepted, or it was
      solved and ProcessNewBlock refused it. */
  datatype Attempt = NoTemplate | SignFailed | Unsolved | Solved(blockHash: Hash) | NotAccepted

  /** What generateBlocks asks of the node for one call. Each is indexed by the try number,
      which stands for the moment it is asked. */
  datatype MinerWorld = MinerWorld(
    branchMining: bool,                          // not mining the main chain
    reserveKey: nat -> Option<Script>,           // a keypool key's script; None: keypool empty
    scriptForKey: seq<byte> -> Script,           // GetScriptForDestination of a key id
    isP2SH: Script -> bool,                      // IsPayToScriptHash
    shutdown: nat -> bool,                       // ShutdownRequested
    attempt: (nat, MinerOutput, Script) -> Attempt)

  /** The loop variables of generateBlocks: the output vector, nTries and the hashes mined. */
  datatype GenState = GenState(outputs: seq<MinerOutput>, tries: nat, hashes: seq<string>)

  /** The script a try would mine to: Ok(None) when the try is skipped before a block is
      built (a branch-chain coin that is no mortgage coin, or a pay-to-script-hash script). */
  function MiningScript(w: MinerWorld, out: MinerOutput, tries: nat): Result<Option<Script>, RpcError>
  {
    if out.NoCoin? then
      match w.reserveKey(tries)
      case None => Err(RpcError(WalletKeypoolRanOut, "Error: Keypool ran out, please call keypoolrefill first"))
      case Some(script) => Ok(Some(script))
    else
      var script :=
        if !w.branchMining then Some(out.out.scriptPubKey)
        else match GetMortgageCoinData(out.out.scriptPubKey, false)
          case None => None
          case Some(d) => Some(w.scriptForKey(d.keyId));
      if script.None? || w.isP2SH(script.value) then Ok(None) else Ok(script)
  }

  /** The vector with the entry at `k` erased. */
  function EraseAt<T>(s: seq<T>, k: nat): (r: seq<T>)
    requires k < |s|
    ensures |r| == |s| - 1
    ensures multiset(r) == multiset(s) - multiset{s[k]}
  {
    assert s == s[..k] + [s[k]] + s[k + 1..];
    s[..k] + s[k + 1..]
  }

  datatype StepOutcome = Continue(st: GenState) | Stop(st: GenState) | Throw(err: RpcError)

  /** One pass of the loop body. The output used is the one at `nTries % size`; once a
      block has been attempted with a real coin, that coin is erased, and the loop stops when
      none is left. Every pass that does not throw counts one try. */
  function TryOnce(w: MinerWorld, st: GenState): (r: StepOutcome)
    requires |st.outputs| > 0
    ensures !r.Throw? ==> r.st.tries == st.tries + 1
    ensures !r.Throw? ==> st.hashes <= r.st.hashes && |r.st.hashes| <= |st.hashes| + 1
    ensures r.Continue? ==> |r.st.outputs| > 0
    ensures r.Stop? ==> r.st.outputs == []
    ensures !r.Throw? ==>
            var k := st.tries % |st.outputs|;
            r.st.outputs == st.outputs ||
            (st.outputs[k].Coin? && r.st.outputs == EraseAt(st.outputs, k))
    ensures !r.Throw? && st.outputs[st.tries % |st.outputs|].Coin? && r.st.outputs == st.outputs ==>
            r.st.hashes == st.hashes
    ensures var k := st.tries % |st.outputs|;
            var script := MiningScript(w, st.outputs[k], st.tries);
            script.Ok? && script.value.Some? ==>
            var attempt := w.attempt(st.tries, st.outputs[k], script.value.value);
            (attempt.Unsolved? || attempt.Solved?) ==>
            && !r.Throw?
            && r.st.hashes == st.hashes + (if attempt.Solved? then [HashHex(attempt.blockHash)] else [])
            && (st.outputs[k].Coin? ==> r.st.outputs == EraseAt(st.outputs, k))
            && (st.outputs[k].NoCoin? ==> r.st.outputs == st.outputs)
    ensures var k := st.tries % |st.outputs|;
            var script := MiningScript(w, st.outputs[k], st.tries);
            (script.Err? ==> r == Throw(script.error)) &&
            (script.Ok? && script.value.None? ==> r == Continue(st.(tries := st.tries + 1)))
  {
    var k := st.tries % |st.outputs|;
    var out := st.outputs[k];
    match MiningScript(w, out, st.tries)
    case Err(e) => Throw(e)
    case Ok(None) => Continue(st.(tries := st.tries + 1))
    case Ok(Some(script)) =>
      match w.attempt(st.tries, out, script)
      case NoTemplate => Continue(st.(tries := st.tries + 1))
      case SignFailed => Continue(st.(tries := st.tries + 1))
      case NotAccepted => Throw(RpcError(InternalError, "ProcessNewBlock, block not accepted"))
      case Unsolved => Settle(st, k, st.hashes)
      case Solved(h) => Settle(st, k, st.hashes + [HashHex(h)])
  }

  /** The end of a try that reached CheckBlockWork: count the try, and erase the coin used. */
  function Settle(st: GenState, k: nat, hashes: seq<string>): (r: StepOutcome)
    requires k < |st.outputs|
  {
    if st.outputs[k].NoCoin? then Continue(GenState(st.outputs, st.tries + 1, hashes))
    else
      var rest := EraseAt(st.outputs, k);
      if rest == [] then Stop(GenState(rest, st.tries + 1, hashes))
      else Continue(GenState(rest, st.tries + 1, hashes))
  }

  /** The while loop of generateBlocks from a given state: it runs while fewer than
      `nGenerate` blocks are mined, fewer than `nMaxTries` tries are made and no shutdown is
      requested. */
  function GenerateFrom(w: MinerWorld, st: GenState, nGenerate: int, nMaxTries: nat): Result<GenState, RpcError>
    requires |st.outputs| > 0
    decreases nMaxTries - st.tries
  {
    if |st.hashes| < nGenerate && st.tries < nMaxTries && !w.shutdown(st.tries) then
      match TryOnce(w, st)
      case Throw(e) => Err(e)
      case Stop(s) => Ok(s)
      case Continue(s) => GenerateFrom(w, s, nGenerate, nMaxTries)
    else Ok(st)
  }

  /** generateBlocks: RPC_INTERNAL_ERROR without outputs, otherwise the loop from no tries
      and no hashes. The final state holds the returned hashes and the vector the caller's
      reference is left with. */
  function GenerateBlocksSpec(w: MinerWorld, outputs: seq<MinerOutput>, nGenerate: int, nMaxTries: nat): Result<GenState, RpcError>
  {
    if outputs == [] then Err(RpcError(InternalError, "no address with enough coins\n"))
    else GenerateFrom(w, GenState(outputs, 0, []), nGenerate, nMaxTries)
  }

  /** The loop never mines more than requested, never tries more than allowed, only ever
      takes outputs away (never a placeholder), and ends for one of its four reasons. */
  lemma {:induction false} GenerateFromBounds(w: MinerWorld, st: GenState, nGenerate: int, nMaxTries: nat)
    requires |st.outputs| > 0
    requires |st.hashes| <= nGenerate || st.hashes == []
    requires st.tries <= nMaxTries
    ensures var r := GenerateFrom(w, st, nGenerate, nMaxTries);
            r.Ok? ==>
            st.hashes <= r.value.hashes &&
            (|r.value.hashes| <= nGenerate || r.value.hashes == []) &&
            st.tries <= r.value.tries <= nMaxTries &&
            multiset(r.value.outputs) <= multiset(st.outputs) &&
            multiset(r.value.outputs)[NoCoin] == multiset(st.outputs)[NoCoin] &&
            (|r.value.hashes| >= nGenerate || r.value.tries == nMaxTries ||
             w.shutdown(r.value.tries) || r.value.outputs == [])
    decreases nMaxTries - st.tries
  {
    if |st.hashes| < nGenerate && st.tries < nMaxTries && !w.shutdown(st.tries) {
      var r := TryOnce(w, st);
      TryOnceKeeps(w, st);
      if r.Continue? {
        GenerateFromBounds(w, r.st, nGenerate, nMaxTries);
      }
    }
  }

  /** A try only takes outputs away, and never a placeholder. */
  lemma TryOnceKeeps(w: MinerWorld, st: GenState)
    requires |st.outputs| > 0
    ensures var r := TryOnce(w, st);
            !r.Throw? ==>
            multiset(r.st.outputs) <= multiset(st.outputs) &&
            multiset(r.st.outputs)[NoCoin] == multiset(st.outputs)[NoCoin]
  {
    var r := TryOnce(w, st);
    if !r.Throw? && r.st.outputs != st.outputs {
      var k := st.tries % |st.outputs|;
      assert st.outputs[k].Coin?;
      assert st.outputs[k] != NoCoin;
    }
  }

  /** generateBlocks returns at most `nGenerate` hashes after at most `nMaxTries` tries; a
      call with no outputs fails, and a placeholder output is never erased. */
  lemma GenerateBlocksBounds(w: MinerWorld, outputs: seq<MinerOutput>, nGenerate: int, nMaxTries: nat)
    ensures outputs == [] ==> GenerateBlocksSpec(w, outputs, nGenerate, nMaxTries).Err?
    ensures var r := GenerateBlocksSpec(w, outputs, nGenerate, nMaxTries);
            r.Ok? ==>
            (|r.value.hashes| <= nGenerate || r.value.hashes == []) &&
            r.value.tries <= nMaxTries &&
            multiset(r.value.outputs) <= multiset(outputs) &&
            multiset(r.value.outputs)[NoCoin] == multiset(outputs)[NoCoin]
  {
    if outputs != [] {
      GenerateFromBounds(w, GenState(outputs, 0, []), nGenerate, nMaxTries);
    }
  }

  /** The loop of generateBlocks. It returns the hashes mined and the state the output
      vector, passed by reference, is left in. */
  method GenerateBlocks(w: MinerWorld, vecOutput: seq<MinerOutput>, nGenerate: int, nMaxTries: nat)
    returns (r: Result<GenState, RpcError>)
    ensures r == GenerateBlocksSpec(w, vecOutput, nGenerate, nMaxTries)
  {
    if vecOutput == [] {
      return Err(RpcError(InternalError, "no address with enough coins\n"));
    }
    var outputs := vecOutput;
    var nTries: nat := 0;
    var blockHashes: seq<string> := [];
    while |blockHashes| < nGenerate && nTries < nMaxTries && !w.shutdown(nTries)
      invariant |outputs| > 0
      invariant GenerateFrom(w, GenState(outputs, nTries, blockHashes), nGenerate, nMaxTries) ==
                GenerateBlocksSpec(w, vecOutput, nGenerate, nMaxTries)
      decreases nMaxTries - nTries
    {
      ghost var before := GenState(outputs, nTries, blockHashes);
      var indexOutput := nTries % |outputs|;
      var out := outputs[indexOutput];
      var script := MiningScript(w, out, nTries);
      if script.Err? {
        return Err(script.error);
      }
      if script.value.None? {
        nTries := nTries + 1;
        assert TryOnce(w, before) == Continue(GenState(outputs, nTries, blockHashes));
        continue;
      }
      var attempt := w.attempt(nTries, out, script.value.value);
      if attempt.NoTemplate? || attempt.SignFailed? {
        nTries := nTries + 1;
        assert TryOnce(w, before) == Continue(GenState(outputs, nTries, blockHashes));
        continue;
      }
      if attempt.NotAccepted? {
        return Err(RpcError(InternalError, "ProcessNewBlock, block not accepted"));
      }
      if attempt.Solved? {
        blockHashes := blockHashes + [HashHex(attempt.blockHash)];
      }
      nTries := nTries + 1;
      if out.Coin? {
        outputs := EraseAt(outputs, indexOutput);
        if |outputs| == 0 {
          assert TryOnce(w, before) == Stop(GenState(outputs, nTries, blockHashes));
          return Ok(GenState(outputs, nTries, blockHashes));
        }
      }
      assert TryOnce(w, before) == Continue(GenState(outputs, nTries, blockHashes));
    }
    r := Ok(GenState(outputs, nTries, blockHashes));
  }

  // ---- genforbigboomimp and generateblockcommon ----

  /** genforbigboomimp: refuses a request that would reach past BigBoomHeight, and otherwise
      mines with a single placeholder output, so every block goes to a fresh keypool key. */
  method GenForBigBoom(w: MinerWorld, height: int, bigBoomHeight: int, n: int, maxTries: nat)
    returns (r: Result<GenState, RpcError>)
    ensures height + n > bigBoomHeight ==> r == Err(RpcError(InvalidRequest, "Can not use this rpc, instead of using generate"))
    ensures height + n <= bigBoomHeight ==> r == GenerateBlocksSpec(w, [NoCoin], n, maxTries)
  {
    if height + n > bigBoomHeight {
      return Err(RpcError(InvalidRequest, "Can not use this rpc, instead of using generate"));
    }
    r := GenerateBlocks(w, [NoCoin], n, maxTries);
  }

  /** The share of a request generateblockcommon hands to genforbigboomimp while the chain
      is below BigBoomHeight: all of it, or just the blocks still missing below that height. */
  function BigBoomCount(numGenerate: int, bigBoomHeight: int, height: int): (n: int)
    requires bigBoomHeight > height && numGenerate > 0
    ensures 0 < n <= numGenerate
    ensures height + n <= bigBoomHeight
    ensures n == numGenerate || height + n == bigBoomHeight
  {
    var missing := bigBoomHeight - height;
    if missing < numGenerate then missing else numGenerate
  }

  /** The rounds generateblockcommon gives generateBlocks with the wallet's coins. */
  const TRY_TIMES: nat := 30

  /** What generateblockcommon ends with: every hash mined (whether or not they are returned),
      what is left of num_generate, and the number of wallet rounds run. */
  datatype CommonOutcome = CommonOutcome(hashes: seq<string>, numLeft: int, rounds: nat)

  /** The hashes round k of generateblockcommon mines: generateBlocks over the wallet's coins
      in priority order, with `worlds(k + 1)`. */
  function Round(isMainChain: bool, maxTries: nat, worlds: nat -> MinerWorld,
                 walletCoins: nat -> seq<MinerOutput>, k: nat, height: int, num: int): Result<seq<string>, RpcError>
  {
    var w := worlds(k + 1).(branchMining := !isMainChain);
    match GenerateBlocksSpec(w, SortByPriority(walletCoins(k), height), num, maxTries)
    case Err(e) => Err(e)
    case Ok(st) => Ok(st.hashes)
  }

  /** The BigBoom call of generateblockcommon: generateBlocks for n blocks with the single
      placeholder output, with `worlds(0)`. */
  function BigBoom(isMainChain: bool, maxTries: nat, worlds: nat -> MinerWorld, n: int): Result<seq<string>, RpcError>
  {
    match GenerateBlocksSpec(worlds(0).(branchMining := !isMainChain), [NoCoin], n, maxTries)
    case Err(e) => Err(e)
    case Ok(st) => Ok(st.hashes)
  }

  /** `mine(k, height, num)` is Round: the rounds of the spec below are generateBlocks calls. */
  ghost predicate IsRoundMiner(mine: (nat, int, int) -> Result<seq<string>, RpcError>, isMainChain: bool,
                               maxTries: nat, worlds: nat -> MinerWorld, walletCoins: nat -> seq<MinerOutput>)
  {
    forall k: nat, h: int, n: int {:trigger Round(isMainChain, maxTries, worlds, walletCoins, k, h, n)} ::
      mine(k, h, n) == Round(isMainChain, maxTries, worlds, walletCoins, k, h, n)
  }

  /** `boom(n)` is BigBoom. */
  ghost predicate IsBigBoomMiner(boom: int -> Result<seq<string>, RpcError>, isMainChain: bool, maxTries: nat,
                                 worlds: nat -> MinerWorld)
  {
    forall n: int {:trigger BigBoom(isMainChain, maxTries, worlds, n)} ::
      boom(n) == BigBoom(isMainChain, maxTries, worlds, n)
  }

  /** Round and BigBoom as the functions the spec takes. */
  function Miner(isMainChain: bool, maxTries: nat, worlds: nat -> MinerWorld, walletCoins: nat -> seq<MinerOutput>)
    : (mine: (nat, int, int) -> Result<seq<string>, RpcError>)
    ensures IsRoundMiner(mine, isMainChain, maxTries, worlds, walletCoins)
  {
    (k: nat, h: int, n: int) => Round(isMainChain, maxTries, worlds, walletCoins, k, h, n)
  }

  function BigBoomMiner(isMainChain: bool, maxTries: nat, worlds: nat -> MinerWorld)
    : (boom: int -> Result<seq<string>, RpcError>)
    ensures IsBigBoomMiner(boom, isMainChain, maxTries, worlds)
  {
    (n: int) => BigBoom(isMainChain, maxTries, worlds, n)
  }

  /** The wallet rounds of generateblockcommon from round k on, after `mined`: while blocks
      are still wanted, fewer than TRY_TIMES rounds have run and no shutdown is requested,
      round k mines `mine(k, height, num)`, and what it mined comes off the count. */
  function WalletRounds(mine: (nat, int, int) -> Result<seq<string>, RpcError>, height: int, num: int,
                        shutdown: nat -> bool, k: nat, mined: seq<string>): Result<CommonOutcome, RpcError>
    requires k <= TRY_TIMES
    decreases TRY_TIMES - k
  {
    if num > 0 && k < TRY_TIMES && !shutdown(k) then
      match mine(k, height, num)
      case Err(e) => Err(e)
      case Ok(hashes) => WalletRounds(mine, height + |hashes|, num - |hashes|, shutdown, k + 1, mined + hashes)
    else Ok(CommonOutcome(mined, num, k))
  }

  /** One wallet round that mines. */
  lemma WalletRoundsStep(mine: (nat, int, int) -> Result<seq<string>, RpcError>, height: int, num: int,
                         shutdown: nat -> bool, k: nat, mined: seq<string>, hashes: seq<string>)
    requires num > 0 && k < TRY_TIMES && !shutdown(k) && mine(k, height, num) == Ok(hashes)
    ensures WalletRounds(mine, height, num, shutdown, k, mined)
         == WalletRounds(mine, height + |hashes|, num - |hashes|, shutdown, k + 1, mined + hashes)
  {
  }

  /** Every round mines at most the blocks still requested. */
  ghost predicate MinesWithinRequest(mine: (nat, int, int) -> Result<seq<string>, RpcError>)
  {
    forall k: nat, h: int, n: int :: n > 0 && mine(k, h, n).Ok? ==> |mine(k, h, n).value| <= n
  }

  /** The BigBoom call mines at most the blocks asked for. */
  ghost predicate BoomWithinRequest(boom: int -> Result<seq<string>, RpcError>)
  {
    forall n: int :: n > 0 && boom(n).Ok? ==> |boom(n).value| <= n
  }

  /** generateBlocks never mines more than it is asked for, so neither do the rounds nor the
      BigBoom call. */
  lemma MinersWithinRequest(mine: (nat, int, int) -> Result<seq<string>, RpcError>,
                            boom: int -> Result<seq<string>, RpcError>, isMainChain: bool, maxTries: nat,
                            worlds: nat -> MinerWorld, walletCoins: nat -> seq<MinerOutput>)
    requires IsRoundMiner(mine, isMainChain, maxTries, worlds, walletCoins)
    requires IsBigBoomMiner(boom, isMainChain, maxTries, worlds)
    ensures MinesWithinRequest(mine) && BoomWithinRequest(boom)
  {
    forall k: nat, h: int, n: int | n > 0 && mine(k, h, n).Ok?
      ensures |mine(k, h, n).value| <= n
    {
      assert mine(k, h, n) == Round(isMainChain, maxTries, worlds, walletCoins, k, h, n);
      GenerateBlocksBounds(worlds(k + 1).(branchMining := !isMainChain), SortByPriority(walletCoins(k), h), n, maxTries);
    }
    forall n: int | n > 0 && boom(n).Ok?
      ensures |boom(n).value| <= n
    {
      assert boom(n) == BigBoom(isMainChain, maxTries, worlds, n);
      GenerateBlocksBounds(worlds(0).(branchMining := !isMainChain), [NoCoin], n, maxTries);
    }
  }

  /** The rounds keep what was mined before them, leave the request minus what they mined,
      and stop only when nothing is left to mine, after TRY_TIMES rounds, or on shutdown. */
  lemma {:induction false} WalletRoundsCount(mine: (nat, int, int) -> Result<seq<string>, RpcError>, height: int,
                                             num: int, shutdown: nat -> bool, k: nat, mined: seq<string>)
    requires k <= TRY_TIMES
    ensures var r := WalletRounds(mine, height, num, shutdown, k, mined);
            r.Ok? ==>
            mined <= r.value.hashes &&
            r.value.numLeft == num - (|r.value.hashes| - |mined|) &&
            r.value.numLeft <= num &&
            k <= r.value.rounds <= TRY_TIMES &&
            (r.value.numLeft <= 0 || r.value.rounds == TRY_TIMES || shutdown(r.value.rounds)) &&
            (MinesWithinRequest(mine) && num >= 0 ==> r.value.numLeft >= 0)
    decreases TRY_TIMES - k
  {
    if num > 0 && k < TRY_TIMES && !shutdown(k) {
      var round := mine(k, height, num);
      if round.Ok? {
        assert MinesWithinRequest(mine) ==> |round.value| <= num;
        WalletRoundsCount(mine, height + |round.value|, num - |round.value|, shutdown, k + 1, mined + round.value);
      }
    }
  }

  /** generateblockcommon after the second-block step, for a BigBoom call `boom` and rounds
      `mine`: the BigBoom share while the chain is below BigBoomHeight, then the wallet
      rounds. Like the source, it takes the BigBoom share off the count whatever number of
      blocks was actually mined for it. */
  function CommonFrom(second: seq<string>, height: int, bigBoomHeight: int, num: int,
                      boom: int -> Result<seq<string>, RpcError>,
                      mine: (nat, int, int) -> Result<seq<string>, RpcError>, shutdown: nat -> bool)
    : Result<CommonOutcome, RpcError>
  {
    if num <= 0 then Ok(CommonOutcome(second, num, 0))
    else if bigBoomHeight > height then
      var n := BigBoomCount(num, bigBoomHeight, height);
      AfterBigBoom(second, boom(n), height, num - n, mine, shutdown)
    else WalletRounds(mine, height, num, shutdown, 0, second)
  }

  /** What follows the BigBoom call: its error, or the wallet rounds for the `left` blocks
      still wanted after the second-block and BigBoom hashes. */
  function AfterBigBoom(second: seq<string>, boomed: Result<seq<string>, RpcError>, height: int, left: int,
                        mine: (nat, int, int) -> Result<seq<string>, RpcError>, shutdown: nat -> bool)
    : Result<CommonOutcome, RpcError>
  {
    match boomed
    case Err(e) => Err(e)
    case Ok(hashes) => WalletRounds(mine, height + |hashes|, left, shutdown, 0, second + hashes)
  }

  /** generateblockcommon as a whole: the second block on a fresh branch chain, then
      CommonFrom. With `boom` and `mine` bound by IsBigBoomMiner and IsRoundMiner this is the
      RPC; Miner and BigBoomMiner are such functions. */
  function BlockCommonSpec(isMainChain: bool, height0: nat, bigBoomHeight: int, numGenerate: int,
                           secondBlock: Result<seq<string>, RpcError>, boom: int -> Result<seq<string>, RpcError>,
                           mine: (nat, int, int) -> Result<seq<string>, RpcError>, shutdown: nat -> bool)
    : Result<CommonOutcome, RpcError>
  {
    if !isMainChain && height0 == 0 then
      match secondBlock
      case Err(e) => Err(e)
      case Ok(second) => CommonFrom(second, height0 + |second|, bigBoomHeight, numGenerate - 1, boom, mine, shutdown)
    else CommonFrom([], height0, bigBoomHeight, numGenerate, boom, mine, shutdown)
  }

  /** The counts of an outcome that started from the hashes `second` with `num` blocks wanted:
      at most TRY_TIMES rounds, the hashes extend `second`, a request of nothing returns
      `second` untouched, otherwise what is left lies between zero and the request, at most
      the blocks taken off the request were mined, and the rounds stopped only when nothing was
      left, after TRY_TIMES rounds or on shutdown. */
  ghost predicate CountsKept(o: CommonOutcome, second: seq<string>, num: int, shutdown: nat -> bool)
  {
    && o.rounds <= TRY_TIMES
    && second <= o.hashes
    && (num <= 0 ==> o.numLeft == num && o.hashes == second)
    && (num > 0 ==> 0 <= o.numLeft <= num)
    && |o.hashes| <= |second| + num - o.numLeft
    && (o.numLeft <= 0 || o.rounds == TRY_TIMES || shutdown(o.rounds))
  }

  /** CommonFrom keeps the counts straight when its calls mine no more than asked: it starts
      with the second-block hashes, what is left of the request lies between zero and the
      request, at most the blocks taken off the request were mined, and the rounds stop only
      when nothing is left, after TRY_TIMES rounds or on shutdown. */
  lemma CommonFromBounds(second: seq<string>, height: int, bigBoomHeight: int, num: int,
                         boom: int -> Result<seq<string>, RpcError>,
                         mine: (nat, int, int) -> Result<seq<string>, RpcError>, shutdown: nat -> bool)
    requires BoomWithinRequest(boom) && MinesWithinRequest(mine)
    ensures var r := CommonFrom(second, height, bigBoomHeight, num, boom, mine, shutdown);
            r.Ok? ==> CountsKept(r.value, second, num, shutdown)
  {
    if num > 0 {
      if bigBoomHeight > height {
        var n := BigBoomCount(num, bigBoomHeight, height);
        assert CommonFrom(second, height, bigBoomHeight, num, boom, mine, shutdown)
            == AfterBigBoom(second, boom(n), height, num - n, mine, shutdown);
        AfterBigBoomBounds(second, boom(n), height, num, n, mine, shutdown);
      } else {
        assert CommonFrom(second, height, bigBoomHeight, num, boom, mine, shutdown)
            == WalletRounds(mine, height, num, shutdown, 0, second);
        WalletRoundsCount(mine, height, num, shutdown, 0, second);
      }
    }
  }

  /** The BigBoom share `n` of a request of `num`, when the call mines at most `n` blocks,
      leaves the counts straight for the wallet rounds after it. */
  lemma AfterBigBoomBounds(second: seq<string>, boomed: Result<seq<string>, RpcError>, height: int, num: int, n: int,
                           mine: (nat, int, int) -> Result<seq<string>, RpcError>, shutdown: nat -> bool)
    requires MinesWithinRequest(mine)
    requires 0 < n <= num
    requires boomed.Ok? ==> |boomed.value| <= n
    ensures var r := AfterBigBoom(second, boomed, height, num - n, mine, shutdown);
            r.Ok? ==> CountsKept(r.value, second, num, shutdown)
  {
    if boomed.Ok? {
      var hashes := boomed.value;
      WalletRoundsCount(mine, height + |hashes|, num - n, shutdown, 0, second + hashes);
    }
  }

  /** The same for generateblockcommon as a whole, whose second-block step must succeed. */
  lemma BlockCommonBounds(isMainChain: bool, height0: nat, bigBoomHeight: int, numGenerate: int,
                          secondBlock: Result<seq<string>, RpcError>, boom: int -> Result<seq<string>, RpcError>,
                          mine: (nat, int, int) -> Result<seq<string>, RpcError>, shutdown: nat -> bool)
    requires BoomWithinRequest(boom) && MinesWithinRequest(mine)
    ensures var spec := BlockCommonSpec(isMainChain, height0, bigBoomHeight, numGenerate, secondBlock, boom, mine, shutdown);
            spec.Ok? && !isMainChain && height0 == 0 ==>
            secondBlock.Ok? && CountsKept(spec.value, secondBlock.value, numGenerate - 1, shutdown)
    ensures var spec := BlockCommonSpec(isMainChain, height0, bigBoomHeight, numGenerate, secondBlock, boom, mine, shutdown);
            spec.Ok? && (isMainChain || height0 != 0) ==> CountsKept(spec.value, [], numGenerate, shutdown)
  {
    if !isMainChain && height0 == 0 {
      if secondBlock.Ok? {
        CommonFromBounds(secondBlock.value, height0 + |secondBlock.value|, bigBoomHeight, numGenerate - 1, boom, mine, shutdown);
      }
    } else {
      CommonFromBounds([], height0, bigBoomHeight, numGenerate, boom, mine, shutdown);
    }
  }

  /** Round k of generateblockcommon's retry loop: generateBlocks over the wallet's coins
      sorted by priority at the current height, with `worlds(k + 1)`. */
  method MineRound(isMainChain: bool, maxTries: nat, worlds: nat -> MinerWorld,
                   walletCoins: nat -> seq<MinerOutput>, k: nat, height: int, num: int,
                   ghost mine: (nat, int, int) -> Result<seq<string>, RpcError>)
    returns (r: Result<seq<string>, RpcError>)
    requires IsRoundMiner(mine, isMainChain, maxTries, worlds, walletCoins)
    ensures r == mine(k, height, num)
  {
    var coins := SortByPriority(walletCoins(k), height);
    var w := worlds(k + 1).(branchMining := !isMainChain);
    var round := GenerateBlocks(w, coins, num, maxTries);
    assert mine(k, height, num) == Round(isMainChain, maxTries, worlds, walletCoins, k, height, num);
    if round.Err? {
      return Err(round.error);
    }
    return Ok(round.value.hashes);
  }

  /** The BigBoom call of generateblockcommon: genforbigboomimp for n blocks, which the
      caller keeps within BigBoomHeight. */
  method MineBigBoom(isMainChain: bool, maxTries: nat, worlds: nat -> MinerWorld, height: int, bigBoomHeight: int,
                     n: int, ghost boom: int -> Result<seq<string>, RpcError>)
    returns (r: Result<seq<string>, RpcError>)
    requires IsBigBoomMiner(boom, isMainChain, maxTries, worlds)
    requires height + n <= bigBoomHeight
    ensures r == boom(n)
  {
    var w := worlds(0).(branchMining := !isMainChain);
    var bigBoom := GenForBigBoom(w, height, bigBoomHeight, n, maxTries);
    assert boom(n) == BigBoom(isMainChain, maxTries, worlds, n);
    if bigBoom.Err? {
      return Err(bigBoom.error);
    }
    return Ok(bigBoom.value.hashes);
  }

  /** The retry loop of generateblockcommon: while blocks are still wanted, fewer than
      TRY_TIMES rounds have run and no shutdown is requested, it mines from the wallet's coins
      in priority order (`worlds(k + 1)` serves round k), appending the hashes to `ret` when
      they are wanted. `mined` is every hash mined before the loop. */
  method WalletRoundsLoop(isMainChain: bool, maxTries: nat, worlds: nat -> MinerWorld,
                          walletCoins: nat -> seq<MinerOutput>, shutdown: nat -> bool,
                          height0: int, num0: int, needHashes: bool, ret0: seq<string>,
                          ghost mined: seq<string>, ghost mine: (nat, int, int) -> Result<seq<string>, RpcError>)
    returns (r: Result<seq<string>, RpcError>, numLeft: int, rounds: nat)
    requires IsRoundMiner(mine, isMainChain, maxTries, worlds, walletCoins)
    requires needHashes ==> ret0 == mined
    ensures var spec := WalletRounds(mine, height0, num0, shutdown, 0, mined);
            && (spec.Err? ==> r == Err(spec.error))
            && (spec.Ok? ==> r == Ok(if needHashes then spec.value.hashes else ret0) &&
                             numLeft == spec.value.numLeft && rounds == spec.value.rounds)
  {
    ghost var acc := mined;
    var ret := ret0;
    var num := num0;
    var height := height0;
    rounds := 0;
    var tryTimes := TRY_TIMES;
    while num > 0 && tryTimes > 0 && !shutdown(rounds)
      invariant rounds + tryTimes == TRY_TIMES
      invariant ret == if needHashes then acc else ret0
      invariant WalletRounds(mine, height0, num0, shutdown, 0, mined) == WalletRounds(mine, height, num, shutdown, rounds, acc)
    {
      tryTimes := tryTimes - 1;
      var round := MineRound(isMainChain, maxTries, worlds, walletCoins, rounds, height, num, mine);
      if round.Err? {
        return Err(round.error), num, rounds;
      }
      WalletRoundsStep(mine, height, num, shutdown, rounds, acc, round.value);
      num := num - |round.value|;
      height := height + |round.value|;
      acc := acc + round.value;
      if needHashes {
        ret := ret + round.value;
      }
      rounds := rounds + 1;
    }
    return Ok(ret), num, rounds;
  }

  /** generateblockcommon. `secondBlock` is what generateBranch2ndBlock yields (it mines from
      the mempool, which is outside this model), `worlds(0)` serves the BigBoom call and
      `worlds(k + 1)` round k, `walletCoins(k)` is what AvailableCoins (main chain) or
      AvailableMortgageCoins (branch chain) lists in round k, and `shutdown(k)` is
      ShutdownRequested before it. Every block mined is taken to extend the active chain.
      Besides the result it returns what is left of num_generate, which the caller passes
      by reference, and the number of wallet rounds run. The ghost `boom` and `mine` name the
      BigBoom call and the rounds for the spec (BigBoomMiner and Miner are such functions). */
  method GenerateBlockCommon(isMainChain: bool, height0: nat, bigBoomHeight: int, numGenerate: int,
                             maxTries: nat, needHashes: bool, secondBlock: Result<seq<string>, RpcError>,
                             worlds: nat -> MinerWorld, walletCoins: nat -> seq<MinerOutput>,
                             shutdown: nat -> bool, ghost boom: int -> Result<seq<string>, RpcError>,
                             ghost mine: (nat, int, int) -> Result<seq<string>, RpcError>)
    returns (r: Result<seq<string>, RpcError>, numLeft: int, rounds: nat)
    requires IsBigBoomMiner(boom, isMainChain, maxTries, worlds)
    requires IsRoundMiner(mine, isMainChain, maxTries, worlds, walletCoins)
    ensures var spec := BlockCommonSpec(isMainChain, height0, bigBoomHeight, numGenerate, secondBlock,
                                        boom, mine, shutdown);
            var second := if !isMainChain && height0 == 0 && secondBlock.Ok? then secondBlock.value else [];
            && (spec.Err? ==> r == Err(spec.error))
            && (spec.Ok? ==> r == Ok(if needHashes then spec.value.hashes else second) &&
                             numLeft == spec.value.numLeft && rounds == spec.value.rounds)
  {
    if !isMainChain && height0 == 0 {
      if secondBlock.Err? {
        return Err(secondBlock.error), numGenerate - 1, 0;
      }
      var second := secondBlock.value;
      r, numLeft, rounds := CommonAfterSecond(isMainChain, maxTries, worlds, walletCoins, shutdown, second,
                                              height0 + |second|, bigBoomHeight, numGenerate - 1, needHashes, boom, mine);
    } else {
      r, numLeft, rounds := CommonAfterSecond(isMainChain, maxTries, worlds, walletCoins, shutdown, [],
                                              height0, bigBoomHeight, numGenerate, needHashes, boom, mine);
    }
  }

  /** generateblockcommon after the second-block step: `ret` holds the second-block hashes,
      `height` is the chain height after them and `num` what is left of num_generate. */
  method CommonAfterSecond(isMainChain: bool, maxTries: nat, worlds: nat -> MinerWorld,
                           walletCoins: nat -> seq<MinerOutput>, shutdown: nat -> bool, second: seq<string>,
                           height0: int, bigBoomHeight: int, num0: int, needHashes: bool,
                           ghost boom: int -> Result<seq<string>, RpcError>,
                           ghost mine: (nat, int, int) -> Result<seq<string>, RpcError>)
    returns (r: Result<seq<string>, RpcError>, numLeft: int, rounds: nat)
    requires IsBigBoomMiner(boom, isMainChain, maxTries, worlds)
    requires IsRoundMiner(mine, isMainChain, maxTries, worlds, walletCoins)
    ensures var spec := CommonFrom(second, height0, bigBoomHeight, num0, boom, mine, shutdown);
            && (spec.Err? ==> r == Err(spec.error))
            && (spec.Ok? ==> r == Ok(if needHashes then spec.value.hashes else second) &&
                             numLeft == spec.value.numLeft && rounds == spec.value.rounds)
  {
    var ret := second;
    var num := num0;
    var height := height0;
    ghost var mined := ret;
    if num <= 0 {
      return Ok(ret), num, 0;
    }
    if bigBoomHeight > height {
      var n := BigBoomCount(num, bigBoomHeight, height);
      var bigBoom := MineBigBoom(isMainChain, maxTries, worlds, height, bigBoomHeight, n, boom);
      if bigBoom.Err? {
        return Err(bigBoom.error), num, 0;
      }
      num := num - n;
      height := height + |bigBoom.value|;
      mined := mined + bigBoom.value;
      if needHashes {
        ret := ret + bigBoom.value;
      }
    }
    r, numLeft, rounds := WalletRoundsLoop(isMainChain, maxTries, worlds, walletCoins, shutdown, height, num,
                                           needHashes, ret, mined, mine);
  }
}
