/** The integer parts of the fee and network-rate RPCs in src/mining/mining.cpp: the
    confirmation-target range check, the block-count clamp of estimatefee, and the window
    GetNetworkHashPS measures over. */
module MiningRpc {
  import opened Wrappers
  import opened RpcConfigs
  import opened Hex

  /** The JSON-RPC error kinds these handlers raise. `Misc` is what the RPC server reports
      for the std::runtime_error UniValue's accessors throw on a value of the wrong type. */
  datatype RpcCode =
    | InvalidParameter | InternalError | WalletKeypoolRanOut | InvalidRequest
    | VerifyError | TypeError | DeserializationError | Misc

  datatype RpcError = RpcError(code: RpcCode, message: string)

  const NotAnInteger := "JSON value is not an integer as expected"
  const IntegerOutOfRange := "JSON integer out of range"

  /** What UniValue::get_int throws where GetInt has no value: a number that is no 32-bit
      integer is out of range, anything else is not an integer. */
  function GetIntError(v: JVal): (e: RpcError)
    requires GetInt(v).None?
    ensures e.code == Misc
    ensures v.JNum? <==> e.message == IntegerOutOfRange
  {
    if v.JNum? then RpcError(Misc, IntegerOutOfRange) else RpcError(Misc, NotAnInteger)
  }

  const InvalidConfTarget := "Invalid conf_target, must be between 1 - "

  /** The message names the accepted range, its upper end written in decimal. */
  function ConfTargetMessage(maxTarget: nat): string
  {
    InvalidConfTarget + DecimalString(maxTarget)
  }

  /** ParseConfirmTarget: the target if it lies in [1, maxTarget], where maxTarget is the
      fee estimator's HighestTargetTracked, and RPC_INVALID_PARAMETER otherwise. */
  function ParseConfirmTarget(value: JVal, maxTarget: nat): (r: Result<nat, RpcError>)
    ensures r.Ok? ==> GetInt(value) == Some(r.value as int)
    ensures r.Err? && GetInt(value).Some? ==> r.error.code == InvalidParameter
  {
    match GetInt(value)
    case None => Err(GetIntError(value))
    case Some(target) =>
      if target < 1 || target > maxTarget then Err(RpcError(InvalidParameter, ConfTargetMessage(maxTarget)))
      else Ok(target)
  }

  /** A target is accepted exactly when it is an integer in [1, maxTarget]. */
  lemma ConfirmTargetRange(value: JVal, maxTarget: nat)
    ensures ParseConfirmTarget(value, maxTarget).Ok? <==>
            (GetInt(value).Some? && 1 <= GetInt(value).value <= maxTarget)
  {
  }

  /** A number beyond 32 bits fails in get_int, before the range check, as out of range. */
  lemma ConfirmTargetBeyondInt32(n: int, maxTarget: nat)
    requires !IsInt32(n)
    ensures ParseConfirmTarget(JNum(n), maxTarget) == Err(RpcError(Misc, IntegerOutOfRange))
  {
  }

  /** A target outside the range is an invalid parameter, never some other failure. */
  lemma ConfirmTargetOutOfRange(n: int, maxTarget: nat)
    requires IsInt32(n) && (n < 1 || n > maxTarget)
    ensures ParseConfirmTarget(JNum(n), maxTarget) == Err(RpcError(InvalidParameter, ConfTargetMessage(maxTarget)))
  {
  }

  /** estimatefee: a block count below one is raised to one. */
  function ClampBlocks(nBlocks: int): (r: int)
    ensures r >= 1
    ensures nBlocks >= 1 ==> r == nBlocks
    ensures nBlocks < 1 ==> r == 1
  {
    if nBlocks < 1 then 1 else nBlocks
  }

  /** Clamping a count that was already clamped changes nothing, and every count below one
      is treated alike. */
  lemma ClampBlocksSettles(a: int, b: int)
    ensures ClampBlocks(ClampBlocks(a)) == ClampBlocks(a)
    ensures a < 1 && b < 1 ==> ClampBlocks(a) == ClampBlocks(b)
  {
  }

  // ---- GetNetworkHashPS ----

  /** The block GetNetworkHashPS measures from: `height` when it names a block below the tip,
      otherwise the tip; None when the chain is empty. `chainLen` is chainActive.Height() + 1. */
  function StartBlock(chainLen: nat, height: int): (r: Option<nat>)
    ensures r.Some? ==> r.value < chainLen
    ensures chainLen > 0 ==> r.Some?
    ensures r.Some? && r.value != chainLen - 1 ==> r.value == height
  {
    if chainLen == 0 then None
    else if 0 <= height < chainLen - 1 then Some(height)
    else Some(chainLen - 1)
  }

  /** How many blocks back the window reaches from a block at height `top` > 0: a
      non-positive lookup means "since the last difficulty change", and no lookup reaches
      past the genesis block. */
  function NormaliseLookup(lookup: int, top: nat, interval: nat): (r: nat)
    requires top > 0 && interval > 0
    ensures 1 <= r <= top
    ensures 0 < lookup <= top ==> r == lookup
    ensures lookup > top ==> r == top
    ensures lookup <= 0 ==> r == if top % interval + 1 > top then top else top % interval + 1
  {
    var l := if lookup <= 0 then top % interval + 1 else lookup;
    if l > top then top else l
  }

  /** Since the last difficulty change: the window reaches back to the block just before
      the last height that is a multiple of the interval, or to the genesis block while the
      chain is shorter than one interval. */
  lemma SinceLastRetarget(top: nat, interval: nat)
    requires top > 0 && interval > 0
    ensures var bottom := top - NormaliseLookup(-1, top, interval);
            bottom == if top < interval then 0 else top - top % interval - 1
  {
  }

  /** The earliest of a run of block times, folded from the front as the walk back meets them. */
  function SeqMin(s: seq<int>): int
    requires |s| > 0
  {
    if |s| == 1 then s[0]
    else
      var m := SeqMin(s[1..]);
      if s[0] < m then s[0] else m
  }

  /** The latest of a run of block times. */
  function SeqMax(s: seq<int>): int
    requires |s| > 0
  {
    if |s| == 1 then s[0]
    else
      var m := SeqMax(s[1..]);
      if s[0] > m then s[0] else m
  }

  /** SeqMin and SeqMax bound every time in the run, and each is one of its times. */
  lemma {:induction false} SeqMinMax(s: seq<int>)
    requires |s| > 0
    ensures forall k :: 0 <= k < |s| ==> SeqMin(s) <= s[k] <= SeqMax(s)
    ensures exists k :: 0 <= k < |s| && s[k] == SeqMin(s)
    ensures exists k :: 0 <= k < |s| && s[k] == SeqMax(s)
  {
    if |s| > 1 {
      SeqMinMax(s[1..]);
      forall k | 1 <= k < |s|
        ensures SeqMin(s) <= s[k] <= SeqMax(s)
      {
        assert s[k] == s[1..][k - 1];
      }
      var a :| 0 <= a < |s[1..]| && s[1..][a] == SeqMin(s[1..]);
      var b :| 0 <= b < |s[1..]| && s[1..][b] == SeqMax(s[1..]);
      var i := if SeqMin(s) == s[0] then 0 else a + 1;
      assert s[i] == SeqMin(s);
      var j := if SeqMax(s) == s[0] then 0 else b + 1;
      assert s[j] == SeqMax(s);
    } else {
      assert s[0] == SeqMin(s) == SeqMax(s);
    }
  }

  /** The window's earliest and latest block time coincide exactly when all its blocks carry
      the same time, which is when the rate would divide by zero. */
  lemma FlatWindow(s: seq<int>)
    requires |s| > 0
    ensures SeqMin(s) == SeqMax(s) <==> forall k :: 0 <= k < |s| ==> s[k] == s[0]
  {
    SeqMinMax(s);
    if forall k :: 0 <= k < |s| ==> s[k] == s[0] {
      var a :| 0 <= a < |s| && s[a] == SeqMin(s);
      var b :| 0 <= b < |s| && s[b] == SeqMax(s);
    }
  }

  /** What the rate is computed from: the blocks at heights `bottom` and `top`, and the
      earliest and latest times of the blocks between them; NoRate where the RPC returns 0. */
  datatype RateWindow = NoRate | Window(bottom: nat, top: nat, minTime: int, maxTime: int)

  /** GetNetworkHashPS up to the division: `times[h]` is the time of the active chain's block
      at height h. The work difference and the division are not modelled. */
  function HashRateWindow(times: seq<int>, lookup: int, height: int, interval: nat): RateWindow
    requires interval > 0
  {
    match StartBlock(|times|, height)
    case None => NoRate
    case Some(top) =>
      if top == 0 then NoRate
      else
        var bottom := top - NormaliseLookup(lookup, top, interval);
        var minTime := SeqMin(times[bottom..top + 1]);
        var maxTime := SeqMax(times[bottom..top + 1]);
        if minTime == maxTime then NoRate else Window(bottom, top, minTime, maxTime)
  }

  /** The rate is 0 exactly when there is no block, the block is the genesis block, or all
      block times in the window coincide. */
  lemma RateWindowZero(times: seq<int>, lookup: int, height: int, interval: nat)
    requires interval > 0
    ensures HashRateWindow(times, lookup, height, interval).NoRate? <==>
            (|times| == 0 || StartBlock(|times|, height) == Some(0) ||
             (var top := StartBlock(|times|, height).value;
              var bottom := top - NormaliseLookup(lookup, top, interval);
              forall k :: bottom <= k <= top ==> times[k] == times[bottom]))
  {
    var start := StartBlock(|times|, height);
    if start.Some? && start.value > 0 {
      var top := start.value;
      var bottom := top - NormaliseLookup(lookup, top, interval);
      var s := times[bottom..top + 1];
      FlatWindow(s);
      assert forall k :: bottom <= k <= top ==> times[k] == s[k - bottom];
    }
  }

  /** A measured window runs from `bottom` below the start block up to it, and its bounds
      are the earliest and the latest block time in it, which differ. */
  lemma RateWindowBounds(times: seq<int>, lookup: int, height: int, interval: nat)
    requires interval > 0
    requires HashRateWindow(times, lookup, height, interval).Window?
    ensures var w := HashRateWindow(times, lookup, height, interval);
            Some(w.top) == StartBlock(|times|, height) && 0 <= w.bottom < w.top &&
            (forall k :: w.bottom <= k <= w.top ==> w.minTime <= times[k] <= w.maxTime) &&
            (exists k :: w.bottom <= k <= w.top && times[k] == w.minTime) &&
            (exists k :: w.bottom <= k <= w.top && times[k] == w.maxTime) &&
            w.minTime < w.maxTime
  {
    var w := HashRateWindow(times, lookup, height, interval);
    var s := times[w.bottom..w.top + 1];
    assert w.minTime == SeqMin(s) && w.maxTime == SeqMax(s);
    SeqMinMax(s);
    forall k | w.bottom <= k <= w.top
      ensures w.minTime <= times[k] <= w.maxTime
    {
      assert s[k - w.bottom] == times[k];
    }
    var a :| 0 <= a < |s| && s[a] == w.minTime;
    assert times[w.bottom + a] == w.minTime;
    var b :| 0 <= b < |s| && s[b] == w.maxTime;
    assert times[w.bottom + b] == w.maxTime;
  }

  /** The loop of GetNetworkHashPS: it walks `lookup` blocks back from the start block,
      keeping the earliest and latest time seen. */
  method NetworkHashWindow(times: seq<int>, lookup: int, height: int, interval: nat) returns (w: RateWindow)
    requires interval > 0
    ensures w == HashRateWindow(times, lookup, height, interval)
  {
    if |times| == 0 {
      return NoRate;
    }
    var top := |times| - 1;
    if 0 <= height < |times| - 1 {
      top := height;
    }
    assert StartBlock(|times|, height) == Some(top);
    if top == 0 {
      return NoRate;
    }
    var l := lookup;
    if l <= 0 {
      l := top % interval + 1;
    }
    if l > top {
      l := top;
    }
    assert l == NormaliseLookup(lookup, top, interval);
    var minTime, maxTime := ScanTimes(times, top - l, top);
    if minTime == maxTime {
      return NoRate;
    }
    w := Window(top - l, top, minTime, maxTime);
  }

  /** The earliest and latest time of the blocks from `top` back to `bottom`, one block at
      a time as the pprev walk visits them. */
  method ScanTimes(times: seq<int>, bottom: nat, top: nat) returns (minTime: int, maxTime: int)
    requires bottom <= top < |times|
    ensures minTime == SeqMin(times[bottom..top + 1])
    ensures maxTime == SeqMax(times[bottom..top + 1])
  {
    var pb0 := top;
    minTime := times[top];
    maxTime := minTime;
    assert times[top..top + 1] == [times[top]];
    while pb0 > bottom
      invariant bottom <= pb0 <= top
      invariant minTime == SeqMin(times[pb0..top + 1])
      invariant maxTime == SeqMax(times[pb0..top + 1])
    {
      WindowGrows(times, pb0 - 1, top);
      pb0 := pb0 - 1;
      var time := times[pb0];
      minTime := if time < minTime then time else minTime;
      maxTime := if time > maxTime then time else maxTime;
    }
  }

  /** Reaching one block further back folds that block's time into the minimum and maximum. */
  lemma WindowGrows(times: seq<int>, lo: nat, hi: nat)
    requires lo < hi < |times|
    ensures SeqMin(times[lo..hi + 1]) ==
            if times[lo] < SeqMin(times[lo + 1..hi + 1]) then times[lo] else SeqMin(times[lo + 1..hi + 1])
    ensures SeqMax(times[lo..hi + 1]) ==
            if times[lo] > SeqMax(times[lo + 1..hi + 1]) then times[lo] else SeqMax(times[lo + 1..hi + 1])
  {
    assert times[lo..hi + 1][1..] == times[lo + 1..hi + 1];
  }
}
