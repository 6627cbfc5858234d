/** Scripts as the sequence of operations CellScript::GetOp walks through, the script-number
    reading used for the height field, and the branch-chain script-shape parsers of
    src/chain/branchchain.cpp. */
module Scripts {
  import opened Wrappers
  import opened Hex

  /** The non-push opcodes the branch-chain rules look at; every other one is `OpOther`. */
  datatype Opcode =
    | OpReturn | OpDup | OpHash160 | Op2Drop
    | OpCreateBranch | OpTransBranch | OpMineBranchMortgage | OpMineBranchCoin
    | OpRedeemMortgage | OpContract | OpContractChange
    | OpInvalidOpcode
    | OpOther(code: nat)

  /** One operation as GetOp returns it: a data push (OP_0 pushes nothing), a small-integer
      opcode OP_1NEGATE/OP_1..OP_16, or any other opcode. */
  datatype Op = Push(data: seq<byte>) | SmallInt(n: int) | Code(opcode: Opcode)

  /** A script is the list of operations GetOp yields; GetOp fails once the list is used up. */
  type Script = seq<Op>

  /** What GetOp leaves in `opcode` at position i: the op itself, or OP_INVALIDOPCODE when it
      failed (GetOp sets the opcode to OP_INVALIDOPCODE before looking for the next op). */
  function OpAt(s: Script, i: nat): (op: Op)
    ensures i < |s| ==> op == s[i]
    ensures i >= |s| ==> op == Code(OpInvalidOpcode)
  {
    if i < |s| then s[i] else Code(OpInvalidOpcode)
  }

  /** What GetOp leaves in `vch` at position i: the pushed bytes, empty for any other op and
      when it failed. */
  function DataAt(s: Script, i: nat): (vch: seq<byte>)
    ensures vch != [] ==> i < |s| && s[i].Push?
  {
    if i < |s| && s[i].Push? then s[i].data else []
  }

  function HasOpcode(s: Script, i: nat, code: Opcode): bool
  {
    OpAt(s, i) == Code(code)
  }

  // ---- script numbers (CScriptNum), read by GetScriptInt64 for the height field ----

  /** Unsigned little-endian value of a byte string. */
  function LittleEndian(d: seq<byte>): (v: nat)
  {
    if d == [] then 0 else d[0] as nat + 256 * LittleEndian(d[1..])
  }

  /** The value of digit `x` at byte position `k`: `x` times 256 to the `k`. */
  function Place(x: int, k: nat): int
  {
    if k == 0 then x else 256 * Place(x, k - 1)
  }

  const MaxScriptNumSize: nat := 8

  /** Sign-magnitude little-endian decoding: the top bit of the last byte is the sign. */
  function DecodeScriptNum(d: seq<byte>): (v: int)
  {
    if d == [] then 0
    else
      var last := d[|d| - 1] as int;
      var body := LittleEndian(d[..|d| - 1]);
      if last >= 128 then -(body + Place(last - 128, |d| - 1))
      else body + Place(last, |d| - 1)
  }

  /** GetScriptInt64(opcode, vch): OP_1NEGATE/OP_1..OP_16 give their number, a push of at most
      eight bytes is decoded; anything else is the scriptnum_error the parsers catch. */
  function ScriptInt(op: Op): (r: Option<int>)
    ensures op.SmallInt? ==> r == Some(op.n)
    ensures op.Code? ==> r == None
    ensures op.Push? ==> (r.Some? <==> |op.data| <= MaxScriptNumSize)
  {
    match op
    case SmallInt(n) => Some(n)
    case Push(d) => if |d| <= MaxScriptNumSize then Some(DecodeScriptNum(d)) else None
    case Code(_) => None
  }

  /** Minimal little-endian bytes of a magnitude (CScriptNum::serialize before the sign). */
  function MagnitudeBytes(m: nat): (d: seq<byte>)
    ensures m == 0 <==> d == []
    ensures d != [] ==> d[|d| - 1] != 0
    decreases m
  {
    if m == 0 then [] else [(m % 256) as byte] + MagnitudeBytes(m / 256)
  }

  /** CScriptNum::serialize: magnitude bytes, with the sign in the top bit of the last byte
      (an extra byte is added when that bit is already taken). */
  function EncodeScriptNum(n: int): (d: seq<byte>)
    ensures n == 0 <==> d == []
  {
    var m: nat := if n < 0 then -n else n;
    var b := MagnitudeBytes(m);
    if b == [] then []
    else if b[|b| - 1] as int >= 128 then b + [if n < 0 then 128 as byte else 0 as byte]
    else if n < 0 then b[..|b| - 1] + [(b[|b| - 1] as int + 128) as byte]
    else b
  }

  lemma {:induction false} MagnitudeValue(m: nat)
    ensures LittleEndian(MagnitudeBytes(m)) == m
    decreases m
  {
    if m != 0 {
      MagnitudeValue(m / 256);
      assert MagnitudeBytes(m)[1..] == MagnitudeBytes(m / 256);
    }
  }

  /** Appending a byte adds it at the next power of 256. */
  lemma {:induction false} LittleEndianSnoc(d: seq<byte>, b: byte)
    ensures LittleEndian(d + [b]) == LittleEndian(d) + Place(b as int, |d|)
    decreases |d|
  {
    if d == [] {
      assert ([b])[1..] == [];
    } else {
      assert (d + [b])[1..] == d[1..] + [b];
      LittleEndianSnoc(d[1..], b);
      assert Place(b as int, |d|) == 256 * Place(b as int, |d| - 1);
    }
  }

  /** Decoding a push whose last byte is `x`: the earlier bytes are the low part. */
  lemma DecodeLast(init: seq<byte>, x: byte)
    ensures DecodeScriptNum(init + [x]) ==
              if x as int >= 128 then -(LittleEndian(init) + Place(x as int - 128, |init|))
              else LittleEndian(init) + Place(x as int, |init|)
  {
    var d := init + [x];
    assert |d| - 1 == |init| && d[|d| - 1] == x;
    assert d[..|d| - 1] == init;
  }

  /** A push written by CScriptNum::serialize decodes back to the number. */
  lemma ScriptNumRoundTrip(n: int)
    ensures DecodeScriptNum(EncodeScriptNum(n)) == n
  {
    var m: nat := if n < 0 then -n else n;
    var b := MagnitudeBytes(m);
    MagnitudeValue(m);
    if b != [] {
      var d := EncodeScriptNum(n);
      var k := |b| - 1;
      var last := b[k];
      if last as int >= 128 {
        var sign: byte := if n < 0 then 128 as byte else 0 as byte;
        assert d == b + [sign];
        SignByteDecode(b, sign);
      } else {
        var init := b[..k];
        SplitLast(b);
        if n < 0 {
          var top: byte := (last as int + 128) as byte;
          assert d == init + [top];
          SignedTopDecode(init, last, top);
        } else {
          assert d == init + [last];
          DecodeLast(init, last);
        }
      }
    }
  }

  /** The last byte of a non-empty string is its top digit. */
  lemma SplitLast(b: seq<byte>)
    requires b != []
    ensures LittleEndian(b) == LittleEndian(b[..|b| - 1]) + Place(b[|b| - 1] as int, |b| - 1)
  {
    var k := |b| - 1;
    assert b == b[..k] + [b[k]];
    LittleEndianSnoc(b[..k], b[k]);
  }

  /** A separate sign byte (0 or 0x80) after the magnitude. */
  lemma SignByteDecode(b: seq<byte>, sign: byte)
    requires sign == 0 || sign == 128
    ensures DecodeScriptNum(b + [sign]) == if sign == 128 then -(LittleEndian(b) as int) else LittleEndian(b)
  {
    DecodeLast(b, sign);
  }

  /** The sign set in the top bit of a last byte below 0x80. */
  lemma SignedTopDecode(init: seq<byte>, last: byte, top: byte)
    requires top as int == last as int + 128
    ensures DecodeScriptNum(init + [top]) == -(LittleEndian(init) + Place(last as int, |init|))
  {
    DecodeLast(init, top);
    assert Place(top as int - 128, |init|) == Place(last as int, |init|);
  }

  // ---- branch-chain script shapes ----

  /** branch_script_type of branchchain.h. */
  datatype BranchScriptType = BstInvalid | BstMortgageMine | BstMortgageCoin

  /** QuickGetBranchScriptType: classify a script by its first opcode alone. */
  function QuickGetBranchScriptType(s: Script): (t: BranchScriptType)
    ensures t == BstMortgageMine <==> |s| > 0 && s[0] == Code(OpMineBranchMortgage)
    ensures t == BstMortgageCoin <==> |s| > 0 && s[0] == Code(OpMineBranchCoin)
  {
    if |s| == 0 then BstInvalid
    else if s[0] == Code(OpMineBranchMortgage) then BstMortgageMine
    else if s[0] == Code(OpMineBranchCoin) then BstMortgageCoin
    else BstInvalid
  }

  /** The data a mortgage script carries: the 32-byte hash after the leading opcode (branch id
      for a mine-mortgage script, source txid for a mine-coin script), the height when it was
      asked for, and the key id pushed last. */
  datatype MortgageData = MortgageData(hash: seq<byte>, height: Option<int>, keyId: seq<byte>)

  /** The layout both mortgage parsers accept: `lead <32-byte push> <height> <3 ops> <keyid>`.
      The three middle opcodes (meant to be OP_2DROP OP_DUP OP_HASH160) are never compared:
      in `!GetOp(..) && opcode != OP_2DROP || ...` a successful GetOp makes each conjunct false,
      so only their presence is required. */
  predicate MortgageLayout(s: Script, lead: Opcode, wantHeight: bool)
  {
    && |s| >= 7
    && s[0] == Code(lead)
    && |DataAt(s, 1)| == 32
    && (wantHeight ==> ScriptInt(s[2]).Some?)
  }

  /** Shared body of GetMortgageMineData and GetMortgageCoinData: the straight-line GetOp reads. */
  function ParseMortgage(s: Script, lead: Opcode, wantHeight: bool): (r: Option<MortgageData>)
    ensures r.Some? <==> MortgageLayout(s, lead, wantHeight)
    ensures r.Some? ==> r.value.hash == s[1].data && |r.value.hash| == 32
    ensures r.Some? ==> r.value.keyId == DataAt(s, 6)
    ensures r.Some? && wantHeight ==> r.value.height == ScriptInt(s[2])
    ensures r.Some? && !wantHeight ==> r.value.height == None
  {
    if !HasOpcode(s, 0, lead) || |s| < 1 then None
    else if |s| < 2 || |DataAt(s, 1)| != 32 then None
    else if |s| < 3 then None
    else if wantHeight && ScriptInt(s[2]).None? then None
    // `!GetOp(..) && opcode != OP_2DROP || !GetOp(..) && opcode != OP_DUP || ...` as written:
    // GetOp at position i succeeds iff i < |s|, and a failed GetOp leaves OP_INVALIDOPCODE
    else if (!(3 < |s|) && OpAt(s, 3) != Code(Op2Drop))
         || (!(4 < |s|) && OpAt(s, 4) != Code(OpDup))
         || (!(5 < |s|) && OpAt(s, 5) != Code(OpHash160)) then None
    else if |s| < 7 then None
      else Some(MortgageData(DataAt(s, 1), if wantHeight then ScriptInt(s[2]) else None, DataAt(s, 6)))
  }

  /** GetMortgageMineData: a script led by OP_MINE_BRANCH_MORTGAGE. */
  function GetMortgageMineData(s: Script, wantHeight: bool): (r: Option<MortgageData>)
    ensures r.Some? <==> MortgageLayout(s, OpMineBranchMortgage, wantHeight)
    ensures r.Some? ==> |r.value.hash| == 32 && r.value.keyId == DataAt(s, 6)
    ensures r.Some? && wantHeight ==> r.value.height == ScriptInt(s[2])
  {
    ParseMortgage(s, OpMineBranchMortgage, wantHeight)
  }

  /** GetMortgageCoinData: a script led by OP_MINE_BRANCH_COIN. */
  function GetMortgageCoinData(s: Script, wantHeight: bool): (r: Option<MortgageData>)
    ensures r.Some? <==> MortgageLayout(s, OpMineBranchCoin, wantHeight)
    ensures r.Some? ==> |r.value.hash| == 32 && r.value.keyId == DataAt(s, 6)
    ensures r.Some? && wantHeight ==> r.value.height == ScriptInt(s[2])
  {
    ParseMortgage(s, OpMineBranchCoin, wantHeight)
  }

  /** GetRedeemSriptData: `OP_RETURN OP_REDEEM_MORTGAGE <32-byte txid>`; anything may follow. */
  function GetRedeemScriptData(s: Script): (r: Option<seq<byte>>)
    ensures r.Some? <==> |s| >= 3 && s[0] == Code(OpReturn) && s[1] == Code(OpRedeemMortgage)
                         && s[2].Push? && |s[2].data| == 32
    ensures r.Some? ==> r.value == s[2].data
  {
    if !HasOpcode(s, 0, OpReturn) || |s| < 1 then None
    else if !HasOpcode(s, 1, OpRedeemMortgage) || |s| < 2 then None
    else if |s| < 3 || |DataAt(s, 2)| != 32 then None
    else Some(DataAt(s, 2))
  }

  /** The canonical mortgage script `lead <hash> <height> OP_2DROP OP_DUP OP_HASH160 <keyid>`. */
  function MortgageScript(lead: Opcode, hash: seq<byte>, height: int, keyId: seq<byte>): Script
  {
    [Code(lead), Push(hash), Push(EncodeScriptNum(height)), Code(Op2Drop), Code(OpDup), Code(OpHash160), Push(keyId)]
  }

  /** Parsing a canonical mortgage script gives back what was put in (heights that fit in
      eight bytes). */
  lemma MortgageRoundTrip(lead: Opcode, hash: seq<byte>, height: int, keyId: seq<byte>)
    requires |hash| == 32
    requires |EncodeScriptNum(height)| <= MaxScriptNumSize
    ensures ParseMortgage(MortgageScript(lead, hash, height, keyId), lead, true)
         == Some(MortgageData(hash, Some(height), keyId))
  {
    ScriptNumRoundTrip(height);
  }

  /** The quirk made concrete: any three opcodes in the middle are accepted. */
  lemma MiddleOpcodesIgnored(lead: Opcode, hash: seq<byte>, h: Op, a: Op, b: Op, c: Op, key: Op)
    requires |hash| == 32
    ensures ParseMortgage([Code(lead), Push(hash), h, a, b, c, key], lead, false).Some?
  {
  }

  /** A script that is a prefix of a longer one parses the same way when it parses at all:
      the parser never looks past the seventh op. */
  lemma {:induction false} ParseIgnoresTail(s: Script, tail: Script, lead: Opcode, wantHeight: bool)
    requires ParseMortgage(s, lead, wantHeight).Some?
    ensures ParseMortgage(s + tail, lead, wantHeight) == ParseMortgage(s, lead, wantHeight)
  {
    assert forall i :: 0 <= i < |s| ==> (s + tail)[i] == s[i];
    assert DataAt(s + tail, 1) == DataAt(s, 1);
    assert DataAt(s + tail, 6) == DataAt(s, 6);
  }

  /** Both mortgage parsers and the script classifier agree on the leading opcode. */
  lemma ParsersAgreeWithScriptType(s: Script)
    ensures GetMortgageMineData(s, false).Some? ==> QuickGetBranchScriptType(s) == BstMortgageMine
    ensures GetMortgageCoinData(s, false).Some? ==> QuickGetBranchScriptType(s) == BstMortgageCoin
    ensures !(GetMortgageMineData(s, false).Some? && GetMortgageCoinData(s, false).Some?)
  {
  }
}
