/** SPV proofs between chains (src/chain/branchchain.cpp): NewSpvProof records the
    transaction hashes of a block and flags the ones to prove; CheckSpvProof accepts a proof
    for one queried transaction and yields its position in the block. */
module Spv {
  import opened Scripts
  import opened Transactions

  /** NewSpvProof: one hash and one match flag per transaction of the block, the flag set
      exactly for the hashes in txids, stamped with the block's hash. */
  method NewSpvProof(env: Env, vtx: seq<Tx>, blockHash: Hash, txids: set<Hash>) returns (proof: SpvProof)
    ensures |proof.pmt.hashes| == |proof.pmt.matches| == |vtx|
    ensures forall i :: 0 <= i < |vtx| ==> proof.pmt.hashes[i] == env.hash(vtx[i])
    ensures forall i :: 0 <= i < |vtx| ==> (proof.pmt.matches[i] <==> env.hash(vtx[i]) in txids)
    ensures proof.blockhash == blockHash
  {
    var matches: seq<bool> := [];
    var hashes: seq<Hash> := [];
    for i := 0 to |vtx|
      invariant |hashes| == |matches| == i
      invariant forall k :: 0 <= k < i ==> hashes[k] == env.hash(vtx[k])
      invariant forall k :: 0 <= k < i ==> (matches[k] <==> env.hash(vtx[k]) in txids)
    {
      var hash := env.hash(vtx[i]);
      if hash in txids {
        matches := matches + [true];
      } else {
        matches := matches + [false];
      }
      hashes := hashes + [hash];
    }
    proof := SpvProof(Pmt(hashes, matches), blockHash);
  }

  /** vMatch: the matched hashes of an extraction, in order. */
  function MatchedHashes(ms: seq<(Hash, nat)>): (r: seq<Hash>)
    ensures |r| == |ms| && forall k :: 0 <= k < |ms| ==> r[k] == ms[k].0
  {
    if ms == [] then [] else MatchedHashes(ms[..|ms| - 1]) + [ms[|ms| - 1].0]
  }

  /** CheckSpvProof: -1 when the recomputed root is not merkleRoot, the queried hash is not
      among the matches, or more than one leaf matched; otherwise the queried leaf's index. */
  function CheckSpvProof(env: Env, merkleRoot: Hash, pmt: Pmt, queryTxHash: Hash): (r: int)
    ensures r >= -1
  {
    var e := env.extract(pmt);
    if e.root != merkleRoot then -1
    else if queryTxHash !in MatchedHashes(e.matches) then -1
    else if |e.matches| > 1 then -1
    else e.matches[0].1
  }

  /** A proof is accepted exactly when the root agrees and the query was the one and only
      match, and then the answer is that match's position. */
  lemma CheckSpvProofAccepts(env: Env, merkleRoot: Hash, pmt: Pmt, queryTxHash: Hash)
    ensures var e := env.extract(pmt);
      (CheckSpvProof(env, merkleRoot, pmt, queryTxHash) >= 0 <==>
         e.root == merkleRoot && |e.matches| == 1 && e.matches[0].0 == queryTxHash)
    ensures var e := env.extract(pmt);
      (CheckSpvProof(env, merkleRoot, pmt, queryTxHash) >= 0 ==>
         e.matches == [(queryTxHash, CheckSpvProof(env, merkleRoot, pmt, queryTxHash))])
  {
    var e := env.extract(pmt);
    if e.root == merkleRoot && |e.matches| == 1 && e.matches[0].0 == queryTxHash {
      assert MatchedHashes(e.matches)[0] == queryTxHash;
    }
    if CheckSpvProof(env, merkleRoot, pmt, queryTxHash) >= 0 {
      assert e.matches == [e.matches[0]];
    }
  }

  // ---- what a faithful ExtractMatches returns for a proof built by NewSpvProof ----

  /** The flagged leaves with their positions in leaf order, from position `from` on. */
  function MatchesFrom(p: Pmt, from: nat): (r: seq<(Hash, nat)>)
    requires |p.hashes| == |p.matches| && from <= |p.hashes|
    ensures forall k :: 0 <= k < |r| ==> from <= r[k].1 < |p.hashes| && p.matches[r[k].1] && r[k].0 == p.hashes[r[k].1]
    decreases |p.hashes| - from
  {
    if from == |p.hashes| then []
    else
      var rest := MatchesFrom(p, from + 1);
      if p.matches[from] then [(p.hashes[from], from)] + rest else rest
  }

  /** A partial Merkle tree that flags exactly one leaf yields that leaf alone. */
  lemma {:induction false} SingleMatch(p: Pmt, from: nat, k: nat)
    requires |p.hashes| == |p.matches| && from <= k < |p.hashes|
    requires forall i :: from <= i < |p.hashes| ==> (p.matches[i] <==> i == k)
    ensures MatchesFrom(p, from) == [(p.hashes[k], k)]
    decreases |p.hashes| - from
  {
    if from < k {
      SingleMatch(p, from + 1, k);
    } else {
      NoMatch(p, from + 1);
      assert MatchesFrom(p, from) == [(p.hashes[k], k)] + [];
    }
  }

  lemma {:induction false} NoMatch(p: Pmt, from: nat)
    requires |p.hashes| == |p.matches| && from <= |p.hashes|
    requires forall i :: from <= i < |p.hashes| ==> !p.matches[i]
    ensures MatchesFrom(p, from) == []
    decreases |p.hashes| - from
  {
    if from < |p.hashes| {
      NoMatch(p, from + 1);
    }
  }

  /** Round trip: when the transactions of a block have distinct hashes and NewSpvProof flags
      one of them, an ExtractMatches that reports the flagged leaves and the block's root
      makes CheckSpvProof return that transaction's position. */
  lemma SpvRoundTrip(env: Env, vtx: seq<Tx>, proof: SpvProof, root: Hash, k: nat)
    requires k < |vtx|
    requires forall i, j :: 0 <= i < j < |vtx| ==> env.hash(vtx[i]) != env.hash(vtx[j])
    requires |proof.pmt.hashes| == |proof.pmt.matches| == |vtx|
    requires forall i :: 0 <= i < |vtx| ==> proof.pmt.hashes[i] == env.hash(vtx[i])
    requires forall i :: 0 <= i < |vtx| ==> (proof.pmt.matches[i] <==> env.hash(vtx[i]) in {env.hash(vtx[k])})
    requires env.extract(proof.pmt) == Extraction(root, MatchesFrom(proof.pmt, 0))
    ensures CheckSpvProof(env, root, proof.pmt, env.hash(vtx[k])) == k
  {
    forall i | 0 <= i < |vtx|
      ensures proof.pmt.matches[i] <==> i == k
    {
      if i != k {
        if i < k {
          assert env.hash(vtx[i]) != env.hash(vtx[k]);
        } else {
          assert env.hash(vtx[k]) != env.hash(vtx[i]);
        }
      }
    }
    SingleMatch(proof.pmt, 0, k);
    assert MatchedHashes([(env.hash(vtx[k]), k)])[0] == env.hash(vtx[k]);
  }
}
