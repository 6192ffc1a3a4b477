/** The contract-built Merkle tree, its on-chain proof check, and the
    independent off-chain builder. Hashing is ideal: distinct preimages have
    distinct digests, and a leaf preimage (eight words) is never a node
    preimage (two words). */
module Merkle {
  import opened Common

  /** A 32-byte word: arbitrary, the digest of a byte string, the digest of a
      bound batch leaf, or the digest of two concatenated words. */
  datatype Hash =
    | Raw(word: nat)
    | Bytes(data: seq<Byte>)
    | LeafOf(batch: nat, did: Hash, nonce: nat, dataHash: Hash, sigHash: Hash)
    | Pair(left: Hash, right: Hash)

  // ---------- Specification ----------

  /** Neighbours are paired and an odd last node is paired with itself. */
  function Parent(xs: seq<Hash>, i: nat): Hash
    requires 2 * i < |xs|
  {
    Pair(xs[2 * i], if 2 * i + 1 < |xs| then xs[2 * i + 1] else xs[2 * i])
  }

  /** One level up. */
  function Level(xs: seq<Hash>): (ys: seq<Hash>)
    ensures |ys| == (|xs| + 1) / 2
  {
    seq((|xs| + 1) / 2, i requires 0 <= i < (|xs| + 1) / 2 => Parent(xs, i))
  }

  function Root(xs: seq<Hash>): Hash
    requires |xs| > 0
    decreases |xs|
  {
    if |xs| == 1 then xs[0] else Root(Level(xs))
  }

  function Depth(n: nat): nat
    requires n > 0
  {
    if n == 1 then 0 else 1 + Depth((n + 1) / 2)
  }

  /** The node paired with position `i`: the other neighbour, or itself at an odd end. */
  function Sibling(xs: seq<Hash>, i: nat): Hash
    requires i < |xs|
  {
    if i % 2 == 1 then xs[i - 1] else if i + 1 < |xs| then xs[i + 1] else xs[i]
  }

  /** The inclusion proof of position `i`. */
  function ProofOf(xs: seq<Hash>, i: nat): seq<Hash>
    requires i < |xs|
    decreases |xs|
  {
    if |xs| == 1 then [] else [Sibling(xs, i)] + ProofOf(Level(xs), i / 2)
  }

  /** One proof step: the low index bit decides on which side the proof node goes. */
  function Combine(h: Hash, p: Hash, index: nat): Hash {
    if index % 2 == 0 then Pair(h, p) else Pair(p, h)
  }

  /** What a proof of any length recomputes from a leaf. */
  function Fold(h: Hash, proof: seq<Hash>, index: nat): Hash
    decreases |proof|
  {
    if proof == [] then h else Fold(Combine(h, proof[0], index), proof[1..], index / 2)
  }

  // ---------- Soundness and completeness ----------

  /** Every path from `h` reaches a bound leaf after exactly `k` steps. */
  ghost predicate Perfect(h: Hash, k: nat) {
    if k == 0 then h.LeafOf? else h.Pair? && Perfect(h.left, k - 1) && Perfect(h.right, k - 1)
  }

  lemma {:induction false} RootPerfect(xs: seq<Hash>, k: nat)
    requires |xs| > 0 && forall x :: x in xs ==> Perfect(x, k)
    ensures Perfect(Root(xs), k + Depth(|xs|))
    decreases |xs|
  {
    if |xs| > 1 {
      RootPerfect(Level(xs), k + 1);
    }
  }

  lemma {:induction false} FoldPerfect(h: Hash, proof: seq<Hash>, index: nat, k: nat)
    requires Perfect(Fold(h, proof, index), k)
    ensures |proof| <= k && Perfect(h, k - |proof|)
    decreases |proof|
  {
    if proof != [] {
      FoldPerfect(Combine(h, proof[0], index), proof[1..], index / 2, k);
    }
  }

  lemma ParentInjective(xs: seq<Hash>, h: Hash, p: Hash, index: nat)
    requires index < |xs| && Combine(h, p, index) == Parent(xs, index / 2)
    ensures h == xs[index] && p == Sibling(xs, index)
  {
  }

  /** A proof of the right length that recomputes the root pins the node and the whole proof. */
  lemma {:induction false} FoldInjective(xs: seq<Hash>, h: Hash, proof: seq<Hash>, index: nat)
    requires index < |xs| && |proof| == Depth(|xs|)
    requires Fold(h, proof, index) == Root(xs)
    ensures h == xs[index] && proof == ProofOf(xs, index)
    decreases |xs|
  {
    if |xs| > 1 {
      FoldInjective(Level(xs), Combine(h, proof[0], index), proof[1..], index / 2);
      ParentInjective(xs, h, proof[0], index);
      assert proof == [proof[0]] + proof[1..];
    }
  }

  lemma {:induction false} ProofOfFolds(xs: seq<Hash>, index: nat)
    requires index < |xs|
    ensures |ProofOf(xs, index)| == Depth(|xs|)
    ensures Fold(xs[index], ProofOf(xs, index), index) == Root(xs)
    decreases |xs|
  {
    if |xs| > 1 {
      ProofOfFolds(Level(xs), index / 2);
      assert Combine(xs[index], Sibling(xs, index), index) == Level(xs)[index / 2];
      assert ProofOf(xs, index)[1..] == ProofOf(Level(xs), index / 2);
    }
  }

  /** Soundness and completeness together, for proofs of any length: a bound
      leaf is accepted at an index of the tree exactly when it is the leaf
      committed there and the proof is the one proof of that position. */
  lemma {:induction false} AcceptedIffCommitted(xs: seq<Hash>, leaf: Hash, proof: seq<Hash>, index: nat)
    requires index < |xs| && leaf.LeafOf?
    requires forall x :: x in xs ==> x.LeafOf?
    ensures Fold(leaf, proof, index) == Root(xs) <==> leaf == xs[index] && proof == ProofOf(xs, index)
    ensures |ProofOf(xs, index)| == Depth(|xs|)
  {
    ProofOfFolds(xs, index);
    if Fold(leaf, proof, index) == Root(xs) {
      RootPerfect(xs, 0);
      FoldPerfect(leaf, proof, index, Depth(|xs|));
      FoldInjective(xs, leaf, proof, index);
    }
  }

  /** The root commits to the whole list: two lists of one length with one root are equal. */
  lemma {:induction false} RootInjective(xs: seq<Hash>, ys: seq<Hash>)
    requires |xs| == |ys| > 0 && Root(xs) == Root(ys)
    ensures xs == ys
  {
    forall i | 0 <= i < |xs| ensures xs[i] == ys[i] {
      ProofOfFolds(xs, i);
      FoldInjective(ys, xs[i], ProofOf(xs, i), i);
    }
  }

  // ---------- The code ----------

  /** The contract's builder: each level overwrites the front of the same array. */
  method BuildTree(leaves: array<Hash>) returns (root: Hash)
    requires leaves.Length > 0
    modifies leaves
    ensures root == Root(old(leaves[..]))
  {
    var n := leaves.Length;
    if n == 1 {
      return leaves[0];
    }
    assert leaves[..n] == leaves[..];
    while n > 1
      invariant 1 <= n <= leaves.Length
      invariant Root(leaves[..n]) == Root(old(leaves[..]))
    {
      ghost var level := leaves[..n];
      var m := (n + 1) / 2;
      var i := 0;
      while i < m
        invariant 0 <= i <= m
        invariant forall j :: 0 <= j < i ==> leaves[j] == Parent(level, j)
        invariant forall j :: 2 * i <= j < n ==> leaves[j] == level[j]
      {
        var left := leaves[2 * i];
        var right := if 2 * i + 1 < n then leaves[2 * i + 1] else leaves[2 * i];
        leaves[i] := Pair(left, right);
        i := i + 1;
      }
      assert leaves[..m] == Level(level);
      n := m;
    }
    assert leaves[..1] == [leaves[0]];
    return leaves[0];
  }

  /** The contract's index-driven proof check. */
  method VerifyProof(leaf: Hash, proof: seq<Hash>, index: nat, root: Hash) returns (ok: bool)
    ensures ok <==> Fold(leaf, proof, index) == root
  {
    var h, idx := leaf, index;
    for i := 0 to |proof|
      invariant Fold(h, proof[i..], idx) == Fold(leaf, proof, index)
    {
      var p := proof[i];
      if idx % 2 == 0 {
        h := Pair(h, p);
      } else {
        h := Pair(p, h);
      }
      idx := idx / 2;
    }
    return h == root;
  }

  /** A partial proof of leaf `i`, now at position `pos` of `level`, lacks just the proof of `pos`. */
  ghost predicate Carries(leaves: seq<Hash>, i: nat, level: seq<Hash>, proof: seq<Hash>, pos: nat) {
    i < |leaves| && pos < |level| && proof + ProofOf(level, pos) == ProofOf(leaves, i)
  }

  lemma CarriesUp(leaves: seq<Hash>, i: nat, level: seq<Hash>, proof: seq<Hash>, pos: nat)
    requires Carries(leaves, i, level, proof, pos) && |level| > 1
    ensures pos < |level| && Carries(leaves, i, Level(level), proof + [Sibling(level, pos)], pos / 2)
  {
    var rest := ProofOf(Level(level), pos / 2);
    assert proof + ([Sibling(level, pos)] + rest) == (proof + [Sibling(level, pos)]) + rest;
  }

  lemma CarriesAll(leaves: seq<Hash>, i: nat, level: seq<Hash>, proof: seq<Hash>, pos: nat)
    requires Carries(leaves, i, level, proof, pos) && |level| == 1
    ensures proof == ProofOf(leaves, i)
  {
    assert proof + [] == proof;
  }

  /** The off-chain builder's inner loop: the next level, pushed node by node. */
  method NextLevel(level: seq<Hash>) returns (nextLevel: seq<Hash>)
    ensures nextLevel == Level(level)
  {
    nextLevel := [];
    for i := 0 to (|level| + 1) / 2
      invariant nextLevel == Level(level)[..i]
    {
      var left := level[2 * i];
      var right := if 2 * i + 1 < |level| then level[2 * i + 1] else left;
      nextLevel := nextLevel + [Pair(left, right)];
    }
  }

  /** The off-chain builder's other inner loop: every proof gains the sibling
      at its position and every position moves up, in place. */
  method PushSiblings(ghost leaves: seq<Hash>, level: seq<Hash>, was: seq<seq<Hash>>, positions: array<nat>)
    returns (proofs: seq<seq<Hash>>)
    requires |level| > 1 && |was| == |leaves| == positions.Length
    requires forall i :: 0 <= i < |leaves| ==> Carries(leaves, i, level, was[i], positions[i])
    modifies positions
    ensures |proofs| == |leaves|
    ensures forall i :: 0 <= i < |leaves| ==> Carries(leaves, i, Level(level), proofs[i], positions[i])
  {
    hide Carries, ProofOf;
    proofs := was;
    for i := 0 to positions.Length
      invariant |proofs| == |leaves|
      invariant forall j :: 0 <= j < i ==> Carries(leaves, j, Level(level), proofs[j], positions[j])
      invariant forall j :: i <= j < |leaves| ==> proofs[j] == was[j] && positions[j] == old(positions[j])
    {
      var pos := positions[i];
      CarriesUp(leaves, i, level, proofs[i], pos);
      var sibling := if pos % 2 == 0 then (if pos + 1 < |level| then pos + 1 else pos) else pos - 1;
      proofs := proofs[i := proofs[i] + [level[sibling]]];
      positions[i] := pos / 2;
    }
  }

  /** The off-chain builder. It shares no code with the contract, yet it
      computes the same root for every non-empty list (an empty list has no
      root), and its proof for every position is the proof of that position. */
  method BuildTreeWithProofs(leaves: seq<Hash>) returns (root: Option<Hash>, proofs: seq<seq<Hash>>)
    ensures root == if |leaves| == 0 then None else Some(Root(leaves))
    ensures |proofs| == |leaves|
    ensures forall i :: 0 <= i < |leaves| ==> proofs[i] == ProofOf(leaves, i)
  {
    var level := leaves;
    proofs := seq(|leaves|, _ => []);
    var positions := new nat[|leaves|](i => i);
    forall i | 0 <= i < |leaves| ensures Carries(leaves, i, leaves, proofs[i], positions[i]) {
      assert [] + ProofOf(leaves, i) == ProofOf(leaves, i);
    }
    hide Carries, ProofOf;
    while |level| > 1
      invariant |level| > 0 <==> |leaves| > 0
      invariant |leaves| > 0 ==> Root(level) == Root(leaves)
      invariant |proofs| == |leaves| == positions.Length
      invariant forall i :: 0 <= i < |leaves| ==> Carries(leaves, i, level, proofs[i], positions[i])
      decreases |level|
    {
      var nextLevel := NextLevel(level);
      proofs := PushSiblings(leaves, level, proofs, positions);
      level := nextLevel;
    }
    forall i | 0 <= i < |leaves| ensures proofs[i] == ProofOf(leaves, i) {
      CarriesAll(leaves, i, level, proofs[i], positions[i]);
    }
    root := if |level| == 0 then None else Some(level[0]);
  }
}
