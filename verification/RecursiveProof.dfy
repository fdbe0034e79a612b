/**
 Recursive proof composition: a Merkle root computed level by level, and an
 optimisation that replaces pairs of nodes by their parent. The hash of two
 hashes is any function `h`.
 */
module RecursiveProof {
  import opened Host

  datatype Hash = Hash(digest: nat)

  type Compose = (Hash, Hash) -> Hash

  datatype ProofNode = ProofNode(tipId: nat, creator: Address, amount: int, hash: Hash)

  // ------------------------------------------------------------------------ levels

  /** One level up: neighbours are hashed together, an odd last one is carried over. */
  function Level(h: Compose, xs: seq<Hash>): (ys: seq<Hash>)
    ensures |ys| == (|xs| + 1) / 2
  {
    if |xs| < 2 then xs else [h(xs[0], xs[1])] + Level(h, xs[2..])
  }

  /** Levels are built until one hash is left. */
  function Root(h: Compose, xs: seq<Hash>): Hash
    requires xs != []
    decreases |xs|
  {
    if |xs| == 1 then xs[0] else Root(h, Level(h, xs))
  }

  function Hashes(nodes: seq<ProofNode>): (xs: seq<Hash>)
    ensures |xs| == |nodes| && forall i :: 0 <= i < |xs| ==> xs[i] == nodes[i].hash
  {
    if nodes == [] then [] else [nodes[0].hash] + Hashes(nodes[1..])
  }

  predicate Verifies(h: Compose, nodes: seq<ProofNode>, root: Hash) {
    nodes != [] && Root(h, Hashes(nodes)) == root
  }

  method NextLevel(h: Compose, current: seq<Hash>) returns (next: seq<Hash>)
    ensures next == Level(h, current)
  {
    next := [];
    var i := 0;
    while i < |current|
      invariant 0 <= i <= |current|
      invariant next + Level(h, current[i..]) == Level(h, current)
    {
      if i + 1 < |current| {
        assert current[i..][2..] == current[i + 2..];
        next := next + [h(current[i], current[i + 1])];
        i := i + 2;
      } else {
        assert current[i..] == [current[i]];
        next := next + [current[i]];
        i := i + 1;
      }
    }
  }

  method VerifyProofChain(h: Compose, nodes: seq<ProofNode>, expected: Hash) returns (ok: bool)
    ensures ok <==> Verifies(h, nodes, expected)
  {
    if nodes == [] {
      return false;
    }
    if |nodes| == 1 {
      return nodes[0].hash == expected;
    }
    var current: seq<Hash> := [];
    for i := 0 to |nodes|
      invariant |current| == i && forall k :: 0 <= k < i ==> current[k] == nodes[k].hash
    {
      current := current + [nodes[i].hash];
    }
    assert current == Hashes(nodes);
    while |current| > 1
      invariant current != [] && Root(h, current) == Root(h, Hashes(nodes))
      decreases |current|
    {
      current := NextLevel(h, current);
    }
    return current[0] == expected;
  }

  // ------------------------------------------------------- the tree behind the levels

  /** Powers of two. */
  predicate PowerOfTwo(p: nat) {
    p == 1 || (p > 1 && p % 2 == 0 && PowerOfTwo(p / 2))
  }

  /** The largest power of two below `n`. */
  function SplitPoint(n: nat): (p: nat)
    requires n > 1
    ensures PowerOfTwo(p) && p < n <= 2 * p
  {
    if n == 2 then 1 else 2 * SplitPoint((n + 1) / 2)
  }

  lemma {:induction false} SplitPointUnique(p: nat, q: nat, n: nat)
    requires PowerOfTwo(p) && PowerOfTwo(q) && p < n <= 2 * p && q < n <= 2 * q
    ensures p == q
    decreases p
  {
    if p > 1 && q > 1 {
      SplitPointUnique(p / 2, q / 2, (n + 1) / 2);
    }
  }

  /** The Merkle tree hash of section 2.1 of RFC 6962: split at the largest power of two, hash the two halves' roots. */
  ghost function TreeHash(h: Compose, xs: seq<Hash>): Hash
    requires xs != []
    decreases |xs|
  {
    if |xs| == 1 then xs[0] else
      var p := SplitPoint(|xs|);
      h(TreeHash(h, xs[..p]), TreeHash(h, xs[p..]))
  }

  lemma PrependPair(x: seq<Hash>, a: seq<Hash>, b: seq<Hash>)
    ensures x + (a + b) == (x + a) + b
  {
  }

  /** A level can be built in two parts when the first has even length. */
  lemma {:induction false} LevelSplits(h: Compose, xs: seq<Hash>, p: nat)
    requires p % 2 == 0 && p <= |xs|
    ensures Level(h, xs) == Level(h, xs[..p]) + Level(h, xs[p..])
    decreases p
  {
    if p == 0 {
      assert xs[0..] == xs && xs[..0] == [];
    } else {
      var rest, front, back := xs[2..], xs[..p], xs[p..];
      assert front[2..] == rest[..p - 2] && back == rest[p - 2..];
      LevelSplits(h, rest, p - 2);
      PrependPair([h(xs[0], xs[1])], Level(h, rest[..p - 2]), Level(h, back));
    }
  }

  /** Going one level up does not change the tree hash. */
  lemma {:induction false} LevelKeepsTreeHash(h: Compose, xs: seq<Hash>)
    requires xs != []
    ensures Level(h, xs) != [] && TreeHash(h, Level(h, xs)) == TreeHash(h, xs)
    decreases |xs|
  {
    if |xs| == 2 {
      assert xs[2..] == [] && xs[..1] == [xs[0]] && xs[1..] == [xs[1]];
      assert TreeHash(h, xs) == h(xs[0], xs[1]);
      assert Level(h, xs) == [h(xs[0], xs[1])];
    } else if |xs| > 2 {
      var p := SplitPoint(|xs|);
      var ys := Level(h, xs);
      assert p == 2 * SplitPoint(|ys|);
      LevelSplits(h, xs, p);
      assert ys[..p / 2] == Level(h, xs[..p]) && ys[p / 2..] == Level(h, xs[p..]);
      LevelKeepsTreeHash(h, xs[..p]);
      LevelKeepsTreeHash(h, xs[p..]);
    }
  }

  /** Folding level by level computes the recursive tree hash, for any number of nodes. */
  lemma {:induction false} RootIsTreeHash(h: Compose, xs: seq<Hash>)
    requires xs != []
    ensures Root(h, xs) == TreeHash(h, xs)
    decreases |xs|
  {
    if |xs| > 1 {
      LevelKeepsTreeHash(h, xs);
      RootIsTreeHash(h, Level(h, xs));
    }
  }

  // -------------------------------------------------------------------- optimisation

  function Merged(h: Compose, a: ProofNode, b: ProofNode): ProofNode {
    ProofNode(a.tipId, a.creator, a.amount + b.amount, h(a.hash, b.hash))
  }

  function Paired(h: Compose, nodes: seq<ProofNode>): (r: seq<ProofNode>)
    ensures |r| == (|nodes| + 1) / 2
  {
    if |nodes| < 2 then nodes else [Merged(h, nodes[0], nodes[1])] + Paired(h, nodes[2..])
  }

  function Optimize(h: Compose, nodes: seq<ProofNode>): seq<ProofNode> {
    if |nodes| <= 2 then nodes else Paired(h, nodes)
  }

  lemma TakePair(h: Compose, done: seq<ProofNode>, rest: seq<ProofNode>)
    requires |rest| >= 2
    ensures done + Paired(h, rest) == done + [Merged(h, rest[0], rest[1])] + Paired(h, rest[2..])
  {
  }

  method OptimizeProof(h: Compose, nodes: seq<ProofNode>) returns (optimized: seq<ProofNode>)
    ensures optimized == Optimize(h, nodes)
  {
    if |nodes| <= 2 {
      return nodes;
    }
    optimized := [];
    var i := 0;
    while i < |nodes|
      invariant 0 <= i <= |nodes|
      invariant optimized + Paired(h, nodes[i..]) == Paired(h, nodes)
    {
      ghost var rest := nodes[i..];
      if i + 1 < |nodes| {
        var merged := Merged(h, nodes[i], nodes[i + 1]);
        TakePair(h, optimized, rest);
        assert rest[2..] == nodes[i + 2..];
        optimized := optimized + [merged];
        i := i + 2;
      } else {
        assert rest == [nodes[i]] && nodes[i + 1..] == [];
        optimized := optimized + [nodes[i]];
        i := i + 1;
      }
    }
  }

  function TotalAmount(nodes: seq<ProofNode>): int {
    if nodes == [] then 0 else nodes[0].amount + TotalAmount(nodes[1..])
  }

  lemma {:induction false} PairedHashes(h: Compose, nodes: seq<ProofNode>)
    ensures Hashes(Paired(h, nodes)) == Level(h, Hashes(nodes))
    decreases |nodes|
  {
    if |nodes| >= 2 {
      PairedHashes(h, nodes[2..]);
      var xs := Hashes(nodes);
      assert xs[2..] == Hashes(nodes[2..]);
      var r := Paired(h, nodes);
      assert r[1..] == Paired(h, nodes[2..]);
    }
  }

  lemma {:induction false} PairedAmount(h: Compose, nodes: seq<ProofNode>)
    ensures TotalAmount(Paired(h, nodes)) == TotalAmount(nodes)
    decreases |nodes|
  {
    if |nodes| >= 2 {
      PairedAmount(h, nodes[2..]);
      assert nodes[1..][1..] == nodes[2..];
      assert Paired(h, nodes)[1..] == Paired(h, nodes[2..]);
    }
  }

  /** What each optimised node is: two neighbours under the left one's name, or an odd last node as it was. */
  lemma {:induction false} PairedAt(h: Compose, nodes: seq<ProofNode>, k: nat)
    requires 2 * k < |nodes|
    ensures var n, left := Paired(h, nodes)[k], nodes[2 * k];
            if 2 * k + 1 == |nodes| then n == left
            else
              var right := nodes[2 * k + 1];
              n == ProofNode(left.tipId, left.creator, left.amount + right.amount, h(left.hash, right.hash))
    decreases k
  {
    if k > 0 {
      PairedAt(h, nodes[2..], k - 1);
    }
  }

  /** Optimising changes neither what verifies nor the total amount. */
  lemma OptimizePreserves(h: Compose, nodes: seq<ProofNode>, root: Hash)
    ensures Verifies(h, Optimize(h, nodes), root) <==> Verifies(h, nodes, root)
    ensures TotalAmount(Optimize(h, nodes)) == TotalAmount(nodes)
  {
    if |nodes| > 2 {
      PairedHashes(h, nodes);
      PairedAmount(h, nodes);
    }
  }

  function Repeat(h: Compose, nodes: seq<ProofNode>, rounds: nat): seq<ProofNode> {
    if rounds == 0 then nodes else Optimize(h, Repeat(h, nodes, rounds - 1))
  }

  function Pow2(n: nat): nat {
    if n == 0 then 1 else 2 * Pow2(n - 1)
  }

  /** Each round at least halves what is above two. */
  lemma {:induction false} RepeatShrinks(h: Compose, nodes: seq<ProofNode>, rounds: nat)
    ensures forall target: nat :: 2 <= target && |nodes| <= target * Pow2(rounds) ==>
              |Repeat(h, nodes, rounds)| <= target
  {
    if rounds > 0 {
      RepeatShrinks(h, nodes, rounds - 1);
      forall target: nat | 2 <= target && |nodes| <= target * Pow2(rounds)
        ensures |Repeat(h, nodes, rounds)| <= target
      {
        assert target * Pow2(rounds) == (2 * target) * Pow2(rounds - 1);
        assert |Repeat(h, nodes, rounds - 1)| <= 2 * target;
      }
    }
  }

  /** Any number of rounds preserves meaning; `rounds` of them reduce up to 2^(rounds+1) nodes to at most two. */
  lemma {:induction false} RepeatPreserves(h: Compose, nodes: seq<ProofNode>, rounds: nat, root: Hash)
    ensures Verifies(h, Repeat(h, nodes, rounds), root) <==> Verifies(h, nodes, root)
    ensures TotalAmount(Repeat(h, nodes, rounds)) == TotalAmount(nodes)
    ensures |nodes| <= 2 * Pow2(rounds) ==> |Repeat(h, nodes, rounds)| <= 2
    ensures nodes != [] ==> Repeat(h, nodes, rounds) != []
  {
    if rounds > 0 {
      RepeatPreserves(h, nodes, rounds - 1, root);
      OptimizePreserves(h, Repeat(h, nodes, rounds - 1), root);
      RepeatShrinks(h, nodes, rounds);
    }
  }
}
