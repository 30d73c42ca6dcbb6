/** What a Merkle root binds, provided the strings hashed do not collide: leaf lists and proof paths. */
module MerkleBinding {
  import opened Arithmetic
  import opened Common
  import opened Merkle

  /** The j-th pair of a layer, joined. */
  function PairAt(layer: seq<Digest>, j: nat): string
    requires j < Half(|layer|)
  {
    layer[2 * j].hex + layer[Min(2 * j + 1, |layer| - 1)].hex
  }

  ghost function HashedInRow(layer: seq<Digest>): set<string> {
    set j | 0 <= j < Half(|layer|) :: PairAt(layer, j)
  }

  /** The strings given to `sha` while the tree over a layer is built. */
  ghost function HashedInBuild(sha: Sha, layer: seq<Digest>): set<string>
    requires |layer| > 0
    decreases |layer|
  {
    if |layer| == 1 then {} else
    HashedInRow(layer) + HashedInBuild(sha, Next(sha, layer))
  }

  /** The strings given to `sha` while a proof is folded. */
  ghost function HashedInFold(sha: Sha, leaf: Digest, proof: seq<Step>): set<string>
    decreases |proof|
  {
    if proof == [] then {} else
    {Joined(leaf, proof[0])} + HashedInFold(sha, Combine(sha, leaf, proof[0]), proof[1..])
  }

  ghost predicate NoCollision(sha: Sha, hashed: set<string>) {
    forall s, t :: s in hashed && t in hashed && sha(s) == sha(t) ==> s == t
  }

  /** All digests have the same width, as SHA-256 hex digests do. */
  ghost predicate FixedWidth(sha: Sha, width: nat) {
    forall s :: |sha(s).hex| == width
  }

  ghost predicate AllOfWidth(layer: seq<Digest>, width: nat) {
    forall i :: 0 <= i < |layer| ==> |layer[i].hex| == width
  }

  /** The leaf that slot j of the fully duplicated bottom row (of 2^depth slots) stands for. */
  function Slot(n: nat, depth: nat, j: nat): (r: nat)
    requires n > 0
    ensures r < n
    decreases depth
  {
    if depth == 0 then 0
    else Min(2 * Slot(Half(n), depth - 1, j / 2) + j % 2, n - 1)
  }

  function Depth(n: nat): nat
    requires n > 0
  {
    if n == 1 then 0 else 1 + Depth(Half(n))
  }

  lemma DepthIsProofLength(sha: Sha, layer: seq<Digest>)
    requires |layer| > 0
    ensures |Levels(sha, layer)| == Depth(|layer|) + 1
    decreases |layer|
  {
    if |layer| > 1 {
      DepthIsProofLength(sha, Next(sha, layer));
    }
  }

  /** In a tree of n leaves the first n slots are the leaves themselves. */
  lemma {:induction false} SlotOfLeaf(n: nat, j: nat)
    requires j < n
    ensures Slot(n, Depth(n), j) == j
  {
    if n > 1 {
      SlotOfLeaf(Half(n), j / 2);
    }
  }

  ghost predicate SameRow(xs: seq<Digest>, ys: seq<Digest>, depth: nat)
    requires |xs| > 0 && |ys| > 0
  {
    forall j: nat :: j < Pow(2, depth) ==> xs[Slot(|xs|, depth, j)] == ys[Slot(|ys|, depth, j)]
  }

  lemma SplitPair(a: Digest, b: Digest, c: Digest, d: Digest)
    requires |a.hex| == |c.hex| && a.hex + b.hex == c.hex + d.hex
    ensures a == c && b == d
  {
    assert a.hex == (a.hex + b.hex)[..|a.hex|];
    assert b.hex == (a.hex + b.hex)[|a.hex|..];
    assert c.hex == (c.hex + d.hex)[..|c.hex|];
    assert d.hex == (c.hex + d.hex)[|c.hex|..];
  }

  /** Two trees of the same depth have the same root exactly when their fully duplicated bottom
      rows are equal, provided the strings hashed while building them do not collide. */
  lemma {:induction false} RootsEqualIff(sha: Sha, width: nat, xs: seq<Digest>, ys: seq<Digest>)
    requires |xs| > 0 && |ys| > 0 && Depth(|xs|) == Depth(|ys|)
    requires FixedWidth(sha, width) && AllOfWidth(xs, width) && AllOfWidth(ys, width)
    requires NoCollision(sha, HashedInBuild(sha, xs) + HashedInBuild(sha, ys))
    ensures Root(sha, xs) == Root(sha, ys) <==> SameRow(xs, ys, Depth(|xs|))
    decreases |xs|
  {
    if |xs| == 1 {
      assert Slot(|xs|, 0, 0) == 0 && Slot(|ys|, 0, 0) == 0;
    } else {
      var nx, ny, depth := Next(sha, xs), Next(sha, ys), Depth(|xs|);
      assert NoCollision(sha, HashedInBuild(sha, nx) + HashedInBuild(sha, ny));
      NextWidths(sha, width, xs);
      NextWidths(sha, width, ys);
      RootsEqualIff(sha, width, nx, ny);
      if SameRow(nx, ny, depth - 1) {
        SameRowDown(sha, width, xs, ys, depth);
      }
      if SameRow(xs, ys, depth) {
        SameRowUp(sha, xs, ys, depth);
      }
    }
  }

  lemma {:induction false} SameRowDown(sha: Sha, width: nat, xs: seq<Digest>, ys: seq<Digest>, depth: nat)
    requires |xs| > 1 && |ys| > 1 && depth > 0
    requires AllOfWidth(xs, width) && AllOfWidth(ys, width)
    requires NoCollision(sha, HashedInRow(xs) + HashedInRow(ys))
    requires SameRow(Next(sha, xs), Next(sha, ys), depth - 1)
    ensures SameRow(xs, ys, depth)
  {
    forall j: nat | j < Pow(2, depth)
      ensures xs[Slot(|xs|, depth, j)] == ys[Slot(|ys|, depth, j)]
    {
      assert j / 2 < Pow(2, depth - 1);
      var p := EntryOfSlot(xs, depth, j);
      var q := EntryOfSlot(ys, depth, j);
      SamePair(sha, width, xs, ys, p, q);
    }
  }

  /** The entry a slot stands for, seen from the pair it was hashed in. */
  lemma {:induction false} EntryOfSlot(xs: seq<Digest>, depth: nat, j: nat) returns (p: nat)
    requires |xs| > 1 && depth > 0
    ensures p == Slot(Half(|xs|), depth - 1, j / 2) && p < Half(|xs|)
    ensures xs[Slot(|xs|, depth, j)] == if j % 2 == 0 then xs[2 * p] else xs[Min(2 * p + 1, |xs| - 1)]
  {
    p := Slot(Half(|xs|), depth - 1, j / 2);
  }

  lemma SamePair(sha: Sha, width: nat, xs: seq<Digest>, ys: seq<Digest>, p: nat, q: nat)
    requires p < Half(|xs|) && q < Half(|ys|)
    requires AllOfWidth(xs, width) && AllOfWidth(ys, width)
    requires NoCollision(sha, HashedInRow(xs) + HashedInRow(ys))
    requires Next(sha, xs)[p] == Next(sha, ys)[q]
    ensures xs[2 * p] == ys[2 * q] && xs[Min(2 * p + 1, |xs| - 1)] == ys[Min(2 * q + 1, |ys| - 1)]
  {
    NextAt(sha, xs, p);
    NextAt(sha, ys, q);
    assert PairAt(xs, p) in HashedInRow(xs) && PairAt(ys, q) in HashedInRow(ys);
    SplitPair(xs[2 * p], xs[Min(2 * p + 1, |xs| - 1)], ys[2 * q], ys[Min(2 * q + 1, |ys| - 1)]);
  }

  lemma {:induction false} SameRowUp(sha: Sha, xs: seq<Digest>, ys: seq<Digest>, depth: nat)
    requires |xs| > 1 && |ys| > 1 && depth > 0
    requires SameRow(xs, ys, depth)
    ensures SameRow(Next(sha, xs), Next(sha, ys), depth - 1)
  {
    forall j: nat {:trigger Slot(Half(|xs|), depth - 1, j)} | j < Pow(2, depth - 1)
      ensures Next(sha, xs)[Slot(Half(|xs|), depth - 1, j)] == Next(sha, ys)[Slot(Half(|ys|), depth - 1, j)]
    {
      assert 2 * j + 1 < Pow(2, depth);
      SameChildren(sha, xs, ys, depth, j);
    }
  }

  lemma {:induction false} SameChildren(sha: Sha, xs: seq<Digest>, ys: seq<Digest>, depth: nat, j: nat)
    requires |xs| > 1 && |ys| > 1 && depth > 0
    requires xs[Slot(|xs|, depth, 2 * j)] == ys[Slot(|ys|, depth, 2 * j)]
    requires xs[Slot(|xs|, depth, 2 * j + 1)] == ys[Slot(|ys|, depth, 2 * j + 1)]
    ensures Next(sha, xs)[Slot(Half(|xs|), depth - 1, j)] == Next(sha, ys)[Slot(Half(|ys|), depth - 1, j)]
  {
    var p := EntriesBelow(xs, depth, j);
    var q := EntriesBelow(ys, depth, j);
    SameParent(sha, xs, ys, p, q);
  }

  lemma EntriesBelow(xs: seq<Digest>, depth: nat, j: nat) returns (p: nat)
    requires |xs| > 1 && depth > 0
    ensures p == Slot(Half(|xs|), depth - 1, j) && p < Half(|xs|)
    ensures xs[Slot(|xs|, depth, 2 * j)] == xs[2 * p]
    ensures xs[Slot(|xs|, depth, 2 * j + 1)] == xs[Min(2 * p + 1, |xs| - 1)]
  {
    SlotChild(|xs|, depth, j);
    p := Slot(Half(|xs|), depth - 1, j);
  }

  lemma SameParent(sha: Sha, xs: seq<Digest>, ys: seq<Digest>, p: nat, q: nat)
    requires p < Half(|xs|) && q < Half(|ys|)
    requires xs[2 * p] == ys[2 * q] && xs[Min(2 * p + 1, |xs| - 1)] == ys[Min(2 * q + 1, |ys| - 1)]
    ensures Next(sha, xs)[p] == Next(sha, ys)[q]
  {
    NextAt(sha, xs, p);
    NextAt(sha, ys, q);
  }

  lemma NextWidths(sha: Sha, width: nat, layer: seq<Digest>)
    requires FixedWidth(sha, width)
    ensures AllOfWidth(Next(sha, layer), width)
  {
    forall j: nat | j < Half(|layer|)
      ensures |Next(sha, layer)[j].hex| == width
    {
      NextAt(sha, layer, j);
    }
  }

  /** The two slots below slot j. */
  lemma SlotChild(n: nat, depth: nat, j: nat)
    requires n > 1 && depth > 0
    ensures Slot(n, depth, 2 * j) == 2 * Slot(Half(n), depth - 1, j)
    ensures Slot(n, depth, 2 * j + 1) == Min(2 * Slot(Half(n), depth - 1, j) + 1, n - 1)
  {
    assert (2 * j) / 2 == j && (2 * j + 1) / 2 == j;
  }

  lemma DepthBoundsSize(n: nat)
    requires n > 0
    ensures n <= Pow(2, Depth(n))
  {
  }

  /** Binding: two leaf lists of the same length have the same root exactly when they are the same. */
  lemma {:induction false} Binding(sha: Sha, width: nat, xs: seq<Digest>, ys: seq<Digest>)
    requires |xs| == |ys| > 0
    requires FixedWidth(sha, width) && AllOfWidth(xs, width) && AllOfWidth(ys, width)
    requires NoCollision(sha, HashedInBuild(sha, xs) + HashedInBuild(sha, ys))
    ensures Root(sha, xs) == Root(sha, ys) <==> xs == ys
  {
    RootsEqualIff(sha, width, xs, ys);
    if Root(sha, xs) == Root(sha, ys) {
      forall j: nat | j < |xs|
        ensures xs[j] == ys[j]
      {
        SlotOfLeaf(|xs|, j);
        DepthBoundsSize(|xs|);
      }
    }
  }

  /** Why the lengths must agree: for an odd list of three or more, repeating the last leaf keeps the root. */
  lemma {:induction false} RepeatedLastLeafKeepsRoot(sha: Sha, xs: seq<Digest>)
    requires |xs| >= 3 && |xs| % 2 == 1
    ensures Root(sha, xs + [xs[|xs| - 1]]) == Root(sha, xs)
  {
    var ys := xs + [xs[|xs| - 1]];
    forall j: nat | j < Half(|xs|)
      ensures Next(sha, ys)[j] == Next(sha, xs)[j]
    {
      NextAt(sha, xs, j);
      NextAt(sha, ys, j);
    }
    assert Next(sha, ys) == Next(sha, xs);
  }

  lemma InnerRowKeepsRoot(sha: Sha, xs: seq<Digest>)
    requires |xs| > 1
    ensures Root(sha, Next(sha, xs)) == Root(sha, xs)
    ensures Depth(|Next(sha, xs)|) == Depth(|xs|) - 1
  {
  }

  /** Why the depths must agree: every saved level, presented as leaves, has the same root, as many
      levels lower. */
  lemma {:induction false} EveryLevelKeepsRoot(sha: Sha, xs: seq<Digest>, k: nat)
    requires |xs| > 0 && k < |Levels(sha, xs)|
    ensures var row := Levels(sha, xs)[k];
            row != [] && Root(sha, row) == Root(sha, xs) && Depth(|row|) == Depth(|xs|) - k
    decreases k
  {
    if k > 0 {
      LevelAbove(sha, xs, k);
      InnerRowKeepsRoot(sha, xs);
      EveryLevelKeepsRoot(sha, Next(sha, xs), k - 1);
    }
  }

  /** Why the widths must agree: digests are joined without a separator. */
  lemma UnevenWidthsCollide(sha: Sha)
    ensures Root(sha, [Digest("ab"), Digest("c")]) == Root(sha, [Digest("a"), Digest("bc")])
  {
    assert "ab" + "c" == "a" + "bc";
    NextAt(sha, [Digest("ab"), Digest("c")], 0);
    NextAt(sha, [Digest("a"), Digest("bc")], 0);
  }

  ghost predicate SameDirections(p: seq<Step>, q: seq<Step>) {
    |p| == |q| && forall k :: 0 <= k < |p| ==> p[k].onRight == q[k].onRight
  }

  ghost predicate SiblingsOfWidth(p: seq<Step>, width: nat) {
    forall k :: 0 <= k < |p| ==> |p[k].sibling.hex| == width
  }

  /** A path with the honest directions that reaches the same digest is the honest path. */
  lemma {:induction false} PathBinding(sha: Sha, width: nat, leaf: Digest, proof: seq<Step>,
                                       otherLeaf: Digest, otherProof: seq<Step>)
    requires SameDirections(proof, otherProof) && FixedWidth(sha, width)
    requires |leaf.hex| == |otherLeaf.hex| == width
    requires SiblingsOfWidth(proof, width) && SiblingsOfWidth(otherProof, width)
    requires NoCollision(sha, HashedInFold(sha, leaf, proof) + HashedInFold(sha, otherLeaf, otherProof))
    requires Fold(sha, leaf, proof) == Fold(sha, otherLeaf, otherProof)
    ensures leaf == otherLeaf && proof == otherProof
    decreases |proof|
  {
    if proof != [] {
      var up, otherUp := Combine(sha, leaf, proof[0]), Combine(sha, otherLeaf, otherProof[0]);
      PathBinding(sha, width, up, proof[1..], otherUp, otherProof[1..]);
      assert Joined(leaf, proof[0]) == Joined(otherLeaf, otherProof[0]);
      if proof[0].onRight {
        SplitPair(leaf, proof[0].sibling, otherLeaf, otherProof[0].sibling);
      } else {
        SplitPair(proof[0].sibling, leaf, otherProof[0].sibling, otherLeaf);
      }
      assert proof == [proof[0]] + proof[1..];
      assert otherProof == [otherProof[0]] + otherProof[1..];
    }
  }

  lemma ProofWidths(sha: Sha, width: nat, layer: seq<Digest>, i: nat)
    requires |layer| > 0 && i < |layer|
    requires FixedWidth(sha, width) && AllOfWidth(layer, width)
    ensures Proof(sha, layer, i).Some? && SiblingsOfWidth(Proof(sha, layer, i).value, width)
    decreases |layer|
  {
    if |layer| > 1 {
      NextWidths(sha, width, layer);
      ProofWidths(sha, width, Next(sha, layer), i / 2);
    }
  }

  /** Soundness: a path with the honest directions for index i reaches the root exactly when it
      carries the honest leaf and the honest siblings. */
  lemma {:induction false} Soundness(sha: Sha, width: nat, leaves: seq<Digest>, i: nat, leaf: Digest, path: seq<Step>)
    requires i < |leaves| && FixedWidth(sha, width) && AllOfWidth(leaves, width)
    requires |leaf.hex| == width && SiblingsOfWidth(path, width)
    requires Proof(sha, leaves, i).Some? && SameDirections(Proof(sha, leaves, i).value, path)
    requires NoCollision(sha, HashedInFold(sha, leaves[i], Proof(sha, leaves, i).value) + HashedInFold(sha, leaf, path))
    ensures Fold(sha, leaf, path) == Root(sha, leaves) <==> leaf == leaves[i] && path == Proof(sha, leaves, i).value
  {
    Completeness(sha, leaves, i);
    ProofWidths(sha, width, leaves, i);
    if Fold(sha, leaf, path) == Root(sha, leaves) {
      PathBinding(sha, width, leaves[i], Proof(sha, leaves, i).value, leaf, path);
    }
  }
}
