/** The Merkle commitment of the appraisal service (backend/services/appraisal_service.py).
    SHA-256 is a parameter: `sha` maps a string to its digest, kept as the hex text it is joined from. */
module Merkle {
  import opened Arithmetic
  import opened Common

  datatype Digest = Digest(hex: string)

  type Sha = string -> Digest

  /** One proof entry: the sibling's digest and whether it stands on the right. */
  datatype Step = Step(sibling: Digest, onRight: bool)

  function PairHash(sha: Sha, left: Digest, right: Digest): Digest {
    sha(left.hex + right.hex)
  }

  // ---------------------------------------------------------------------------
  // The layers of the tree
  // ---------------------------------------------------------------------------

  function Min(a: int, b: int): int {
    if a <= b then a else b
  }

  /** The number of parents of a row of n entries, the last one duplicated when n is odd. */
  function Half(n: nat): (r: nat)
    ensures n > 1 ==> 0 < r < n
    ensures n == 1 ==> r == 1
  {
    (n + 1) / 2
  }

  /** The parents of a layer from the k-th on. */
  function ParentsFrom(sha: Sha, layer: seq<Digest>, k: nat): (r: seq<Digest>)
    requires k <= Half(|layer|)
    ensures |r| == Half(|layer|) - k
    decreases |layer| - k
  {
    if k == Half(|layer|) then []
    else [PairHash(sha, layer[2 * k], layer[Min(2 * k + 1, |layer| - 1)])] + ParentsFrom(sha, layer, k + 1)
  }

  function Next(sha: Sha, layer: seq<Digest>): (r: seq<Digest>)
    ensures |r| == Half(|layer|)
  {
    ParentsFrom(sha, layer, 0)
  }

  lemma {:induction false} ParentsFromAt(sha: Sha, layer: seq<Digest>, k: nat, j: nat)
    requires k <= j < Half(|layer|)
    ensures ParentsFrom(sha, layer, k)[j - k] == PairHash(sha, layer[2 * j], layer[Min(2 * j + 1, |layer| - 1)])
    decreases j - k
  {
    if k < j {
      ParentsFromAt(sha, layer, k + 1, j);
    }
  }

  /** The parent of positions 2j and 2j + 1. */
  lemma NextAt(sha: Sha, layer: seq<Digest>, j: nat)
    requires j < Half(|layer|)
    ensures Next(sha, layer)[j] == PairHash(sha, layer[2 * j], layer[Min(2 * j + 1, |layer| - 1)])
  {
    ParentsFromAt(sha, layer, 0, j);
  }

  function Levels(sha: Sha, layer: seq<Digest>): (r: seq<seq<Digest>>)
    requires |layer| > 0
    ensures |r| > 0 && r[0] == layer && |r[|r| - 1]| == 1
    decreases |layer|
  {
    if |layer| <= 1 then [layer] else [layer] + Levels(sha, Next(sha, layer))
  }

  /** The leaf row that is committed to: the empty list stands for one fixed digest. */
  function LeafRow(sha: Sha, leaves: seq<Digest>): (r: seq<Digest>)
    ensures |r| > 0
  {
    if leaves == [] then [sha("empty")] else leaves
  }

  function Root(sha: Sha, layer: seq<Digest>): Digest
    requires |layer| > 0
    decreases |layer|
  {
    if |layer| == 1 then layer[0] else Root(sha, Next(sha, layer))
  }

  /** padded is the layer after its last entry was appended when its length was odd. */
  ghost predicate IsPadded(layer: seq<Digest>, padded: seq<Digest>) {
    && |padded| == 2 * Half(|layer|)
    && forall m :: 0 <= m < |padded| ==> padded[m] == layer[Min(m, |layer| - 1)]
  }

  lemma AppendingLastPads(layer: seq<Digest>)
    requires |layer| > 0
    ensures IsPadded(layer, if |layer| % 2 == 1 then layer + [layer[|layer| - 1]] else layer)
  {
  }

  /** The comprehension over the pairs of a padded layer. */
  method HashPairs(sha: Sha, padded: seq<Digest>, ghost layer: seq<Digest>) returns (r: seq<Digest>)
    requires IsPadded(layer, padded)
    ensures r == Next(sha, layer)
  {
    r := [];
    var i := 0;
    ghost var k := 0;
    while i < |padded|
      invariant 0 <= k <= Half(|layer|) && i == 2 * k
      invariant r + ParentsFrom(sha, layer, k) == Next(sha, layer)
    {
      var parent := PairHash(sha, padded[i], padded[i + 1]);
      ghost var tail := ParentsFrom(sha, layer, k + 1);
      assert ParentsFrom(sha, layer, k) == [parent] + tail;
      assert (r + [parent]) + tail == r + ([parent] + tail);
      r, i, k := r + [parent], i + 2, k + 1;
    }
    assert r + [] == r;
  }

  lemma LevelsStep(sha: Sha, layer: seq<Digest>, done: seq<seq<Digest>>)
    requires |layer| > 1
    ensures done + Levels(sha, layer) == (done + [layer]) + Levels(sha, Next(sha, layer))
  {
    var rest := Levels(sha, Next(sha, layer));
    assert Levels(sha, layer) == [layer] + rest;
  }

  /** build_merkle_tree. */
  method BuildMerkleTree(sha: Sha, leaves: seq<Digest>) returns (root: Digest, levels: seq<seq<Digest>>)
    ensures levels == Levels(sha, LeafRow(sha, leaves))
    ensures root == Root(sha, LeafRow(sha, leaves))
    ensures levels[|levels| - 1] == [root]
    ensures if leaves == [] then root == sha("empty") && levels == [[root]] else levels[0] == leaves
  {
    if leaves == [] {
      return sha("empty"), [[sha("empty")]];
    }
    var layer := leaves;
    levels := [layer];
    ghost var saved := [];
    while |layer| > 1
      invariant |layer| > 0 && levels == saved + [layer]
      invariant Levels(sha, leaves) == saved + Levels(sha, layer)
      invariant Root(sha, leaves) == Root(sha, layer)
      decreases |layer|
    {
      ghost var before := layer;
      AppendingLastPads(layer);
      if |layer| % 2 == 1 {
        layer := layer + [layer[|layer| - 1]];
      }
      var nextLayer := HashPairs(sha, layer, before);
      LevelsStep(sha, before, saved);
      saved := levels;
      levels := levels + [nextLayer];
      layer := nextLayer;
    }
    root := layer[0];
  }

  // ---------------------------------------------------------------------------
  // Proofs
  // ---------------------------------------------------------------------------

  /** `idx ^ 1` on Python integers: the neighbour in the pair that holds idx. */
  function Sibling(idx: int): int {
    if idx % 2 == 0 then idx + 1 else idx - 1
  }

  /** Python list indexing: a negative index counts from the end, None is the IndexError. */
  function At(row: seq<Digest>, j: int): Option<Digest> {
    if 0 <= j < |row| then Some(row[j])
    else if -|row| <= j < 0 then Some(row[|row| + j])
    else None
  }

  /** Position j of the padded layer, read from the layer itself. */
  function PaddedAt(layer: seq<Digest>, j: int): Option<Digest> {
    var padded := 2 * Half(|layer|);
    if 0 <= j < padded then Some(layer[Min(j, |layer| - 1)])
    else if -padded <= j < 0 then Some(layer[Min(padded + j, |layer| - 1)])
    else None
  }

  lemma PaddedAtReadsPadded(layer: seq<Digest>, padded: seq<Digest>, j: int)
    requires IsPadded(layer, padded)
    ensures PaddedAt(layer, j) == At(padded, j)
  {
  }

  function Prefixed(step: Step, rest: Option<seq<Step>>): Option<seq<Step>> {
    if rest.None? then None else Some([step] + rest.value)
  }

  /** The proof for any integer index; None is the IndexError. */
  function Proof(sha: Sha, layer: seq<Digest>, idx: int): Option<seq<Step>>
    decreases |layer|
  {
    if |layer| <= 1 then Some([]) else
    var sibling := PaddedAt(layer, Sibling(idx));
    if sibling.None? then None
    else Prefixed(Step(sibling.value, idx % 2 == 0), Proof(sha, Next(sha, layer), idx / 2))
  }

  lemma ProofStep(sha: Sha, layer: seq<Digest>, idx: int, done: seq<Step>, step: Step) returns (rest: Option<seq<Step>>)
    requires |layer| > 1 && PaddedAt(layer, Sibling(idx)) == Some(step.sibling) && step.onRight == (idx % 2 == 0)
    ensures rest == Proof(sha, Next(sha, layer), idx / 2)
    ensures Proof(sha, layer, idx).Some? <==> rest.Some?
    ensures rest.Some? ==> done + Proof(sha, layer, idx).value == (done + [step]) + rest.value
  {
    rest := Proof(sha, Next(sha, layer), idx / 2);
    assert Proof(sha, layer, idx) == Prefixed(step, rest);
  }

  /** merkle_proof. */
  method MerkleProof(sha: Sha, leaves: seq<Digest>, index: int) returns (result: Option<seq<Step>>)
    ensures result == Proof(sha, leaves, index)
  {
    if leaves == [] {
      return Some([]);
    }
    var layer, proof, idx := leaves, [], index;
    ghost var rest := Proof(sha, leaves, index);
    assert rest.Some? ==> [] + rest.value == rest.value;
    while |layer| > 1
      invariant |layer| > 0 && rest == Proof(sha, layer, idx)
      invariant Proof(sha, leaves, index) == if rest.None? then None else Some(proof + rest.value)
      decreases |layer|
    {
      ghost var before := layer;
      AppendingLastPads(layer);
      if |layer| % 2 == 1 {
        layer := layer + [layer[|layer| - 1]];
      }
      PaddedAtReadsPadded(before, layer, Sibling(idx));
      var sibling := At(layer, Sibling(idx));
      if sibling.None? {
        return None;
      }
      var step := Step(sibling.value, idx % 2 == 0);
      rest := ProofStep(sha, before, idx, proof, step);
      proof := proof + [step];
      layer := HashPairs(sha, layer, before);
      idx := idx / 2;
    }
    assert rest.value == [] && proof + [] == proof;
    return Some(proof);
  }

  /** Recomputing the root from a leaf, as a verifier does. */
  function Fold(sha: Sha, leaf: Digest, proof: seq<Step>): Digest
    decreases |proof|
  {
    if proof == [] then leaf
    else Fold(sha, Combine(sha, leaf, proof[0]), proof[1..])
  }

  function Combine(sha: Sha, current: Digest, step: Step): Digest {
    sha(Joined(current, step))
  }

  function Joined(current: Digest, step: Step): string {
    if step.onRight then current.hex + step.sibling.hex else step.sibling.hex + current.hex
  }

  /** An index is provable exactly when it falls in the padded first layer, negative indices included; with
      a single leaf, or none, every index has the empty proof. */
  lemma {:induction false} ProofExistsIff(sha: Sha, layer: seq<Digest>, idx: int)
    ensures Proof(sha, layer, idx).Some? <==> |layer| <= 1 || -2 * Half(|layer|) <= idx < 2 * Half(|layer|)
    ensures |layer| <= 1 ==> Proof(sha, layer, idx) == Some([])
    decreases |layer|
  {
    if |layer| > 1 {
      var sibling, rest := PaddedAt(layer, Sibling(idx)), Proof(sha, Next(sha, layer), idx / 2);
      assert sibling.Some? <==> -2 * Half(|layer|) <= idx < 2 * Half(|layer|);
      ProofExistsIff(sha, Next(sha, layer), idx / 2);
      assert sibling.Some? ==> rest.Some?;
    }
  }

  /** When the number of leaves is a power of two, a negative index proves the leaf counted from the end. */
  lemma {:induction false} NegativeIndex(sha: Sha, layer: seq<Digest>, depth: nat, idx: int)
    requires |layer| == Pow(2, depth) && -|layer| <= idx < 0
    ensures Proof(sha, layer, idx) == Proof(sha, layer, |layer| + idx)
    decreases depth
  {
    if depth > 0 {
      SiblingFromEnd(layer, Pow(2, depth - 1), idx);
      NegativeIndex(sha, Next(sha, layer), depth - 1, idx / 2);
    }
  }

  lemma SiblingFromEnd(layer: seq<Digest>, half: nat, idx: int)
    requires |layer| == 2 * half && -|layer| <= idx < 0
    ensures Half(|layer|) == half && (|layer| + idx) / 2 == half + idx / 2 && (|layer| + idx) % 2 == idx % 2
    ensures PaddedAt(layer, Sibling(idx)) == PaddedAt(layer, Sibling(|layer| + idx))
  {
  }

  /** Hashing a position with its sibling gives the parent. */
  lemma ParentOfStep(sha: Sha, layer: seq<Digest>, idx: nat)
    requires |layer| > 1 && idx < 2 * Half(|layer|)
    ensures PaddedAt(layer, Sibling(idx)).Some?
    ensures Next(sha, layer)[idx / 2] ==
            Combine(sha, layer[Min(idx, |layer| - 1)], Step(PaddedAt(layer, Sibling(idx)).value, idx % 2 == 0))
  {
    NextAt(sha, layer, idx / 2);
  }

  lemma FoldStep(sha: Sha, leaf: Digest, step: Step, rest: seq<Step>)
    ensures Fold(sha, leaf, [step] + rest) == Fold(sha, Combine(sha, leaf, step), rest)
  {
    assert ([step] + rest)[1..] == rest;
  }

  /** Completeness: folding the proof for any slot of the padded first layer, from the leaf in
      that slot, gives the root. The padding slot proves the last leaf. */
  lemma {:induction false} Completeness(sha: Sha, layer: seq<Digest>, idx: nat)
    requires |layer| > 0
    requires if |layer| == 1 then idx == 0 else idx < 2 * Half(|layer|)
    ensures var proof := Proof(sha, layer, idx);
            && proof.Some?
            && Fold(sha, layer[Min(idx, |layer| - 1)], proof.value) == Root(sha, layer)
    decreases |layer|
  {
    if |layer| > 1 {
      ParentOfStep(sha, layer, idx);
      Completeness(sha, Next(sha, layer), idx / 2);
      var step := Step(PaddedAt(layer, Sibling(idx)).value, idx % 2 == 0);
      FoldStep(sha, layer[Min(idx, |layer| - 1)], step, Proof(sha, Next(sha, layer), idx / 2).value);
    }
  }

  // ---------------------------------------------------------------------------
  // The saved levels
  // ---------------------------------------------------------------------------

  /** Rounding up a half and then a quotient is rounding up once. */
  lemma RoundedUpTwice(n: nat, q: nat)
    requires q > 0
    ensures (Half(n) + q - 1) / q == (n + 2 * q - 1) / (2 * q)
  {
    assert Half(n) + q - 1 == (n + 2 * q - 1) / 2;
    HalveThenDivide(n + 2 * q - 1, q);
  }

  /** Level k of n leaves has exactly ceil(n / 2^k) entries, duplicates not stored. */
  lemma {:induction false} LevelSize(sha: Sha, layer: seq<Digest>, k: nat)
    requires |layer| > 0 && k < |Levels(sha, layer)|
    ensures |Levels(sha, layer)[k]| == ShiftUp(|layer|, k)
    decreases k
  {
    if k > 0 {
      LevelSize(sha, Next(sha, layer), k - 1);
      RoundedUpTwice(|layer|, Pow(2, k - 1));
    }
  }

  /** The proof has one step per level below the root. */
  lemma {:induction false} ProofLength(sha: Sha, layer: seq<Digest>, i: nat)
    requires i < |layer|
    ensures Proof(sha, layer, i).Some?
    ensures |Proof(sha, layer, i).value| == |Levels(sha, layer)| - 1
    decreases |layer|
  {
    if |layer| > 1 {
      ProofLength(sha, Next(sha, layer), i / 2);
    }
  }

  /** The index after k halvings. */
  function Shifted(i: nat, k: nat): nat {
    if k == 0 then i else Shifted(i / 2, k - 1)
  }

  lemma {:induction false} ShiftedIsQuotient(i: nat, k: nat)
    ensures Shifted(i, k) == ShiftRight(i, k)
  {
    if k > 0 {
      ShiftedIsQuotient(i / 2, k - 1);
      HalveThenDivide(i, Pow(2, k - 1));
    }
  }

  lemma LevelAbove(sha: Sha, layer: seq<Digest>, k: nat)
    requires |layer| > 0 && 0 < k < |Levels(sha, layer)|
    ensures |layer| > 1 && |Levels(sha, layer)| == |Levels(sha, Next(sha, layer))| + 1
    ensures Levels(sha, layer)[k] == Levels(sha, Next(sha, layer))[k - 1]
  {
  }

  lemma {:induction false} StepAbove(sha: Sha, layer: seq<Digest>, i: nat, k: nat)
    requires |layer| > 1 && k > 0 && Proof(sha, layer, i).Some? && k < |Proof(sha, layer, i).value|
    ensures Proof(sha, Next(sha, layer), i / 2).Some?
    ensures |Proof(sha, layer, i).value| == |Proof(sha, Next(sha, layer), i / 2).value| + 1
    ensures Proof(sha, layer, i).value[k] == Proof(sha, Next(sha, layer), i / 2).value[k - 1]
  {
  }

  lemma FirstSibling(sha: Sha, layer: seq<Digest>, i: nat)
    requires i < |layer| && |layer| > 1 && Proof(sha, layer, i).Some?
    ensures Proof(sha, layer, i).value[0] == Step(layer[Min(Sibling(i), |layer| - 1)], i % 2 == 0)
  {
    assert PaddedAt(layer, Sibling(i)) == Some(layer[Min(Sibling(i), |layer| - 1)]);
  }

  lemma {:induction false} SiblingInLevel(sha: Sha, layer: seq<Digest>, i: nat, k: nat)
    requires i < |layer| && k < |Levels(sha, layer)| - 1
    ensures Proof(sha, layer, i).Some? && k < |Proof(sha, layer, i).value|
    ensures var row, at := Levels(sha, layer)[k], Shifted(i, k);
            at < |row| && Proof(sha, layer, i).value[k] == Step(row[Min(Sibling(at), |row| - 1)], at % 2 == 0)
    decreases k
  {
    ProofLength(sha, layer, i);
    if k == 0 {
      FirstSibling(sha, layer, i);
    } else {
      LevelAbove(sha, layer, k);
      SiblingInLevel(sha, Next(sha, layer), i / 2, k - 1);
      StepAbove(sha, layer, i, k);
    }
  }

  /** The k-th sibling can be read from the saved tree: it is the neighbour of (i >> k) in level k,
      or the level's last entry when that neighbour is the padding slot. */
  lemma {:induction false} ProofReadsSavedLevels(sha: Sha, layer: seq<Digest>, i: nat, k: nat)
    requires i < |layer| && k < |Levels(sha, layer)| - 1
    ensures Proof(sha, layer, i).Some? && k < |Proof(sha, layer, i).value|
    ensures var row, at := Levels(sha, layer)[k], ShiftRight(i, k);
            at < |row| && Proof(sha, layer, i).value[k] == Step(row[Min(Sibling(at), |row| - 1)], at % 2 == 0)
  {
    SiblingInLevel(sha, layer, i, k);
    ShiftedIsQuotient(i, k);
  }
}
