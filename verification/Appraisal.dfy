/** What the appraisal root commits to (backend/services/appraisal_service.py): the leaf of a file is
    the digest of its path, content hash and value. */
module Appraisal {
  import opened Common
  import opened Merkle
  import opened MerkleBinding
  import opened Text

  datatype FileAppraisal = FileAppraisal(path: string, contentHash: string, valueCents: int)

  /** The text hashed into a leaf. */
  function Payload(f: FileAppraisal): string {
    (f.path + ("|" + f.contentHash)) + ("|" + SignedDecimal(f.valueCents))
  }

  /** _leaf_hash. */
  function LeafHash(sha: Sha, f: FileAppraisal): Digest {
    sha(Payload(f))
  }

  function Leaves(sha: Sha, files: seq<FileAppraisal>): (r: seq<Digest>)
    ensures |r| == |files|
  {
    seq(|files|, i requires 0 <= i < |files| => LeafHash(sha, files[i]))
  }

  /** Read from its end, a payload gives back the value in cents, the content hash and the path, which may
      hold the separator; a content hash, being hex, does not. */
  lemma PayloadReadsBack(f: FileAppraisal)
    requires Free('|', f.contentHash)
    ensures var parts := Split('|', Payload(f));
            var n := |parts|;
            && n >= 3 && Join('|', parts[..n - 2]) == f.path && parts[n - 2] == f.contentHash
            && ParseSigned(parts[n - 1]) == Some(f.valueCents)
  {
    PayloadParts(f);
    var parts := Split('|', Payload(f));
    assert parts[..|parts| - 2] == Split('|', f.path);
    JoinSplit('|', f.path);
    ParseSignedDecimal(f.valueCents);
  }

  lemma PayloadParts(f: FileAppraisal)
    requires Free('|', f.contentHash)
    ensures Split('|', Payload(f)) == Split('|', f.path) + [f.contentHash, SignedDecimal(f.valueCents)]
  {
    var cents := SignedDecimal(f.valueCents);
    DecimalFree(f.valueCents, '|');
    assert "|" == ['|'];
    SplitAt('|', f.path + ("|" + f.contentHash), cents);
    SplitAt('|', f.path, f.contentHash);
    SplitFree('|', f.contentHash);
    SplitFree('|', cents);
  }

  /** So different records never share a payload. */
  lemma PayloadInjective(f: FileAppraisal, g: FileAppraisal)
    requires Free('|', f.contentHash) && Free('|', g.contentHash) && Payload(f) == Payload(g)
    ensures f == g
  {
    DecimalFree(f.valueCents, '|');
    DecimalFree(g.valueCents, '|');
    LastSeparator('|', f.path + ("|" + f.contentHash), SignedDecimal(f.valueCents),
                  g.path + ("|" + g.contentHash), SignedDecimal(g.valueCents));
    LastSeparator('|', f.path, f.contentHash, g.path, g.contentHash);
    SignedDecimalInjective(f.valueCents, g.valueCents);
  }

  ghost function Payloads(files: seq<FileAppraisal>): set<string> {
    set i | 0 <= i < |files| :: Payload(files[i])
  }

  lemma LeavesWidth(sha: Sha, width: nat, files: seq<FileAppraisal>)
    requires FixedWidth(sha, width)
    ensures AllOfWidth(Leaves(sha, files), width)
  {
  }

  lemma SameLeaf(sha: Sha, fs: seq<FileAppraisal>, gs: seq<FileAppraisal>, i: nat)
    requires |fs| == |gs| && i < |fs| && Leaves(sha, fs) == Leaves(sha, gs)
    requires Free('|', fs[i].contentHash) && Free('|', gs[i].contentHash)
    requires NoCollision(sha, Payloads(fs) + Payloads(gs))
    ensures fs[i] == gs[i]
  {
    assert Leaves(sha, fs)[i] == Leaves(sha, gs)[i];
    assert Payload(fs[i]) in Payloads(fs) && Payload(gs[i]) in Payloads(gs);
    PayloadInjective(fs[i], gs[i]);
  }

  /** Two snapshots of the same number of files have the same root exactly when every path, content
      hash and value is the same, unless a string hashed for one of them collides. */
  lemma {:induction false} SnapshotBinding(sha: Sha, width: nat, fs: seq<FileAppraisal>, gs: seq<FileAppraisal>)
    requires |fs| == |gs| > 0 && FixedWidth(sha, width)
    requires forall i :: 0 <= i < |fs| ==> Free('|', fs[i].contentHash) && Free('|', gs[i].contentHash)
    requires NoCollision(sha, Payloads(fs) + Payloads(gs))
    requires NoCollision(sha, HashedInBuild(sha, Leaves(sha, fs)) + HashedInBuild(sha, Leaves(sha, gs)))
    ensures Root(sha, Leaves(sha, fs)) == Root(sha, Leaves(sha, gs)) <==> fs == gs
  {
    LeavesWidth(sha, width, fs);
    LeavesWidth(sha, width, gs);
    Binding(sha, width, Leaves(sha, fs), Leaves(sha, gs));
    if Leaves(sha, fs) == Leaves(sha, gs) {
      forall i | 0 <= i < |fs|
        ensures fs[i] == gs[i]
      {
        SameLeaf(sha, fs, gs, i);
      }
    }
  }
}
