/**
  What Build makes of a directory after any kind of exit: one task is reconciled
  by Reconcile, the whole list by Upto. The plan's Build is proved to compute
  Upto, and the protocol's Build steps to reach it.
 */
module Recovery {
  import opened Basics
  import opened Storage

  /** A listed object. */
  datatype Entry = Entry(digest: Digest, size: int)

  /** Surroundings of one Build: the digest function, --verify, and which
      renames the file system grants. */
  datatype Setup = Setup(hash: Hasher, verifyExisting: bool, renames: Digest -> bool)
  {
    predicate Fits(e: Entry, data: Bytes) { Verified(hash, data, e.digest, e.size) }
  }

  /** reconcileTask, with the status the previous state suggests. */
  function Reconcile(u: Setup, disk: Disk, e: Entry, hint: Status): (Disk, Status) {
    var d := e.digest;
    if hint.Committed? && d in disk.blob then (disk, Committed)
    else if d in disk.blob && u.Fits(e, disk.blob[d]) then (disk, Committed)
    else ReconcilePart(u, if u.verifyExisting then disk.RemoveBlob(d) else disk, e)
  }

  function ReconcilePart(u: Setup, disk: Disk, e: Entry): (Disk, Status) {
    var d := e.digest;
    if d !in disk.part then (disk.RemoveCtl(d), Pending)
    else if |disk.part[d]| < e.size then (disk, Pending)
    else if !u.Fits(e, disk.part[d]) then (disk.RemovePart(d).RemoveCtl(d), Pending)
    else if u.renames(d) then (disk.Promote(d).RemoveCtl(d), Committed)
    else (disk, Pending)
  }

  /** The status Build gives a task before reconciling it. */
  function Suggested(u: Setup, committed: set<Digest>, e: Entry): Status {
    if e.digest in committed && !u.verifyExisting then Committed else Pending
  }

  /** The directory and the statuses once the first k tasks are reconciled. */
  function Upto(u: Setup, disk: Disk, es: seq<Entry>, committed: set<Digest>, k: nat): (r: (Disk, seq<Status>))
    requires k <= |es|
    ensures |r.1| == k
  {
    if k == 0 then (disk, [])
    else
      var (disk', ss) := Upto(u, disk, es, committed, k - 1);
      var (disk'', s) := Reconcile(u, disk', es[k - 1], Suggested(u, committed, es[k - 1]));
      (disk'', ss + [s])
  }

  function Rebuild(u: Setup, disk: Disk, es: seq<Entry>, committed: set<Digest>): (Disk, seq<Status>) {
    Upto(u, disk, es, committed, |es|)
  }

  /** A digest is listed with one size. */
  ghost predicate Consistent(es: seq<Entry>) {
    forall i, j :: 0 <= i < |es| && 0 <= j < |es| && es[i].digest == es[j].digest ==> es[i].size == es[j].size
  }

  /** The bytes are of the listed size and digest. */
  ghost predicate Exact(u: Setup, e: Entry, data: Bytes) {
    && |data| == e.size && u.hash(e.digest.algorithm, data) == e.digest.hex
    && (e.digest.algorithm == "sha256" || e.digest.algorithm == "sha512")
  }

  ghost predicate BlobsFit(u: Setup, disk: Disk, es: seq<Entry>) {
    forall i :: 0 <= i < |es| && es[i].digest in disk.blob ==> Exact(u, es[i], disk.blob[es[i].digest])
  }

  // ------------------------------------------------------------ one task

  /** Reconciling touches nothing that belongs to another digest. */
  lemma ReconcileLocal(u: Setup, disk: Disk, e: Entry, hint: Status, x: Digest)
    requires x != e.digest
    ensures var disk' := Reconcile(u, disk, e, hint).0;
            && (x in disk'.part <==> x in disk.part) && (x in disk.part ==> disk'.part[x] == disk.part[x])
            && (x in disk'.blob <==> x in disk.blob) && (x in disk.blob ==> disk'.blob[x] == disk.blob[x])
            && (x in disk'.ctl <==> x in disk.ctl)
  {
  }

  /** What becomes of one object, file by file. A blob is taken on trust only when it
      is suggested. Otherwise one that is not exact goes when blobs are re-verified;
      an exact .part becomes the blob if the rename is granted; a .part that is short
      or exact stays, any other goes; and a control file stays only beside its .part. */
  lemma ReconcileOutcome(u: Setup, disk: Disk, e: Entry, hint: Status)
    ensures var (disk', s) := Reconcile(u, disk, e, hint);
            var d := e.digest;
            var exact := d in disk.part && Exact(u, e, disk.part[d]);
            if d in disk.blob && (hint.Committed? || Exact(u, e, disk.blob[d])) then disk' == disk && s.Committed?
            else if exact && u.renames(d) then
              && s.Committed? && d in disk'.blob && disk'.blob[d] == disk.part[d]
              && d !in disk'.part && d !in disk'.ctl
            else
              && s.Pending?
              && (d in disk'.blob <==> d in disk.blob && !u.verifyExisting)
              && (d in disk'.blob ==> disk'.blob[d] == disk.blob[d])
              && (d in disk'.part <==> d in disk.part && (|disk.part[d]| < e.size || exact))
              && (d in disk'.part ==> disk'.part[d] == disk.part[d])
              && (d in disk'.ctl <==> d in disk.ctl && d in disk'.part)
  {
  }

  /** A blob that fits its entry is neither removed nor rewritten. */
  lemma ReconcileKeepsGoodBlob(u: Setup, disk: Disk, e: Entry, hint: Status)
    requires e.digest in disk.blob && u.Fits(e, disk.blob[e.digest])
    ensures Reconcile(u, disk, e, hint) == (disk, Committed)
  {
  }

  lemma ReconcileFits(u: Setup, disk: Disk, es: seq<Entry>, k: nat, hint: Status)
    requires Consistent(es) && k < |es| && BlobsFit(u, disk, es)
    ensures BlobsFit(u, Reconcile(u, disk, es[k], hint).0, es)
  {
    var disk' := Reconcile(u, disk, es[k], hint).0;
    forall i | 0 <= i < |es| && es[i].digest in disk'.blob
      ensures u.Fits(es[i], disk'.blob[es[i].digest])
    {
      if es[i].digest != es[k].digest { ReconcileLocal(u, disk, es[k], hint, es[i].digest); }
    }
  }

  // --------------------------------------------------- state.json is a hint

  lemma {:induction false} UptoFits(u: Setup, disk: Disk, es: seq<Entry>, committed: set<Digest>, k: nat)
    requires Consistent(es) && BlobsFit(u, disk, es) && k <= |es|
    ensures BlobsFit(u, Upto(u, disk, es, committed, k).0, es)
  {
    if k > 0 {
      UptoFits(u, disk, es, committed, k - 1);
      ReconcileFits(u, Upto(u, disk, es, committed, k - 1).0, es, k - 1, Suggested(u, committed, es[k - 1]));
    }
  }

  lemma {:induction false} HintIgnored(u: Setup, disk: Disk, es: seq<Entry>, h: set<Digest>, h': set<Digest>, k: nat)
    requires k <= |es| && (u.verifyExisting || (Consistent(es) && BlobsFit(u, disk, es)))
    ensures Upto(u, disk, es, h, k) == Upto(u, disk, es, h', k)
  {
    if k > 0 {
      HintIgnored(u, disk, es, h, h', k - 1);
      if !u.verifyExisting {
        var disk' := Upto(u, disk, es, h, k - 1).0;
        UptoFits(u, disk, es, h, k - 1);
        assert es[k - 1].digest in disk'.blob ==> u.Fits(es[k - 1], disk'.blob[es[k - 1].digest]);
      }
    }
  }

  /** Until the first entry of digest d, nothing of d changes. */
  lemma {:induction false} UptoLocal(u: Setup, disk: Disk, es: seq<Entry>, h: set<Digest>, k: nat, d: Digest)
    requires k <= |es| && forall i :: 0 <= i < k ==> es[i].digest != d
    ensures var disk' := Upto(u, disk, es, h, k).0;
            && (d in disk'.blob <==> d in disk.blob) && (d in disk.blob ==> disk'.blob[d] == disk.blob[d])
  {
    if k > 0 {
      UptoLocal(u, disk, es, h, k - 1, d);
      ReconcileLocal(u, Upto(u, disk, es, h, k - 1).0, es[k - 1], Suggested(u, h, es[k - 1]), d);
    }
  }

  /** Whether d counts as unfit after k tasks: with a suggestion of d the blob
      is left as it is, without one it is not accepted. */
  lemma {:induction false} UnfitBlob(u: Setup, disk: Disk, es: seq<Entry>, f: nat, k: nat)
    requires Consistent(es) && !u.verifyExisting && f < k <= |es|
    requires forall i :: 0 <= i < f ==> es[i].digest != es[f].digest
    requires es[f].digest in disk.blob && !u.Fits(es[f], disk.blob[es[f].digest])
    ensures var d := es[f].digest;
            var (with, ss) := Upto(u, disk, es, {d}, k);
            var (without, ss') := Upto(u, disk, es, {}, k);
            && ss[f].Committed? && d in with.blob && with.blob[d] == disk.blob[d]
            && (ss'[f].Committed? ==> d in without.blob && u.Fits(es[f], without.blob[d]))
  {
    var d := es[f].digest;
    var with, without := Upto(u, disk, es, {d}, k - 1).0, Upto(u, disk, es, {}, k - 1).0;
    if k == f + 1 {
      UptoLocal(u, disk, es, {d}, f, d);
      UptoLocal(u, disk, es, {}, f, d);
    } else {
      UnfitBlob(u, disk, es, f, k - 1);
      if es[k - 1].digest != d {
        ReconcileLocal(u, with, es[k - 1], Suggested(u, {d}, es[k - 1]), d);
        ReconcileLocal(u, without, es[k - 1], Suggested(u, {}, es[k - 1]), d);
      }
    }
  }

  lemma FirstUnfit(u: Setup, disk: Disk, es: seq<Entry>, i: nat) returns (f: nat)
    requires Consistent(es) && i < |es|
    requires es[i].digest in disk.blob && !u.Fits(es[i], disk.blob[es[i].digest])
    ensures f < |es| && (forall j :: 0 <= j < f ==> es[j].digest != es[f].digest)
    ensures es[f].digest in disk.blob && !u.Fits(es[f], disk.blob[es[f].digest])
    decreases i
  {
    if j: nat :| j < i && es[j].digest == es[i].digest {
      f := FirstUnfit(u, disk, es, j);
    } else {
      f := i;
    }
  }

  /** Every previous state leads to the same statuses and the same files exactly
      when blobs are re-verified or the blobs that are there fit. */
  lemma StateIsOnlyAHintExactly(u: Setup, disk: Disk, es: seq<Entry>)
    requires Consistent(es)
    ensures (u.verifyExisting || BlobsFit(u, disk, es)) <==>
            forall h, h' :: Rebuild(u, disk, es, h) == Rebuild(u, disk, es, h')
  {
    if u.verifyExisting || BlobsFit(u, disk, es) {
      forall h, h'
        ensures Rebuild(u, disk, es, h) == Rebuild(u, disk, es, h')
      {
        HintIgnored(u, disk, es, h, h', |es|);
      }
    } else {
      var i :| 0 <= i < |es| && es[i].digest in disk.blob && !u.Fits(es[i], disk.blob[es[i].digest]);
      var f := FirstUnfit(u, disk, es, i);
      UnfitBlob(u, disk, es, f, |es|);
      assert Rebuild(u, disk, es, {es[f].digest}) != Rebuild(u, disk, es, {});
    }
  }

  // -------------------------------------------------------------- idempotence

  /** Reconciling e again changes nothing, whatever is suggested. */
  ghost predicate Settles(u: Setup, disk: Disk, e: Entry, s: Status) {
    && (forall hint :: Reconcile(u, disk, e, hint) == (disk, s))
    && (!s.Committed? && e.digest in disk.ctl ==> e.digest in disk.part)
  }

  /** What Settles says, without the quantifier. */
  predicate Quiet(u: Setup, disk: Disk, e: Entry, s: Status) {
    var d := e.digest;
    if d in disk.blob then s.Committed? && u.Fits(e, disk.blob[d])
    else
      && s.Pending?
      && (d in disk.part ==>
            |disk.part[d]| < e.size || (u.Fits(e, disk.part[d]) && !u.renames(d)))
      && (d !in disk.part ==> d !in disk.ctl)
  }

  lemma QuietSettles(u: Setup, disk: Disk, e: Entry, s: Status)
    requires Quiet(u, disk, e, s)
    ensures Settles(u, disk, e, s)
  {
    var d := e.digest;
    assert d !in disk.ctl ==> disk.RemoveCtl(d) == disk;
    assert d !in disk.blob ==> disk.RemoveBlob(d) == disk;
  }

  lemma ReconcileQuiet(u: Setup, disk: Disk, e: Entry, hint: Status)
    requires u.verifyExisting ==> !hint.Committed?
    requires u.verifyExisting || (e.digest in disk.blob ==> u.Fits(e, disk.blob[e.digest]))
    ensures var (disk', s) := Reconcile(u, disk, e, hint); Quiet(u, disk', e, s)
  {
  }

  lemma OthersStayQuiet(u: Setup, disk: Disk, e: Entry, hint: Status, o: Entry, s: Status)
    requires Quiet(u, disk, o, s) && (o.digest == e.digest ==> o == e)
    ensures Quiet(u, Reconcile(u, disk, e, hint).0, o, s)
  {
    if o.digest == e.digest {
      QuietSettles(u, disk, o, s);
    } else {
      ReconcileLocal(u, disk, e, hint, o.digest);
    }
  }

  lemma {:induction false} UptoQuiet(u: Setup, disk: Disk, es: seq<Entry>, h: set<Digest>, k: nat)
    requires Consistent(es) && k <= |es| && (u.verifyExisting || BlobsFit(u, disk, es))
    ensures var (disk', ss) := Upto(u, disk, es, h, k);
            forall i :: 0 <= i < k ==> Quiet(u, disk', es[i], ss[i])
  {
    if k > 0 {
      UptoQuiet(u, disk, es, h, k - 1);
      var (disk', ss) := Upto(u, disk, es, h, k - 1);
      var hint := Suggested(u, h, es[k - 1]);
      if !u.verifyExisting { UptoFits(u, disk, es, h, k - 1); }
      ReconcileQuiet(u, disk', es[k - 1], hint);
      forall i | 0 <= i < k - 1
        ensures Quiet(u, Reconcile(u, disk', es[k - 1], hint).0, es[i], ss[i])
      {
        OthersStayQuiet(u, disk', es[k - 1], hint, es[i], ss[i]);
      }
    }
  }

  lemma {:induction false} QuietUpto(u: Setup, disk: Disk, es: seq<Entry>, ss: seq<Status>, h: set<Digest>, k: nat)
    requires k <= |es| == |ss| && forall i :: 0 <= i < |es| ==> Quiet(u, disk, es[i], ss[i])
    ensures Upto(u, disk, es, h, k) == (disk, ss[..k])
  {
    if k > 0 {
      QuietUpto(u, disk, es, ss, h, k - 1);
      QuietSettles(u, disk, es[k - 1], ss[k - 1]);
      assert ss[..k] == ss[..k - 1] + [ss[k - 1]];
    }
  }

  /** A second Build, with whatever previous state, changes no status and no
      file; and no uncommitted task is left with a control file but no .part. */
  lemma RebuildIsIdempotent(u: Setup, disk: Disk, es: seq<Entry>, h: set<Digest>, h': set<Digest>)
    requires Consistent(es) && (u.verifyExisting || BlobsFit(u, disk, es))
    ensures var (disk', ss) := Rebuild(u, disk, es, h);
            && Rebuild(u, disk', es, h') == (disk', ss)
            && forall i :: 0 <= i < |es| && !ss[i].Committed? && es[i].digest in disk'.ctl ==>
                 es[i].digest in disk'.part
  {
    var (disk', ss) := Rebuild(u, disk, es, h);
    UptoQuiet(u, disk, es, h, |es|);
    QuietUpto(u, disk', es, ss, h', |es|);
    assert ss[..|es|] == ss;
    forall i | 0 <= i < |es| && !ss[i].Committed? && es[i].digest in disk'.ctl
      ensures es[i].digest in disk'.part
    {
      QuietSettles(u, disk', es[i], ss[i]);
    }
  }

  /** No Build, trusting or verifying, removes or rewrites a blob that fits. */
  lemma {:induction false} GoodBlobsStay(u: Setup, disk: Disk, es: seq<Entry>, h: set<Digest>, k: nat, d: Digest)
    requires k <= |es| && d in disk.blob
    requires forall i :: 0 <= i < |es| && es[i].digest == d ==> Exact(u, es[i], disk.blob[d])
    ensures var disk' := Upto(u, disk, es, h, k).0; d in disk'.blob && disk'.blob[d] == disk.blob[d]
  {
    if k > 0 {
      GoodBlobsStay(u, disk, es, h, k - 1, d);
      var disk' := Upto(u, disk, es, h, k - 1).0;
      if es[k - 1].digest == d {
        ReconcileKeepsGoodBlob(u, disk', es[k - 1], Suggested(u, h, es[k - 1]));
      } else {
        ReconcileLocal(u, disk', es[k - 1], Suggested(u, h, es[k - 1]), d);
      }
    }
  }

  /** After a verifying Build every blob that is there fits, whatever was there. */
  lemma VerifyingBuildRepairs(u: Setup, disk: Disk, es: seq<Entry>, h: set<Digest>, i: nat)
    requires Consistent(es) && u.verifyExisting && i < |es|
    ensures var (disk', ss) := Rebuild(u, disk, es, h);
            && (ss[i].Committed? <==> es[i].digest in disk'.blob)
            && (es[i].digest in disk'.blob ==> Exact(u, es[i], disk'.blob[es[i].digest]))
  {
    UptoQuiet(u, disk, es, h, |es|);
  }
}
