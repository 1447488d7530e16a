/** The plan of one image: its task list, its state file, and Build. */
module Planner {
  import opened Basics
  import opened Storage
  import opened Recovery

  /** One object as state.json keeps it. */
  datatype Record = Record(
    digest: Digest,
    size: int,
    status: Status,
    gid: string,
    url: string,
    expires: Option<int>,
    altUrls: seq<string>,
    retries: int,
    lastError: string,
    rangeUnsupported: bool,
    updatedAt: int)

  datatype StateFile = StateFile(manifest: Digest, objects: seq<Record>)

  /** A descriptor of the manifest: what to fetch and where else it may be. */
  datatype Descriptor = Descriptor(entry: Entry, urls: seq<string>)

  datatype Image = Image(id: Digest, raw: Bytes, objects: seq<Descriptor>)
  {
    function Entries(): seq<Entry> {
      seq(|objects|, i requires 0 <= i < |objects| => objects[i].entry)
    }
  }

  /** One second, the least time between two writes of state.json. */
  const SECOND := 1_000_000_000

  const MAX_ERROR := 500

  function Clip(message: string): string {
    if |message| > MAX_ERROR then message[..MAX_ERROR] else message
  }

  // ------------------------------------------------- what a mutator does to a task

  /** The record of a descriptor's new task. */
  function NewRecord(d: Descriptor): Record {
    Record(d.entry.digest, d.entry.size, Pending, "", "", None, d.urls, 0, "", false, 0)
  }

  function Updated(r: Record, status: Status, url: string, expires: Option<int>, gid: string, now: int): Record {
    r.(status := status,
       url := if url != "" then url else r.url,
       expires := if expires.Some? then expires else r.expires,
       gid := if gid != "" then gid else r.gid,
       updatedAt := now)
  }

  function Requeued(r: Record, message: string, now: int): Record {
    r.(retries := r.retries + 1, lastError := Clip(message), status := Pending, gid := "", updatedAt := now)
  }

  function Unresolved(r: Record, now: int): Record {
    r.(url := "", expires := None, gid := "", updatedAt := now)
  }

  function Unresumable(r: Record, now: int): Record {
    Unresolved(r, now).(rangeUnsupported := true)
  }

  function GivenUp(r: Record, message: string, now: int): Record {
    r.(retries := r.retries + 1, lastError := Clip(message), status := Failed, gid := "", updatedAt := now)
  }

  function Done(r: Record, now: int): Record {
    Unresolved(r, now).(status := Committed, lastError := "")
  }

  class ObjectTask {
    const digest: Digest
    const size: int
    var status: Status
    var gid: string
    var url: string
    var expires: Option<int>
    var altUrls: seq<string>
    var retries: int
    var lastError: string
    var rangeUnsupported: bool
    var updatedAt: int

    constructor (d: Descriptor)
      ensures View() == NewRecord(d)
    {
      digest, size, altUrls := d.entry.digest, d.entry.size, d.urls;
      status, gid, url, expires := Pending, "", "", None;
      retries, lastError, rangeUnsupported, updatedAt := 0, "", false, 0;
    }

    function View(): Record
      reads this
    {
      Record(digest, size, status, gid, url, expires, altUrls, retries, lastError, rangeUnsupported, updatedAt)
    }

    function Entry(): Entry { Recovery.Entry(digest, size) }
  }

  /** The image directory and what the file system grants in it. */
  class Directory {
    var disk: Disk
    var saved: Option<StateFile>
    var mirror: Option<Bytes>  // manifest.json
    var locked: bool
    ghost var lost: bool       // some write of state.json has failed
    const renames: Digest -> bool

    constructor (renames: Digest -> bool)
      ensures disk == EMPTY_DISK && saved == None && mirror == None && !locked && !lost && this.renames == renames
    {
      disk, saved, mirror, locked, this.renames := EMPTY_DISK, None, None, false, renames;
      lost := false;
    }
  }

  /** Several tasks, as records. */
  function Views(ts: seq<ObjectTask>): seq<Record>
    reads ts
  {
    seq(|ts|, i requires 0 <= i < |ts| reads ts => ts[i].View())
  }

  /** Bytes of the records that are, or are not, committed. */
  function SumWhere(rs: seq<Record>, committed: bool): int {
    if rs == [] then 0
    else SumWhere(rs[..|rs| - 1], committed) +
         if rs[|rs| - 1].status.Committed? == committed then rs[|rs| - 1].size else 0
  }

  function Total(rs: seq<Record>): int {
    if rs == [] then 0 else Total(rs[..|rs| - 1]) + rs[|rs| - 1].size
  }

  /** Byte conservation: what is done and what is left is the whole image. */
  lemma {:induction false} Conservation(rs: seq<Record>)
    ensures SumWhere(rs, true) + SumWhere(rs, false) == Total(rs)
  {
    if rs != [] { Conservation(rs[..|rs| - 1]); }
  }

  /** Changing one record changes the committed bytes by that object alone. */
  lemma {:induction false} Replaced(rs: seq<Record>, i: nat, r: Record)
    requires i < |rs| && r.size == rs[i].size
    ensures Total(rs[i := r]) == Total(rs)
    ensures SumWhere(rs[i := r], true) == SumWhere(rs, true) +
              (if r.status.Committed? then r.size else 0) - (if rs[i].status.Committed? then r.size else 0)
  {
    var n := |rs| - 1;
    if i < n {
      assert rs[i := r][..n] == rs[..n][i := r];
      Replaced(rs[..n], i, r);
    } else {
      assert rs[i := r][..n] == rs[..n];
    }
  }

  /** No mutator changes how many bytes the image has; one that requeues or gives
      up an uncommitted object leaves the committed bytes, and a commit adds its size. */
  lemma MutatorsConserve(rs: seq<Record>, i: nat, message: string, now: int)
    requires i < |rs| && !rs[i].status.Committed?
    ensures var r := rs[i];
            && Total(rs[i := Requeued(r, message, now)]) == Total(rs[i := GivenUp(r, message, now)]) == Total(rs)
            && Total(rs[i := Unresumable(r, now)]) == Total(rs[i := Done(r, now)]) == Total(rs)
            && SumWhere(rs[i := Requeued(r, message, now)], true) == SumWhere(rs, true)
            && SumWhere(rs[i := GivenUp(r, message, now)], true) == SumWhere(rs, true)
            && SumWhere(rs[i := Unresumable(r, now)], true) == SumWhere(rs, true)
            && SumWhere(rs[i := Done(r, now)], true) == SumWhere(rs, true) + r.size
  {
    Replaced(rs, i, Requeued(rs[i], message, now));
    Replaced(rs, i, GivenUp(rs[i], message, now));
    Replaced(rs, i, Unresumable(rs[i], now));
    Replaced(rs, i, Done(rs[i], now));
  }

  class Plan {
    const dir: Directory
    const hash: Hasher
    const manifest: Digest
    var objects: seq<ObjectTask>
    var lastSave: Option<int>

    ghost predicate Valid()
      reads this
    {
      Distinct(objects)
    }

    constructor (dir: Directory, hash: Hasher, manifest: Digest)
      ensures this.dir == dir && this.hash == hash && this.manifest == manifest
      ensures objects == [] && lastSave == None
    {
      this.dir, this.hash, this.manifest := dir, hash, manifest;
      objects, lastSave := [], None;
    }

    predicate Due(now: int)
      reads this
    {
      lastSave == None || now - lastSave.value >= SECOND
    }

    function Snapshot(): (r: StateFile)
      reads this, objects
      ensures r.manifest == manifest && |r.objects| == |objects|
      ensures forall i :: 0 <= i < |objects| ==>
                var t := objects[i];
                r.objects[i] == Record(t.digest, t.size, t.status, t.gid, t.url, t.expires, t.altUrls, t.retries,
                                       t.lastError, t.rangeUnsupported, t.updatedAt)
    {
      StateFile(manifest, Views(objects))
    }

    /** One call of persistLocked: when it is due, the throttle moves on, and the
        state file is a snapshot of all tasks, unless its write failed. */
    twostate predicate Persisted(now: int)
      reads this, objects, dir
    {
      if old(lastSave).Some? && now - old(lastSave).value < 1_000_000_000
      then lastSave == old(lastSave) && dir.saved == old(dir.saved) && dir.lost == old(dir.lost)
      else
        && lastSave == Some(now)
        && ((dir.saved == Some(Snapshot()) && dir.lost == old(dir.lost)) || (dir.saved == old(dir.saved) && dir.lost))
    }

    method PersistLocked(now: int) returns (ok: bool)
      modifies this`lastSave, dir`saved, dir`lost
      ensures Persisted(now)
      ensures ok ==> dir.lost == old(dir.lost) && (old(Due(now)) ==> dir.saved == Some(Snapshot()))
      ensures !ok ==> old(Due(now)) && dir.lost && dir.saved == old(dir.saved)
    {
      if !Due(now) { return true; }
      lastSave := Some(now);
      var records := [];
      for i := 0 to |objects|
        invariant records == Views(objects)[..i]
      {
        records := records + [objects[i].View()];
      }
      assert records == Views(objects);
      if * {
        dir.lost := true;
        return false;
      }
      dir.saved := Some(StateFile(manifest, records));
      return true;
    }

    method SetTask(t: ObjectTask, status: Status, url: string, expires: Option<int>, gid: string, now: int)
      modifies t, this`lastSave, dir`saved, dir`lost
      ensures t.View() == Updated(old(t.View()), status, url, expires, gid, now)
      ensures t.status == status && t.updatedAt == now
      ensures t.url == (if url == "" then old(t.url) else url) && t.gid == if gid == "" then old(t.gid) else gid
      ensures t.expires == if expires.None? then old(t.expires) else expires
      ensures t.altUrls == old(t.altUrls) && t.retries == old(t.retries)
      ensures t.lastError == old(t.lastError) && t.rangeUnsupported == old(t.rangeUnsupported)
      ensures Persisted(now)
    {
      t.status := status;
      if url != "" { t.url := url; }
      if expires.Some? { t.expires := expires; }
      if gid != "" { t.gid := gid; }
      t.updatedAt := now;
      var _ := PersistLocked(now);
    }

    method MarkRetry(t: ObjectTask, message: string, now: int)
      modifies t, this`lastSave, dir`saved, dir`lost
      ensures t.View() == Requeued(old(t.View()), message, now)
      ensures t.status.Pending? && t.retries == old(t.retries) + 1 && t.gid == "" && t.updatedAt == now
      ensures t.lastError == if |message| > 500 then message[..500] else message
      ensures t.url == old(t.url) && t.expires == old(t.expires) && t.altUrls == old(t.altUrls)
      ensures t.rangeUnsupported == old(t.rangeUnsupported)
      ensures Persisted(now)
    {
      t.retries := t.retries + 1;
      t.lastError := Clip(message);
      t.status := Pending;
      t.gid := "";
      t.updatedAt := now;
      var _ := PersistLocked(now);
    }

    method ForgetURL(t: ObjectTask, now: int)
      modifies t, this`lastSave, dir`saved, dir`lost
      ensures t.View() == Unresolved(old(t.View()), now)
      ensures t.url == "" && t.expires == None && t.gid == "" && t.updatedAt == now
      ensures t.status == old(t.status) && t.altUrls == old(t.altUrls)
      ensures t.retries == old(t.retries) && t.lastError == old(t.lastError)
      ensures t.rangeUnsupported == old(t.rangeUnsupported)
      ensures Persisted(now)
    {
      t.url, t.expires, t.gid := "", None, "";
      t.updatedAt := now;
      var _ := PersistLocked(now);
    }

    method PopAltURL(t: ObjectTask, now: int) returns (url: Option<string>)
      modifies t, this`lastSave, dir`saved, dir`lost
      ensures old(t.altUrls) == [] ==>
                && url == None && t.View() == old(t.View())
                && lastSave == old(lastSave) && dir.saved == old(dir.saved) && dir.lost == old(dir.lost)
      ensures old(t.altUrls) != [] ==>
                && url == Some(old(t.altUrls)[0])
                && t.View() == old(t.View()).(altUrls := old(t.altUrls)[1..], updatedAt := now)
                && t.altUrls == old(t.altUrls)[1..] && t.updatedAt == now && t.status == old(t.status)
                && t.url == old(t.url) && t.gid == old(t.gid) && t.retries == old(t.retries)
                && Persisted(now)
    {
      if |t.altUrls| == 0 { return None; }
      url := Some(t.altUrls[0]);
      t.altUrls := t.altUrls[1..];
      t.updatedAt := now;
      var _ := PersistLocked(now);
    }

    method MarkRangeUnsupported(t: ObjectTask, now: int)
      modifies t, this`lastSave, dir`saved, dir`lost
      ensures t.View() == Unresumable(old(t.View()), now)
      ensures t.rangeUnsupported && t.url == "" && t.expires == None && t.gid == "" && t.updatedAt == now
      ensures t.status == old(t.status) && t.altUrls == old(t.altUrls)
      ensures t.retries == old(t.retries) && t.lastError == old(t.lastError)
      ensures Persisted(now)
    {
      t.rangeUnsupported := true;
      t.url, t.expires, t.gid := "", None, "";
      t.updatedAt := now;
      var _ := PersistLocked(now);
    }

    method MarkFailed(t: ObjectTask, message: string, now: int)
      modifies t, this`lastSave, dir`saved, dir`lost
      ensures t.View() == GivenUp(old(t.View()), message, now)
      ensures t.status.Failed? && t.retries == old(t.retries) + 1 && t.gid == "" && t.updatedAt == now
      ensures t.lastError == if |message| > 500 then message[..500] else message
      ensures t.url == old(t.url) && t.expires == old(t.expires) && t.altUrls == old(t.altUrls)
      ensures t.rangeUnsupported == old(t.rangeUnsupported)
      ensures Persisted(now)
    {
      t.retries := t.retries + 1;
      t.lastError := Clip(message);
      t.status := Failed;
      t.gid := "";
      t.updatedAt := now;
      var _ := PersistLocked(now);
    }

    method MarkCommittedLocked(t: ObjectTask, now: int)
      modifies t, this`lastSave, dir`saved, dir`lost
      ensures t.View() == Done(old(t.View()), now)
      ensures t.status.Committed? && t.url == "" && t.expires == None && t.gid == "" && t.lastError == ""
      ensures t.updatedAt == now && t.retries == old(t.retries)
      ensures t.rangeUnsupported == old(t.rangeUnsupported) && t.altUrls == old(t.altUrls)
      ensures Persisted(now)
    {
      t.status := Committed;
      t.gid, t.url, t.expires, t.lastError := "", "", None, "";
      t.updatedAt := now;
      var _ := PersistLocked(now);
    }

    /** Moves a verified .part into blobs/ and marks the task. The caller has
        verified the .part; a rename that fails changes nothing. */
    method CommitFile(t: ObjectTask, now: int) returns (ok: bool)
      requires t.digest in dir.disk.part
      modifies t, this`lastSave, dir`saved, dir`lost, dir`disk
      ensures ok == dir.renames(t.digest)
      ensures !ok ==> t.View() == old(t.View()) && dir.disk == old(dir.disk)
      ensures !ok ==> dir.saved == old(dir.saved) && dir.lost == old(dir.lost)
      ensures ok ==>
                && dir.disk == old(dir.disk).Promote(t.digest).RemoveCtl(t.digest)
                && dir.disk.blob == old(dir.disk.blob)[t.digest := old(dir.disk.part)[t.digest]]
                && dir.disk.part == old(dir.disk.part) - {t.digest} && dir.disk.ctl == old(dir.disk.ctl) - {t.digest}
                && t.View() == Done(old(t.View()), now) && Persisted(now)
      ensures !ok ==> lastSave == old(lastSave)
    {
      ok := dir.renames(t.digest);
      if !ok { return; }
      dir.disk := dir.disk.Promote(t.digest);
      dir.disk := dir.disk.RemoveCtl(t.digest);
      MarkCommittedLocked(t, now);
    }

    /** blobExists. */
    predicate BlobExists(t: ObjectTask)
      reads dir`disk
    {
      t.digest in dir.disk.blob && Verified(hash, dir.disk.blob[t.digest], t.digest, t.size)
    }

    /** Whatever this plan has written is its own, unless a write was lost. */
    ghost predicate Ours()
      reads this, dir
    {
      lastSave.Some? && !dir.lost ==> dir.saved.Some? && dir.saved.value.manifest == manifest
    }

    method ReconcileTask(t: ObjectTask, verifyExisting: bool, now: int)
      requires t.status.Pending? || t.status.Committed?
      modifies t, this`lastSave, dir`saved, dir`lost, dir`disk
      ensures (dir.disk, t.status) ==
              Reconcile(Setup(hash, verifyExisting, dir.renames), old(dir.disk), t.Entry(), old(t.status))
      ensures t.retries == old(t.retries) && t.rangeUnsupported == old(t.rangeUnsupported)
      ensures old(Ours()) ==> Ours()
      ensures old(dir.lost) ==> dir.lost
    {
      var d := t.digest;
      if t.status.Committed? {
        if d in dir.disk.blob { return; }
        t.status := Pending;
      }
      if BlobExists(t) {
        t.status := Committed;
        return;
      }
      if verifyExisting && d in dir.disk.blob {
        dir.disk := dir.disk.RemoveBlob(d);
      }
      assert !verifyExisting || dir.disk == old(dir.disk).RemoveBlob(d);
      if d !in dir.disk.part {
        dir.disk := dir.disk.RemoveCtl(d);
      } else if |dir.disk.part[d]| == t.size {
        if Verified(hash, dir.disk.part[d], d, t.size) {
          var _ := CommitFile(t, now);
        } else {
          dir.disk := dir.disk.RemovePart(d);
          dir.disk := dir.disk.RemoveCtl(d);
        }
      } else if |dir.disk.part[d]| > t.size {
        dir.disk := dir.disk.RemovePart(d);
        dir.disk := dir.disk.RemoveCtl(d);
      } else {
        t.status := Pending;
      }
    }

    /** SaveFinal: the throttle is lifted first. */
    method SaveFinal(now: int) returns (ok: bool)
      modifies this`lastSave, dir`saved, dir`lost
      ensures lastSave == Some(now)
      ensures ok ==> dir.saved == Some(Snapshot()) && dir.lost == old(dir.lost)
      ensures !ok ==> dir.saved == old(dir.saved) && dir.lost
    {
      lastSave := None;
      ok := PersistLocked(now);
    }

    method Release(now: int)
      modifies this`lastSave, dir`saved, dir`lost, dir`locked
      ensures !dir.locked && lastSave == Some(now)
      ensures !dir.lost ==> dir.saved == Some(Snapshot())
      ensures dir.saved == Some(Snapshot()) || dir.saved == old(dir.saved)
    {
      var _ := SaveFinal(now);
      dir.locked := false;
    }

    // ------------------------------------------------------------- queries

    method TotalBytes() returns (n: int)
      ensures n == SumWhere(Views(objects), false)
      ensures n + SumWhere(Views(objects), true) == Total(Views(objects))
    {
      n := 0;
      for i := 0 to |objects|
        invariant n == SumWhere(Views(objects)[..i], false)
      {
        if !objects[i].status.Committed? { n := n + objects[i].size; }
        assert Views(objects)[..i + 1][..i] == Views(objects)[..i];
      }
      assert Views(objects)[..|objects|] == Views(objects);
      Conservation(Views(objects));
    }

    method DoneBytes() returns (n: int)
      ensures n == SumWhere(Views(objects), true)
      ensures n + SumWhere(Views(objects), false) == Total(Views(objects))
    {
      n := 0;
      for i := 0 to |objects|
        invariant n == SumWhere(Views(objects)[..i], true)
      {
        if objects[i].status.Committed? { n := n + objects[i].size; }
        assert Views(objects)[..i + 1][..i] == Views(objects)[..i];
      }
      assert Views(objects)[..|objects|] == Views(objects);
      Conservation(Views(objects));
    }

    /** The uncommitted tasks, each once and in list order. */
    method PendingObjects() returns (out: seq<ObjectTask>)
      ensures forall t :: t in out <==> t in objects && !t.status.Committed?
      ensures Valid() ==> Distinct(out)
    {
      out := [];
      for i := 0 to |objects|
        invariant forall t :: t in out <==> t in objects[..i] && !t.status.Committed?
        invariant Valid() ==> Distinct(out)
      {
        if !objects[i].status.Committed? { out := out + [objects[i]]; }
      }
    }

    method AllCommitted() returns (all: bool)
      ensures all <==> forall t :: t in objects ==> t.status.Committed?
    {
      for i := 0 to |objects|
        invariant forall t :: t in objects[..i] ==> t.status.Committed?
      {
        if !objects[i].status.Committed? { return false; }
      }
      return true;
    }
  }

  // ------------------------------------------------------------------- Build

  /** The previous objects by digest; a later record of one digest wins. */
  function Index(rs: seq<Record>): map<Digest, Record> {
    if rs == [] then map[] else Index(rs[..|rs| - 1])[rs[|rs| - 1].digest := rs[|rs| - 1]]
  }

  /** The records Build adopts: none from an absent or unreadable file, or from
      that of another manifest. */
  function Adopted(prev: Option<StateFile>, id: Digest): map<Digest, Record> {
    if prev.Some? && prev.value.manifest == id then Index(prev.value.objects) else map[]
  }

  function Trusted(adopted: map<Digest, Record>): set<Digest> {
    set d | d in adopted && adopted[d].status.Committed?
  }

  predicate Present(hash: Hasher, disk: Disk, image: Image) {
    image.id in disk.blob && Verified(hash, disk.blob[image.id], image.id, |image.raw|)
  }

  /** The directory after storeManifestBlob. */
  function WithManifest(hash: Hasher, disk: Disk, image: Image): Disk {
    if Present(hash, disk, image) then disk else disk.PutBlob(image.id, image.raw)
  }

  /** What a task keeps of its previous record. */
  predicate Carries(t: ObjectTask, adopted: map<Digest, Record>)
    reads t
  {
    var d := t.digest;
    && t.retries == (if d in adopted && adopted[d].status.Committed? then adopted[d].retries else 0)
    && t.rangeUnsupported == (d in adopted && !adopted[d].status.Committed? && adopted[d].rangeUnsupported)
  }

  /** The last record of its digest. */
  ghost predicate LastRecord(rs: seq<Record>, j: int) {
    0 <= j < |rs| && forall k :: j < k < |rs| ==> rs[k].digest != rs[j].digest
  }

  lemma {:induction false} IndexAt(rs: seq<Record>, j: nat)
    requires LastRecord(rs, j)
    ensures rs[j].digest in Index(rs) && Index(rs)[rs[j].digest] == rs[j]
  {
    if j < |rs| - 1 { IndexAt(rs[..|rs| - 1], j); }
  }

  lemma {:induction false} IndexFrom(rs: seq<Record>, d: Digest) returns (j: nat)
    requires d in Index(rs)
    ensures LastRecord(rs, j) && rs[j].digest == d
  {
    j := |rs| - 1;
    if rs[j].digest != d { j := IndexFrom(rs[..j], d); }
  }

  lemma IndexLast(rs: seq<Record>)
    ensures forall j :: LastRecord(rs, j) ==> rs[j].digest in Index(rs) && Index(rs)[rs[j].digest] == rs[j]
    ensures forall d :: d in Index(rs) ==> exists j :: LastRecord(rs, j) && rs[j].digest == d
  {
    hide Index;
    forall j | LastRecord(rs, j) ensures rs[j].digest in Index(rs) && Index(rs)[rs[j].digest] == rs[j] {
      IndexAt(rs, j);
    }
    forall d | d in Index(rs) ensures exists j :: LastRecord(rs, j) && rs[j].digest == d {
      var j := IndexFrom(rs, d);
    }
  }

  /** The digests whose last record in a state file of this manifest says committed. */
  ghost function SavedAsCommitted(saved: Option<StateFile>, id: Digest): set<Digest> {
    if saved.None? || saved.value.manifest != id then {}
    else
      var rs := saved.value.objects;
      set j | 0 <= j < |rs| && LastRecord(rs, j) && rs[j].status.Committed? :: rs[j].digest
  }

  lemma TrustedExactly(saved: Option<StateFile>, id: Digest)
    ensures Trusted(Adopted(saved, id)) == SavedAsCommitted(saved, id)
  {
    if saved.Some? { IndexLast(saved.value.objects); }
  }

  /** What a task takes over of the last record of its digest; and what it has
      where there is none. */
  ghost predicate TakesOver(t: ObjectTask, rs: seq<Record>)
    reads t
  {
    && (forall j :: LastRecord(rs, j) && rs[j].digest == t.digest ==>
          if rs[j].status.Committed? then t.retries == rs[j].retries && !t.rangeUnsupported
          else t.retries == 0 && t.rangeUnsupported == rs[j].rangeUnsupported)
    && ((forall j :: 0 <= j < |rs| ==> rs[j].digest != t.digest) ==> t.retries == 0 && !t.rangeUnsupported)
  }

  /** The directory and the statuses are those of a rebuild, and every task has what
      the state file, when it is one of this manifest, records of its digest. */
  ghost predicate Resumed(p: Plan, u: Setup, disk: Disk, es: seq<Entry>, saved: Option<StateFile>, id: Digest)
    reads p`objects, p.objects, p.dir`disk
  {
    var r := Rebuild(u, disk, es, SavedAsCommitted(saved, id));
    && |p.objects| == |es| && p.dir.disk == r.0
    && (forall i :: 0 <= i < |es| ==> p.objects[i].Entry() == es[i] && p.objects[i].status == r.1[i])
    && forall i :: 0 <= i < |es| ==>
         TakesOver(p.objects[i], if saved.Some? && saved.value.manifest == id then saved.value.objects else [])
  }

  /** Nothing is resumed: a rebuild without any suggestion, no retries, no mark. */
  ghost predicate Afresh(p: Plan, u: Setup, disk: Disk, es: seq<Entry>)
    reads p`objects, p.objects, p.dir`disk
  {
    var r := Rebuild(u, disk, es, {});
    && |p.objects| == |es| && p.dir.disk == r.0
    && forall i :: 0 <= i < |es| ==>
         var t := p.objects[i];
         t.Entry() == es[i] && t.status == r.1[i] && t.retries == 0 && !t.rangeUnsupported
  }

  lemma ResumedAfresh(p: Plan, u: Setup, disk: Disk, es: seq<Entry>, saved: Option<StateFile>, id: Digest)
    requires Resumed(p, u, disk, es, saved, id) && (saved.None? || saved.value.manifest != id)
    ensures Afresh(p, u, disk, es)
  {
    hide Upto;
    forall i | 0 <= i < |es| ensures p.objects[i].retries == 0 && !p.objects[i].rangeUnsupported {
      assert TakesOver(p.objects[i], []);
    }
  }

  lemma CarriesOver(t: ObjectTask, saved: Option<StateFile>, id: Digest)
    requires Carries(t, Adopted(saved, id))
    ensures TakesOver(t, if saved.Some? && saved.value.manifest == id then saved.value.objects else [])
  {
    if saved.Some? { IndexLast(saved.value.objects); }
  }

  lemma RestoredResumed(p: Plan, u: Setup, disk: Disk, es: seq<Entry>, saved: Option<StateFile>, id: Digest)
    requires |p.objects| == |es| && RestoredUpto(p, u, disk, es, Adopted(saved, id), |es|)
    ensures Resumed(p, u, disk, es, saved, id)
    ensures p.dir.disk == Rebuild(u, disk, es, SavedAsCommitted(saved, id)).0
  {
    TrustedExactly(saved, id);
    hide Adopted, Trusted, Carries, TakesOver, SavedAsCommitted, Upto;
    forall i | 0 <= i < |es|
      ensures TakesOver(p.objects[i], if saved.Some? && saved.value.manifest == id then saved.value.objects else [])
    {
      CarriesOver(p.objects[i], saved, id);
    }
  }

  /** Nothing is adopted from a state file that is absent, unreadable, or another
      manifest's; from one of this manifest, the last record of each digest. */
  method ReadPrevious(dir: Directory, readable: bool, id: Digest) returns (adopted: map<Digest, Record>)
    ensures adopted == Adopted(if readable then dir.saved else None, id)
    ensures !readable || dir.saved.None? || dir.saved.value.manifest != id ==> adopted == map[]
    ensures readable && dir.saved.Some? && dir.saved.value.manifest == id ==>
              var rs := dir.saved.value.objects;
              && (forall j :: LastRecord(rs, j) ==> rs[j].digest in adopted && adopted[rs[j].digest] == rs[j])
              && (forall d :: d in adopted ==> exists j :: LastRecord(rs, j) && rs[j].digest == d)
  {
    adopted := map[];
    if !readable || dir.saved.None? || dir.saved.value.manifest != id { return; }
    var rs := dir.saved.value.objects;
    for i := 0 to |rs|
      invariant adopted == Index(rs[..i])
    {
      adopted := adopted[rs[i].digest := rs[i]];
      assert rs[..i + 1][..i] == rs[..i];
    }
    assert rs[..|rs|] == rs;
    IndexLast(rs);
  }

  method AddTasks(image: Image) returns (ts: seq<ObjectTask>)
    ensures |ts| == |image.objects| && Distinct(ts)
    ensures forall i :: 0 <= i < |ts| ==> fresh(ts[i]) && ts[i].View() == NewRecord(image.objects[i])
    ensures forall i :: 0 <= i < |ts| ==>
              var t, o := ts[i], image.objects[i];
              && t.digest == o.entry.digest && t.size == o.entry.size && t.altUrls == o.urls && t.status.Pending?
              && t.retries == 0 && !t.rangeUnsupported && t.url == "" && t.gid == "" && t.expires == None
  {
    ts := [];
    for i := 0 to |image.objects|
      invariant |ts| == i && Distinct(ts)
      invariant forall k :: 0 <= k < i ==> fresh(ts[k]) && ts[k].View() == NewRecord(image.objects[k])
    {
      var t := new ObjectTask(image.objects[i]);
      ts := ts + [t];
    }
  }

  /** Adopts what the previous state says of one task, then reconciles it. */
  method Restore(p: Plan, t: ObjectTask, adopted: map<Digest, Record>, verifyExisting: bool, now: int)
    requires t.status.Pending? && t.retries == 0 && !t.rangeUnsupported
    requires p.Ours()
    modifies t, p`lastSave, p.dir`saved, p.dir`lost, p.dir`disk
    ensures var u := Setup(p.hash, verifyExisting, p.dir.renames);
            var hint := Suggested(u, Trusted(adopted), t.Entry());
            (p.dir.disk, t.status) == Reconcile(u, old(p.dir.disk), t.Entry(), hint)
    ensures Carries(t, adopted)
    ensures p.Ours()
  {
    var d := t.digest;
    if d in adopted {
      if adopted[d].status.Committed? {
        t.retries := adopted[d].retries;
        if !verifyExisting { t.status := Committed; }
      } else {
        t.rangeUnsupported := adopted[d].rangeUnsupported;
      }
    }
    p.ReconcileTask(t, verifyExisting, now);
  }

  /** The first k tasks have been restored, the others not. */
  ghost predicate RestoredUpto(p: Plan, u: Setup, disk: Disk, es: seq<Entry>, adopted: map<Digest, Record>, k: nat)
    requires |p.objects| == |es| && k <= |es|
    reads p`objects, p.objects, p.dir`disk
  {
    && p.dir.disk == Upto(u, disk, es, Trusted(adopted), k).0
    && (forall i :: 0 <= i < |es| ==> p.objects[i].Entry() == es[i])
    && (forall i :: 0 <= i < k ==>
          p.objects[i].status == Upto(u, disk, es, Trusted(adopted), k).1[i] && Carries(p.objects[i], adopted))
    && (forall i :: k <= i < |es| ==>
          p.objects[i].status.Pending? && p.objects[i].retries == 0 && !p.objects[i].rangeUnsupported)
  }

  method RestoreAll(p: Plan, es: seq<Entry>, adopted: map<Digest, Record>, verifyExisting: bool,
                    clock: nat -> int)
    requires p.Valid() && |p.objects| == |es|
    requires RestoredUpto(p, Setup(p.hash, verifyExisting, p.dir.renames), p.dir.disk, es, adopted, 0)
    requires p.Ours()
    modifies p.objects, p`lastSave, p.dir`saved, p.dir`lost, p.dir`disk
    ensures RestoredUpto(p, Setup(p.hash, verifyExisting, p.dir.renames), old(p.dir.disk), es, adopted, |es|)
    ensures p.Ours()
  {
    ghost var u, disk := Setup(p.hash, verifyExisting, p.dir.renames), p.dir.disk;
    for k := 0 to |p.objects|
      invariant RestoredUpto(p, u, disk, es, adopted, k)
      invariant p.Ours()
    {
      var t := p.objects[k];
      Restore(p, t, adopted, verifyExisting, clock(k));
      assert t.Entry() == es[k];
      assert forall i :: 0 <= i < |es| && i != k ==> p.objects[i] != t;
    }
  }

  /** storeManifestBlob: the blob unless it is there and fits, then its mirror; each
      write may fail. */
  method StoreManifestBlob(dir: Directory, hash: Hasher, image: Image) returns (ok: bool)
    modifies dir`disk, dir`mirror
    ensures ok ==>
              var was := old(dir.disk);
              if image.id in was.blob && |was.blob[image.id]| == |image.raw| &&
                 (image.id.algorithm == "sha256" || image.id.algorithm == "sha512") &&
                 hash(image.id.algorithm, was.blob[image.id]) == image.id.hex
              then dir.disk == was && dir.mirror == old(dir.mirror)
              else dir.disk == was.(blob := was.blob[image.id := image.raw]) && dir.mirror == Some(image.raw)
    ensures ok ==>
              && dir.disk == WithManifest(hash, old(dir.disk), image)
              && dir.mirror == if Present(hash, old(dir.disk), image) then old(dir.mirror) else Some(image.raw)
    ensures !ok ==>
              && !Present(hash, old(dir.disk), image) && dir.mirror == old(dir.mirror)
              && (dir.disk == old(dir.disk) || dir.disk == WithManifest(hash, old(dir.disk), image))
  {
    if Present(hash, dir.disk, image) { return true; }
    if * { return false; }
    dir.disk := dir.disk.PutBlob(image.id, image.raw);
    if * { return false; }
    dir.mirror := Some(image.raw);
    return true;
  }

  /** The plan before anything is restored. */
  method NewPlan(dir: Directory, hash: Hasher, image: Image) returns (p: Plan)
    ensures fresh(p) && p.dir == dir && p.hash == hash && p.manifest == image.id && p.lastSave.None?
    ensures p.Valid() && |p.objects| == |image.objects| && fresh(p.objects)
    ensures forall verifyExisting, adopted ::
              RestoredUpto(p, Setup(hash, verifyExisting, dir.renames), dir.disk, image.Entries(), adopted, 0)
  {
    p := new Plan(dir, hash, image.id);
    p.objects := AddTasks(image);
  }

  /** How a Build ends. */
  datatype Exit = Locked | NoDirectory | NoManifest | NoState | Built

  /** What Build has restored, as a whole. */
  ghost function Rebuilt(dir: Directory, hash: Hasher, image: Image, verifyExisting: bool, disk: Disk,
                   saved: Option<StateFile>): (Disk, seq<Status>)
  {
    Rebuild(Setup(hash, verifyExisting, dir.renames), WithManifest(hash, disk, image), image.Entries(),
            SavedAsCommitted(saved, image.id))
  }

  /** What each exit leaves behind in the directory, once it is locked. */
  twostate predicate Leaves(dir: Directory, hash: Hasher, image: Image, verifyExisting: bool, readable: bool,
                            exit: Exit)
    reads dir
  {
    match exit
    case Locked | NoDirectory =>
      dir.disk == old(dir.disk) && dir.saved == old(dir.saved) && dir.mirror == old(dir.mirror)
    case NoManifest =>
      && dir.saved == old(dir.saved) && dir.mirror == old(dir.mirror)
      && (dir.disk == old(dir.disk) || dir.disk == WithManifest(hash, old(dir.disk), image))
    case NoState | Built =>
      && dir.disk == Rebuilt(dir, hash, image, verifyExisting, old(dir.disk),
                             if readable then old(dir.saved) else None).0
      && dir.mirror == (if Present(hash, old(dir.disk), image) then old(dir.mirror) else Some(image.raw))
      && (exit.NoState? ==> dir.lost)
  }

  /** Build once the lock is held. */
  method BuildLocked(dir: Directory, hash: Hasher, image: Image, verifyExisting: bool, readable: bool,
                     clock: nat -> int)
    returns (r: Result<Plan, string>, ghost exit: Exit)
    modifies dir`disk, dir`saved, dir`mirror, dir`lost
    ensures !exit.Locked? && (exit.Built? <==> r.Success?) && Leaves(dir, hash, image, verifyExisting, readable, exit)
    ensures r.Success? ==>
              var p, es := r.value, image.Entries();
              && fresh(p) && p.Valid() && p.dir == dir && p.Ours() && p.lastSave.Some?
              && Resumed(p, Setup(hash, verifyExisting, dir.renames), WithManifest(hash, old(dir.disk), image), es,
                         if readable then old(dir.saved) else None, image.id)
  {
    hide Present, Upto, Trusted, Adopted, Carries, LastRecord, Resumed, SavedAsCommitted, RestoredUpto;
    if * { return Failure("mkdir"), NoDirectory; }
    var adopted := ReadPrevious(dir, readable, image.id);
    var stored := StoreManifestBlob(dir, hash, image);
    if !stored { return Failure("manifest"), NoManifest; }
    var p := NewPlan(dir, hash, image);
    RestoreAll(p, image.Entries(), adopted, verifyExisting, clock);
    RestoredResumed(p, Setup(hash, verifyExisting, dir.renames), WithManifest(hash, old(dir.disk), image),
                    image.Entries(), if readable then old(dir.saved) else None, image.id);
    var saved := p.PersistLocked(clock(|p.objects|));
    if !saved { return Failure("state.json"), NoState; }
    return Success(p), Built;
  }

  /** Builds or resumes the plan of an image. A directory locked by another process
      is left untouched; every other failure gives the lock back. When it gets as
      far as the tasks, the directory and the statuses are those of Rebuild, from the
      last records of a state file of this manifest, or from nothing. */
  method Build(dir: Directory, hash: Hasher, image: Image, verifyExisting: bool, readable: bool, clock: nat -> int)
    returns (r: Result<Plan, string>, ghost exit: Exit)
    modifies dir
    ensures (exit.Locked? <==> old(dir.locked)) && (exit.Built? <==> r.Success?)
    ensures dir.locked <==> exit.Locked? || exit.Built?
    ensures Leaves(dir, hash, image, verifyExisting, readable, exit)
    ensures r.Success? ==>
              var p, es := r.value, image.Entries();
              && p.Valid() && p.dir == dir && p.Ours() && p.lastSave.Some?
              && Resumed(p, Setup(hash, verifyExisting, dir.renames), WithManifest(hash, old(dir.disk), image), es,
                         if readable then old(dir.saved) else None, image.id)
    ensures r.Success? && (!readable || old(dir.saved).None? || old(dir.saved).value.manifest != image.id) ==>
              Afresh(r.value, Setup(hash, verifyExisting, dir.renames), WithManifest(hash, old(dir.disk), image),
                     image.Entries())
  {
    hide WithManifest, Present, Upto, SavedAsCommitted, Resumed, Afresh;
    if dir.locked { return Failure("image directory is locked by another imgpull process"), Locked; }
    dir.locked := true;
    r, exit := BuildLocked(dir, hash, image, verifyExisting, readable, clock);
    if r.Failure? {
      dir.locked := false;
    } else if !readable || old(dir.saved).None? || old(dir.saved).value.manifest != image.id {
      ResumedAfresh(r.value, Setup(hash, verifyExisting, dir.renames), WithManifest(hash, old(dir.disk), image),
                    image.Entries(), if readable then old(dir.saved) else None, image.id);
    }
  }
}
