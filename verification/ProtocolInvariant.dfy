/**
  The inductive invariant of the protocol. It is kept by every step when two
  goroutines that hold the semaphore never work on one digest; Calm names the
  two ways a configuration guarantees that.
 */
module ProtocolInvariant {
  import opened Basics
  import opened Storage
  import opened Protocol
  import opened ProtocolBase

  ghost predicate Calm(c: Config) {
    c.concurrency == 1 || forall m <- c.manifests :: Distinct(m.digests)
  }

  ghost predicate NoWriter(live: map<Gid, Digest>, d: Digest) {
    forall g :: g in live ==> live[g] != d
  }

  /** What holds of one goroutine working on d. */
  ghost predicate TaskInv(c: Config, d: Digest, e: Env, t: Task) {
    && (t.status.Committed? ==> d in e.disk.blob)
    && (t.rangeUnsupported ==> e.answered200)
    && PartInv(c, d, e, t)
  }

  /** What holds of its .part and of aria2 while it is inside downloadObject:
      between an empty listing and addUri no live aria2 task has the target. */
  ghost predicate PartInv(c: Config, d: Digest, e: Env, t: Task) {
    var part := e.disk.part;
    match t.pc
    case PreRmPart => d in part && |part[d]| > c.size(d)
    case Resolve(None) | Submit => NoWriter(e.live, d)
    case Discard | DiscardRmPart => NoWriter(e.live, d) && (t.rangeUnsupported || e.blind)
    case DiscardRmCtl => NoWriter(e.live, d) && (t.rangeUnsupported || e.blind) && d !in part
    case Add(cleared) =>
      && NoWriter(e.live, d)
      && (if cleared then d !in part || |part[d]| == 0 else !t.rangeUnsupported)
    case Verify | BadRmPart => d in part && |part[d]| >= c.size(d)
    case Commit => d in part && c.Good(d, part[d])
    case CommitRmCtl | CommitMark => d in e.disk.blob
    case _ => true
  }

  /** At most one live aria2 task for any .part. */
  ghost predicate OneWriterEach(live: map<Gid, Digest>) {
    forall g, h :: g in live && h in live && live[g] == live[h] ==> g == h
  }

  ghost predicate EnvInv(c: Config, e: Env) {
    && (forall d :: d in e.disk.blob ==> c.Good(d, e.disk.blob[d]))
    && OneWriterEach(e.live)
    && (e.blind ==> e.answered200)
  }

  ghost predicate Stored(m: Manifest, blob: map<Digest, Bytes>) {
    m.id in blob && forall d :: d in m.digests ==> d in blob
  }

  ghost predicate BuildInv(c: Config, e: Env, p: Proc)
    requires p.Building?() && p.Shaped()
  {
    && (!p.phase.at.BManifest? ==> p.m.id in e.disk.blob)
    && (forall i :: 0 <= i < |p.tasks| ==>
          && p.tasks[i].pc.Unlaunched?
          && (p.tasks[i].status.Committed? ==> p.m.digests[i] in e.disk.blob)
          && (p.tasks[i].rangeUnsupported ==> e.answered200))
    && p.phase.k <= |p.tasks|
    && (p.phase.at.BManifest? ==> p.phase.k == 0)
    && (!p.phase.at.BManifest? && !p.phase.at.BCheck? ==>
          p.phase.k < |p.tasks| && CursorInv(c, e, p.m.digests[p.phase.k], p.phase.at))
  }

  ghost predicate CursorInv(c: Config, e: Env, d: Digest, at: BuildPc) {
    && !at.BRmBlob?
    && (at.BRename? ==> d in e.disk.part && c.Good(d, e.disk.part[d]))
    && (at.BRmPart? ==> d in e.disk.part && |e.disk.part[d]| >= c.size(d))
    && (at.BCommitCtl? || at.BMark? ==> d in e.disk.blob)
  }

  ghost predicate RunInv(c: Config, e: Env, p: Proc)
    requires p.Running?() && p.Shaped()
  {
    && p.m.id in e.disk.blob
    && forall i :: 0 <= i < |p.tasks| ==> TaskInv(c, p.m.digests[i], e, p.tasks[i])
  }

  /** What holds of blobs, writers and .part files, when goroutines keep apart. */
  ghost predicate Sound(c: Config, s: State)
    requires s.proc.Shaped()
  {
    && EnvInv(c, s.env)
    && (s.saved.Some? ==> s.saved.value.committed <= s.env.disk.blob.Keys)
    && (s.saved.Some? && s.saved.value.ranged != {} ==> s.env.answered200)
    && (s.index.Some? ==> Stored(s.index.value, s.env.disk.blob))
    && (s.proc.Up? ==> s.proc.m in c.manifests)
    && (s.proc.Building?() ==> BuildInv(c, s.env, s.proc))
    && (s.proc.Running?() ==> RunInv(c, s.env, s.proc))
  }

  ghost predicate Inv(c: Config, s: State) { Base(c, s) && Sound(c, s) }

  /** Two goroutines inside downloadObject work on different digests. */
  lemma Apart(c: Config, s: State, i: nat, j: nat)
    requires Calm(c) && Inv(c, s) && s.proc.Running?()
    requires i < |s.proc.tasks| && j < |s.proc.tasks| && i != j
    requires Inside(s.proc.tasks[i].pc) && Inside(s.proc.tasks[j].pc)
    ensures s.proc.m.digests[i] != s.proc.m.digests[j]
  {
    if c.concurrency == 1 {
      TwoInside(s.proc.tasks, if i < j then i else j, if i < j then j else i);
    }
  }

  // ------------------------------------------------- what one step may change

  /** When an effect on d keeps the shared invariant. */
  ghost predicate Allowed(c: Config, e: Env, d: Digest, eff: Effect) {
    match eff
    case Promote => d in e.disk.part && c.Good(d, e.disk.part[d])
    case PutBlob(data) => c.Good(d, data)
    case Launch(g) => g !in e.live && NoWriter(e.live, d)
    case RmBlob => false
    case _ => true
  }

  /** A step on behalf of d leaves every other .part alone, starts no other
      writer and never takes a blob or a latch back. */
  ghost predicate Frame(e: Env, e': Env, d: Digest) {
    && (forall x :: x != d ==> (x in e.disk.part <==> x in e'.disk.part))
    && (forall x :: x != d && x in e.disk.part ==> e.disk.part[x] == e'.disk.part[x])
    && e.disk.blob.Keys <= e'.disk.blob.Keys
    && (forall g :: g in e'.live && e'.live[g] != d ==> g in e.live && e.live[g] == e'.live[g])
    && (e.blind ==> e'.blind)
    && (e.answered200 ==> e'.answered200)
  }

  lemma ApplyKeeps(c: Config, e: Env, d: Digest, eff: Effect)
    requires EnvInv(c, e) && Allowed(c, e, d, eff)
    ensures EnvInv(c, Apply(e, d, eff)) && Frame(e, Apply(e, d, eff), d)
  {
  }

  lemma OtherTask(c: Config, d: Digest, e: Env, e': Env, x: Digest, t: Task)
    requires TaskInv(c, x, e, t) && Frame(e, e', d)
    requires x != d || !Inside(t.pc)
    ensures TaskInv(c, x, e', t)
  {
  }

  // ----------------------------------------------- the steps of one goroutine

  /** A move keeps the goroutine's invariant and is allowed. */
  ghost predicate Kept(c: Config, d: Digest, e: Env, m: Move) {
    m.Some? ==>
      && Allowed(c, e, d, m.value.0)
      && TaskInv(c, d, Apply(e, d, m.value.0), m.value.1)
  }

  lemma LoopKept(c: Config, d: Digest, e: Env, t: Task, cancelled: bool, a: Answer)
    requires c.WellFormed() && TaskInv(c, d, e, t)
    ensures Kept(c, d, e, LoopStep(c, t, cancelled, a))
  {
    hide NoWriter, Verified;
  }

  lemma PrecheckKept(c: Config, d: Digest, e: Env, t: Task, a: Answer)
    requires TaskInv(c, d, e, t)
    ensures Kept(c, d, e, PrecheckStep(c, d, e, t, a))
  {
  }

  lemma FindKept(c: Config, d: Digest, e: Env, t: Task, cancelled: bool, a: Answer)
    requires TaskInv(c, d, e, t) && t.pc.Find?
    ensures Kept(c, d, e, FindStep(d, e, t, cancelled, a))
  {
  }

  lemma ResolveKept(c: Config, d: Digest, e: Env, t: Task, cancelled: bool, a: Answer)
    requires EnvInv(c, e) && TaskInv(c, d, e, t) && t.pc.Resolve?
    ensures Kept(c, d, e, ResolveStep(e, t, cancelled, a))
  {
    hide Verified, NoWriter;
  }

  lemma DiscardKept(c: Config, d: Digest, e: Env, t: Task, a: Answer)
    requires TaskInv(c, d, e, t)
    ensures Kept(c, d, e, DiscardStep(d, e, t, a))
  {
  }

  lemma AddKept(c: Config, d: Digest, e: Env, t: Task, cancelled: bool, a: Answer)
    requires TaskInv(c, d, e, t) && t.pc.Add?
    ensures Kept(c, d, e, AddStep(e, t, cancelled, a))
  {
    hide Verified;
  }

  lemma PollKept(c: Config, d: Digest, e: Env, t: Task, cancelled: bool, a: Answer)
    requires EnvInv(c, e) && TaskInv(c, d, e, t) && t.pc.Wait?
    ensures Kept(c, d, e, PollStep(c, d, e, t, cancelled, a))
  {
    hide Verified, NoWriter;
  }

  lemma AltKept(c: Config, d: Digest, e: Env, t: Task, cancelled: bool, a: Answer)
    requires TaskInv(c, d, e, t) && t.pc.AltWait?
    ensures Kept(c, d, e, AltStep(c, d, e, t, cancelled, a))
  {
  }

  lemma VerifyKept(c: Config, d: Digest, e: Env, t: Task, a: Answer)
    requires TaskInv(c, d, e, t)
    ensures Kept(c, d, e, VerifyStep(c, d, e, t, a))
  {
    hide Verified, NoWriter;
  }

  lemma PromoteKept(c: Config, d: Digest, e: Env, t: Task, a: Answer)
    requires TaskInv(c, d, e, t) && t.pc.Commit?
    ensures Kept(c, d, e, CommitStep(d, e, t, a))
  {
    hide NoWriter;
  }

  lemma CommitKept(c: Config, d: Digest, e: Env, t: Task, a: Answer)
    requires TaskInv(c, d, e, t)
    ensures Kept(c, d, e, CommitStep(d, e, t, a))
  {
    hide NoWriter, Verified;
    if t.pc.Commit? { PromoteKept(c, d, e, t, a); }
  }

  lemma TaskKept(c: Config, d: Digest, e: Env, t: Task, cancelled: bool, a: Answer)
    requires c.WellFormed() && EnvInv(c, e) && TaskInv(c, d, e, t)
    ensures Kept(c, d, e, TaskStep(c, d, e, t, cancelled, a))
  {
    LoopKept(c, d, e, t, cancelled, a);
    PrecheckKept(c, d, e, t, a);
    DiscardKept(c, d, e, t, a);
    VerifyKept(c, d, e, t, a);
    CommitKept(c, d, e, t, a);
    match t.pc
    case Find => FindKept(c, d, e, t, cancelled, a);
    case Resolve(_) => ResolveKept(c, d, e, t, cancelled, a);
    case Add(_) => AddKept(c, d, e, t, cancelled, a);
    case Wait(_) => PollKept(c, d, e, t, cancelled, a);
    case AltWait => AltKept(c, d, e, t, cancelled, a);
    case _ =>
  }

  lemma TaskDoingSound(c: Config, s: State, i: nat, a: Answer)
    requires c.WellFormed() && Calm(c) && Inv(c, s) && TaskDoing(c, s, i, a).Some?
    ensures TaskDoing(c, s, i, a).value.proc.Shaped() && Sound(c, TaskDoing(c, s, i, a).value)
  {
    var p, s' := s.proc, TaskDoing(c, s, i, a).value;
    var d, t, cancelled := p.m.digests[i], p.tasks[i], p.phase.cancelled;
    var (eff, t') := TaskStep(c, d, s.env, t, cancelled, a).value;
    TaskKept(c, d, s.env, t, cancelled, a);
    ApplyKeeps(c, s.env, d, eff);
    if !Inside(t.pc) { OutsideIsQuiet(c, d, s.env, t, cancelled, a); }
    forall j | 0 <= j < |p.tasks|
      ensures TaskInv(c, p.m.digests[j], s'.env, s'.proc.tasks[j])
    {
      if j != i && !eff.Nothing? {
        if Inside(p.tasks[j].pc) { Apart(c, s, i, j); }
        OtherTask(c, d, s.env, s'.env, p.m.digests[j], p.tasks[j]);
      }
    }
  }

  // ------------------------------------------------------------------- build

  lemma ReconcileKept(c: Config, d: Digest, e: Env, p: Proc, renames: bool)
    requires EnvInv(c, e) && p.Building?() && p.Shaped() && BuildInv(c, e, p)
    requires p.phase.k < |p.tasks| && d == p.m.digests[p.phase.k] && !p.phase.at.BManifest?
    ensures Allowed(c, e, d, ReconcileStep(c, d, e, p, renames).0)
  {
  }

  /** Reconciling a task settles its status and the cursor's own condition. */
  lemma CheckSound(c: Config, d: Digest, e: Env, p: Proc, renames: bool)
    requires EnvInv(c, e) && p.Building?() && p.Shaped() && BuildInv(c, e, p)
    requires p.phase.k < |p.tasks| && d == p.m.digests[p.phase.k]
    requires p.phase.at.BCheck? || p.phase.at.BMark?
    ensures var p' := ReconcileStep(c, d, e, p, renames).1;
            p'.Building?() && p'.m == p.m && p'.Shaped() && BuildInv(c, e, p')
  {
  }

  lemma RepairSound(c: Config, d: Digest, e: Env, p: Proc, renames: bool)
    requires EnvInv(c, e) && p.Building?() && p.Shaped() && BuildInv(c, e, p)
    requires p.phase.k < |p.tasks| && d == p.m.digests[p.phase.k]
    requires !p.phase.at.BCheck? && !p.phase.at.BMark? && !p.phase.at.BManifest?
    ensures var (eff, p') := ReconcileStep(c, d, e, p, renames);
            p'.Building?() && p'.m == p.m && p'.Shaped() && BuildInv(c, Apply(e, d, eff), p')
  {
    var (eff, p') := ReconcileStep(c, d, e, p, renames);
    assert p'.tasks == p.tasks;
    assert e.disk.blob.Keys <= Apply(e, d, eff).disk.blob.Keys;
  }

  lemma BuildDoingSound(c: Config, s: State, renames: bool)
    requires c.WellFormed() && Inv(c, s) && BuildDoing(c, s, renames).Some?
    ensures BuildDoing(c, s, renames).value.proc.Shaped() && Sound(c, BuildDoing(c, s, renames).value)
  {
    hide RunBase, BuildBase;
    var p := s.proc;
    if p.phase.at.BManifest? {
      ApplyKeeps(c, s.env, p.m.id, StoreManifest(c, s.env, p.m));
    } else {
      var d := p.m.digests[p.phase.k];
      ReconcileKept(c, d, s.env, p, renames);
      if p.phase.at.BCheck? || p.phase.at.BMark? {
        CheckSound(c, d, s.env, p, renames);
      } else {
        RepairSound(c, d, s.env, p, renames);
      }
      ApplyKeeps(c, s.env, d, ReconcileStep(c, d, s.env, p, renames).0);
    }
  }

  lemma StartDoingSound(c: Config, s: State, m: Manifest, verifyExisting: bool, readable: bool)
    requires c.WellFormed() && Inv(c, s) && StartDoing(c, s, m, verifyExisting, readable).Some?
    ensures var s' := StartDoing(c, s, m, verifyExisting, readable).value; s'.proc.Shaped() && Sound(c, s')
  {
    hide RunBase, BuildBase, Verified;
  }

  lemma FinishBuildSound(c: Config, s: State)
    requires c.WellFormed() && Inv(c, s) && ProcessDoing(s, FinishBuild).Some?
    ensures ProcessDoing(s, FinishBuild).value.proc.Shaped() && Sound(c, ProcessDoing(s, FinishBuild).value)
  {
    hide RunBase, BuildBase, Verified;
  }

  lemma SaveSound(c: Config, s: State)
    requires Inv(c, s) && ProcessDoing(s, Save).Some?
    ensures ProcessDoing(s, Save).value.proc.Shaped() && Sound(c, ProcessDoing(s, Save).value)
  {
    hide RunBase, BuildBase, Verified;
  }

  /** index.json is written only when every blob of the manifest is there. */
  lemma WriteIndexSound(c: Config, s: State)
    requires Inv(c, s) && ProcessDoing(s, WriteIndex).Some?
    ensures ProcessDoing(s, WriteIndex).value.proc.Shaped() && Sound(c, ProcessDoing(s, WriteIndex).value)
  {
    assert AllCommitted(s.proc);
    assert forall i :: 0 <= i < |s.proc.tasks| ==> TaskInv(c, s.proc.m.digests[i], s.env, s.proc.tasks[i]);
  }

  lemma AriaDoingSound(c: Config, s: State, step: Step)
    requires step.AriaWrite? || step.AriaWriteBlob? || step.AriaEnd?
    requires Inv(c, s) && AriaDoing(c, s, step).Some?
    ensures AriaDoing(c, s, step).value.proc.Shaped() && Sound(c, AriaDoing(c, s, step).value)
  {
    hide RunBase, BuildBase, Verified, Stored;
  }

  lemma StepInv(c: Config, s: State, step: Step)
    requires c.WellFormed() && Calm(c) && Inv(c, s) && Do(c, s, step).Some?
    ensures Inv(c, Do(c, s, step).value)
  {
    StepBase(c, s, step);
    hide RunBase, BuildBase;
    match step
    case TaskDoes(i, a) => TaskDoingSound(c, s, i, a);
    case BuildDoes(renames) => BuildDoingSound(c, s, renames);
    case StartBuild(m, v, r) => StartDoingSound(c, s, m, v, r);
    case FinishBuild => FinishBuildSound(c, s);
    case Save => SaveSound(c, s);
    case WriteIndex => WriteIndexSound(c, s);
    case RunReturns | Cancel | Crash =>
    case AriaWrite(_, _) | AriaWriteBlob(_, _) | AriaEnd(_) => AriaDoingSound(c, s, step);
  }

  /** The invariant along any run from any state that has it. */
  lemma {:induction false} FromInv(c: Config, s: State, steps: seq<Step>)
    requires c.WellFormed() && Calm(c) && Inv(c, s)
    requires From(c, s, steps).Some?
    ensures Inv(c, From(c, s, steps).value)
    decreases |steps|
  {
    if steps != [] {
      StepInv(c, s, steps[0]);
      FromInv(c, Do(c, s, steps[0]).value, steps[1..]);
    }
  }

  lemma ExecInv(c: Config, steps: seq<Step>)
    requires c.WellFormed() && Calm(c) && Exec(c, steps).Some?
    ensures Inv(c, Exec(c, steps).value)
  {
    FromInv(c, EMPTY, steps);
  }
}
