/**
  With pairwise distinct digests a blob is there exactly when its task is
  committed or about to be marked so. Blobs are then written once and for all.
 */
module ProtocolExact {
  import opened Basics
  import opened Storage
  import opened Protocol
  import opened ProtocolBase
  import opened ProtocolInvariant

  ghost predicate AllDistinct(c: Config) {
    forall m <- c.manifests :: Distinct(m.digests)
  }

  predicate Landed(t: Task) {
    t.status.Committed? || t.pc.CommitRmCtl? || t.pc.CommitMark?
  }

  ghost predicate Exact(s: State)
    requires s.proc.Shaped()
  {
    var p, blob := s.proc, s.env.disk.blob;
    && (p.Running?() ==>
          forall i :: 0 <= i < |p.tasks| && p.m.digests[i] in blob ==> Landed(p.tasks[i]))
    && (p.Building?() ==>
          && (forall i :: 0 <= i < p.phase.k && i < |p.tasks| && p.m.digests[i] in blob ==>
                p.tasks[i].status.Committed?)
          && (p.phase.k < |p.tasks| && Unpromoted(p.phase.at) ==> p.m.digests[p.phase.k] !in blob))
  }

  predicate Unpromoted(at: BuildPc) {
    at.BPart? || at.BRmPart? || at.BRmCtl? || at.BRename?
  }

  /** No blob of e is changed or taken away in e'. */
  ghost predicate Extends(e: Env, e': Env) {
    forall d :: d in e.disk.blob ==> d in e'.disk.blob && e'.disk.blob[d] == e.disk.blob[d]
  }

  /** What a step of one goroutine may do to the blobs. */
  ghost predicate Lands(d: Digest, e: Env, t: Task, m: Move) {
    m.Some? ==>
      && (m.value.0.Promote? ==> d !in e.disk.blob && Landed(m.value.1))
      && (Landed(t) ==> Landed(m.value.1))
      && !m.value.0.PutBlob? && !m.value.0.RmBlob?
  }

  predicate Committing(pc: Pc) { pc.Commit? || pc.CommitRmCtl? || pc.CommitMark? }

  lemma CommitLands(d: Digest, e: Env, t: Task, cancelled: bool, a: Answer)
    requires Committing(t.pc) && StatusInv(t, cancelled) && (d in e.disk.blob ==> Landed(t))
    ensures Lands(d, e, t, CommitStep(d, e, t, a))
  {
  }

  lemma RemoteLands(c: Config, d: Digest, e: Env, t: Task, cancelled: bool, a: Answer)
    requires Remote(t.pc) && StatusInv(t, cancelled)
    ensures Lands(d, e, t, TaskStep(c, d, e, t, cancelled, a))
  {
    RemoteShape(c, d, e, t, cancelled, a);
    hide TaskStep;
  }

  predicate Harmless(eff: Effect) { eff.Nothing? || eff.RmPart? || eff.RmCtl? }

  lemma LocalEffects(c: Config, d: Digest, e: Env, t: Task, cancelled: bool, a: Answer)
    ensures LoopStep(c, t, cancelled, a).Some? ==> Harmless(LoopStep(c, t, cancelled, a).value.0)
    ensures PrecheckStep(c, d, e, t, a).Some? ==> Harmless(PrecheckStep(c, d, e, t, a).value.0)
    ensures DiscardStep(d, e, t, a).Some? ==> Harmless(DiscardStep(d, e, t, a).value.0)
    ensures VerifyStep(c, d, e, t, a).Some? ==> Harmless(VerifyStep(c, d, e, t, a).value.0)
  {
    hide Whole, Verified;
  }

  lemma LocalLands(c: Config, d: Digest, e: Env, t: Task, cancelled: bool, a: Answer)
    requires !Remote(t.pc) && !Committing(t.pc) && StatusInv(t, cancelled)
    ensures Lands(d, e, t, TaskStep(c, d, e, t, cancelled, a))
  {
    LocalEffects(c, d, e, t, cancelled, a);
    if TaskStep(c, d, e, t, cancelled, a).Some? { CommittedIsDone(c, d, e, t, cancelled, a); }
    hide StatusInv, LoopStep, PrecheckStep, DiscardStep, VerifyStep, FindStep, ResolveStep, AddStep, PollStep, AltStep;
    hide CommitStep;
  }

  lemma TaskLands(c: Config, d: Digest, e: Env, t: Task, cancelled: bool, a: Answer)
    requires StatusInv(t, cancelled) && (d in e.disk.blob ==> Landed(t))
    ensures Lands(d, e, t, TaskStep(c, d, e, t, cancelled, a))
  {
    hide Lands, LoopStep, PrecheckStep, FindStep, ResolveStep, DiscardStep, AddStep, PollStep, AltStep, VerifyStep;
    if Committing(t.pc) {
      CommitLands(d, e, t, cancelled, a);
    } else if Remote(t.pc) {
      RemoteLands(c, d, e, t, cancelled, a);
    } else {
      LocalLands(c, d, e, t, cancelled, a);
    }
  }

  lemma BlobAfter(e: Env, d: Digest, eff: Effect)
    requires !eff.PutBlob? && !eff.RmBlob? && (eff.Promote? ==> d in e.disk.part)
    ensures Apply(e, d, eff).disk.blob == if eff.Promote? then e.disk.blob[d := e.disk.part[d]] else e.disk.blob
  {
  }

  lemma TaskDoingExact(c: Config, s: State, i: nat, a: Answer)
    requires c.WellFormed() && AllDistinct(c) && Inv(c, s) && Exact(s) && TaskDoing(c, s, i, a).Some?
    ensures var s' := TaskDoing(c, s, i, a).value; s'.proc.Shaped() && Exact(s') && Extends(s.env, s'.env)
  {
    var p, s', d := s.proc, TaskDoing(c, s, i, a).value, s.proc.m.digests[i];
    TaskLands(c, d, s.env, p.tasks[i], p.phase.cancelled, a);
    BlobAfter(s.env, d, TaskStep(c, d, s.env, p.tasks[i], p.phase.cancelled, a).value.0);
    forall j | 0 <= j < |p.tasks| && p.m.digests[j] in s'.env.disk.blob
      ensures Landed(s'.proc.tasks[j])
    {
      assert Distinct(p.m.digests);
    }
  }

  lemma CheckExact(c: Config, s: State, renames: bool)
    requires AllDistinct(c) && Inv(c, s) && Exact(s) && BuildDoing(c, s, renames).Some?
    requires s.proc.phase.at.BCheck? || s.proc.phase.at.BMark?
    ensures var s' := BuildDoing(c, s, renames).value; s'.proc.Shaped() && Exact(s') && s'.env == s.env
  {
  }

  lemma RepairExact(c: Config, s: State, renames: bool)
    requires AllDistinct(c) && Inv(c, s) && Exact(s) && BuildDoing(c, s, renames).Some?
    requires !s.proc.phase.at.BCheck? && !s.proc.phase.at.BMark? && !s.proc.phase.at.BManifest?
    ensures var s' := BuildDoing(c, s, renames).value; s'.proc.Shaped() && Exact(s') && Extends(s.env, s'.env)
  {
    hide RunBase, BuildBase, RunInv, Holding;
    var p := s.proc;
    assert Distinct(p.m.digests);
    var d := p.m.digests[p.phase.k];
    var (eff, p') := ReconcileStep(c, d, s.env, p, renames);
    ReconcileKept(c, d, s.env, p, renames);
    BlobAfter(s.env, d, eff);
    assert p'.tasks == p.tasks;
  }

  lemma StoreManifestExact(c: Config, s: State, renames: bool)
    requires c.WellFormed() && Inv(c, s) && Exact(s) && BuildDoing(c, s, renames).Some?
    requires s.proc.phase.at.BManifest?
    ensures var s' := BuildDoing(c, s, renames).value; s'.proc.Shaped() && Exact(s') && Extends(s.env, s'.env)
  {
    assert s.proc.m.id in s.env.disk.blob ==> StoreManifest(c, s.env, s.proc.m).Nothing?;
  }

  lemma FinishExact(c: Config, s: State)
    requires Inv(c, s) && Exact(s) && ProcessDoing(s, FinishBuild).Some?
    ensures var s' := ProcessDoing(s, FinishBuild).value; Exact(s') && Extends(s.env, s'.env)
  {
  }

  lemma AriaExact(c: Config, s: State, step: Step)
    requires step.AriaWrite? || step.AriaWriteBlob? || step.AriaEnd?
    requires Inv(c, s) && Exact(s) && AriaDoing(c, s, step).Some?
    ensures var s' := AriaDoing(c, s, step).value; s'.proc.Shaped() && Exact(s') && Extends(s.env, s'.env)
  {
  }

  lemma StepExact(c: Config, s: State, step: Step)
    requires c.WellFormed() && AllDistinct(c) && Inv(c, s) && Exact(s) && Do(c, s, step).Some?
    ensures var s' := Do(c, s, step).value; Exact(s') && Extends(s.env, s'.env)
  {
    match step
    case TaskDoes(i, a) => TaskDoingExact(c, s, i, a);
    case BuildDoes(renames) =>
      if s.proc.phase.at.BManifest? {
        StoreManifestExact(c, s, renames);
      } else if s.proc.phase.at.BCheck? || s.proc.phase.at.BMark? {
        CheckExact(c, s, renames);
      } else {
        RepairExact(c, s, renames);
      }
    case FinishBuild => FinishExact(c, s);
    case AriaWrite(_, _) | AriaWriteBlob(_, _) | AriaEnd(_) => AriaExact(c, s, step);
    case _ =>
  }

  /** Along any run the exactness holds and blobs only accumulate. */
  lemma {:induction false} FromExact(c: Config, s: State, steps: seq<Step>)
    requires c.WellFormed() && AllDistinct(c) && Inv(c, s) && Exact(s)
    requires From(c, s, steps).Some?
    ensures var s' := From(c, s, steps).value; Inv(c, s') && Exact(s') && Extends(s.env, s'.env)
    decreases |steps|
  {
    if steps != [] {
      StepInv(c, s, steps[0]);
      StepExact(c, s, steps[0]);
      FromExact(c, Do(c, s, steps[0]).value, steps[1..]);
    }
  }
}
