/**
  What every step of the protocol keeps for every configuration, repeated digests
  included: where a goroutine is decides its status, attempts and the semaphore
  are bounded, and a run that returned nil has committed everything.
 */
module ProtocolBase {
  import opened Basics
  import opened Storage
  import opened Protocol

  /** The status a task has follows from where its goroutine is. */
  predicate StatusInv(t: Task, cancelled: bool) {
    match t.pc
    case Skipped | Sent(Ok) => t.status.Committed?
    case Sent(Fatal) | Sent(Exhausted) => t.status.Failed?
    case Doomed => !t.status.Committed?
    case Sent(Canceled) => cancelled && (t.status.Pending? || t.status.Downloading?)
    case _ => t.status.Pending? || t.status.Downloading?
  }

  /** The .part or the blob has been seen to have its listed size. */
  predicate Measured(t: Task) {
    t.status.Committed? || t.pc.Commit? || t.pc.CommitRmCtl? || t.pc.CommitMark?
  }

  predicate TaskBase(c: Config, d: Digest, t: Task, cancelled: bool) {
    && StatusInv(t, cancelled)
    && (Inside(t.pc) ==> 1 <= t.attempt <= c.maxRetries)
    && (Measured(t) ==> c.size(d) >= 0)
  }

  predicate BuildTask(c: Config, d: Digest, t: Task) {
    t.pc.Unlaunched? && (t.status.Pending? || (t.status.Committed? && c.size(d) >= 0))
  }

  predicate Renames(at: BuildPc) { at.BRename? || at.BCommitCtl? || at.BMark? }

  ghost predicate BuildTasks(c: Config, p: Proc)
    requires p.Up? && p.Shaped()
  {
    forall i :: 0 <= i < |p.tasks| ==> BuildTask(c, p.m.digests[i], p.tasks[i])
  }

  ghost predicate BuildBase(c: Config, p: Proc)
    requires p.Building?() && p.Shaped()
  {
    && BuildTasks(c, p)
    && (Renames(p.phase.at) ==> p.phase.k < |p.tasks| && c.size(p.m.digests[p.phase.k]) >= 0)
  }

  ghost predicate AllCommitted(p: Proc)
    requires p.Running?()
  {
    forall i :: 0 <= i < |p.tasks| ==> p.tasks[i].status.Committed?
  }

  ghost predicate RunBase(c: Config, p: Proc)
    requires p.Running?() && p.Shaped()
  {
    && Holding(p.tasks) <= c.concurrency
    && (forall i :: 0 <= i < |p.tasks| ==> TaskBase(c, p.m.digests[i], p.tasks[i], p.phase.cancelled))
    && (p.phase.returned == Some(true) ==> AllCommitted(p))
  }

  ghost predicate Base(c: Config, s: State) {
    && s.proc.Shaped()
    && (s.saved.Some? ==> forall d :: d in s.saved.value.committed ==> c.size(d) >= 0)
    && (s.proc.Building?() ==> BuildBase(c, s.proc))
    && (s.proc.Running?() ==> RunBase(c, s.proc))
  }

  // ---------------------------------------------------------- the semaphore

  lemma {:induction false} HoldingUpdate(ts: seq<Task>, i: nat, t: Task)
    requires i < |ts|
    ensures Holding(ts[i := t]) ==
            Holding(ts) - (if Inside(ts[i].pc) then 1 else 0) + (if Inside(t.pc) then 1 else 0)
  {
    if i > 0 {
      assert ts[i := t][1..] == ts[1..][i - 1 := t];
      HoldingUpdate(ts[1..], i - 1, t);
    } else {
      assert ts[i := t][1..] == ts[1..];
    }
  }

  lemma {:induction false} HoldingPositive(ts: seq<Task>, i: nat)
    requires i < |ts| && Inside(ts[i].pc)
    ensures Holding(ts) >= 1
  {
    if i > 0 { HoldingPositive(ts[1..], i - 1); }
  }

  lemma {:induction false} TwoInside(ts: seq<Task>, i: nat, j: nat)
    requires i < j < |ts| && Inside(ts[i].pc) && Inside(ts[j].pc)
    ensures Holding(ts) >= 2
  {
    if i > 0 { TwoInside(ts[1..], i - 1, j - 1); } else { HoldingPositive(ts[1..], j - 1); }
  }

  lemma {:induction false} NoneInside(ts: seq<Task>)
    requires forall i :: 0 <= i < |ts| ==> !Inside(ts[i].pc)
    ensures Holding(ts) == 0
  {
    if ts != [] { NoneInside(ts[1..]); }
  }

  // ------------------------------------------------------- one goroutine moves

  /** Only a goroutine that holds the semaphore touches anything shared. */
  lemma OutsideIsQuiet(c: Config, d: Digest, e: Env, t: Task, cancelled: bool, a: Answer)
    requires !Inside(t.pc) && TaskStep(c, d, e, t, cancelled, a).Some?
    ensures TaskStep(c, d, e, t, cancelled, a).value.0.Nothing?
    ensures Inside(TaskStep(c, d, e, t, cancelled, a).value.1.pc) ==> t.pc.Queued? && a.Go?
  {
  }

  predicate Remote(pc: Pc) { pc.Find? || pc.Resolve? || pc.Add? || pc.Wait? || pc.AltWait? }

  /** Where a step that waits for an outside answer may lead. */
  predicate RemoteTo(t: Task, t': Task, cancelled: bool) {
    && t'.attempt == t.attempt
    && (t'.status == t.status || t'.status.Downloading? || (t'.status.Failed? && t'.pc.Doomed?))
    && match t'.pc
       case Backoff | Doomed | Sent(Deadline) => true
       case Sent(Canceled) => cancelled
       case Resolve(_) => t.pc.Find?
       case Submit => t.pc.Resolve?
       case Wait(_) => t.pc.Resolve? || t.pc.Add?
       case AltWait => t.pc.Resolve? || (t.pc.AltWait? && t' == t)
       case Verify => t.pc.Wait? || t.pc.AltWait?
       case _ => false
  }

  ghost predicate RemoteMove(t: Task, m: Move, cancelled: bool) {
    m.Some? ==>
      && RemoteTo(t, m.value.1, cancelled)
      && (m.value.0.Nothing? || m.value.0.Launch? || m.value.0.Unlist? || m.value.0.Heard?)
  }

  lemma FindShape(d: Digest, e: Env, t: Task, cancelled: bool, a: Answer)
    requires t.pc.Find?
    ensures RemoteMove(t, FindStep(d, e, t, cancelled, a), cancelled)
  {
  }

  lemma ResolveShape(e: Env, t: Task, cancelled: bool, a: Answer)
    requires t.pc.Resolve?
    ensures RemoteMove(t, ResolveStep(e, t, cancelled, a), cancelled)
  {
  }

  lemma AddShape(e: Env, t: Task, cancelled: bool, a: Answer)
    requires t.pc.Add?
    ensures RemoteMove(t, AddStep(e, t, cancelled, a), cancelled)
  {
  }

  lemma PollShape(c: Config, d: Digest, e: Env, t: Task, cancelled: bool, a: Answer)
    requires t.pc.Wait?
    ensures RemoteMove(t, PollStep(c, d, e, t, cancelled, a), cancelled)
  {
    hide Whole;
  }

  lemma AltShape(c: Config, d: Digest, e: Env, t: Task, cancelled: bool, a: Answer)
    requires t.pc.AltWait?
    ensures RemoteMove(t, AltStep(c, d, e, t, cancelled, a), cancelled)
  {
    hide Whole;
  }

  lemma RemoteShape(c: Config, d: Digest, e: Env, t: Task, cancelled: bool, a: Answer)
    requires Remote(t.pc)
    ensures RemoteMove(t, TaskStep(c, d, e, t, cancelled, a), cancelled)
  {
    hide RemoteMove, FindStep, ResolveStep, AddStep, PollStep, AltStep;
    match t.pc
    case Find => FindShape(d, e, t, cancelled, a);
    case Resolve(_) => ResolveShape(e, t, cancelled, a);
    case Add(_) => AddShape(e, t, cancelled, a);
    case Wait(_) => PollShape(c, d, e, t, cancelled, a);
    case AltWait => AltShape(c, d, e, t, cancelled, a);
  }

  lemma RemoteBase(c: Config, d: Digest, e: Env, t: Task, cancelled: bool, a: Answer)
    requires TaskBase(c, d, t, cancelled) && Remote(t.pc) && TaskStep(c, d, e, t, cancelled, a).Some?
    ensures TaskBase(c, d, TaskStep(c, d, e, t, cancelled, a).value.1, cancelled)
  {
    RemoteShape(c, d, e, t, cancelled, a);
    hide TaskStep;
  }

  lemma LoopBase(c: Config, d: Digest, t: Task, cancelled: bool, a: Answer)
    requires c.WellFormed() && TaskBase(c, d, t, cancelled) && LoopStep(c, t, cancelled, a).Some?
    ensures TaskBase(c, d, LoopStep(c, t, cancelled, a).value.1, cancelled)
  {
  }

  lemma PrecheckBase(c: Config, d: Digest, e: Env, t: Task, cancelled: bool, a: Answer)
    requires TaskBase(c, d, t, cancelled)
    ensures PrecheckStep(c, d, e, t, a).Some? ==> TaskBase(c, d, PrecheckStep(c, d, e, t, a).value.1, cancelled)
    ensures DiscardStep(d, e, t, a).Some? ==> TaskBase(c, d, DiscardStep(d, e, t, a).value.1, cancelled)
  {
    hide Whole;
  }

  lemma CommitBase(c: Config, d: Digest, e: Env, t: Task, cancelled: bool, a: Answer)
    requires TaskBase(c, d, t, cancelled)
    ensures VerifyStep(c, d, e, t, a).Some? ==> TaskBase(c, d, VerifyStep(c, d, e, t, a).value.1, cancelled)
    ensures CommitStep(d, e, t, a).Some? ==> TaskBase(c, d, CommitStep(d, e, t, a).value.1, cancelled)
  {
    assert d in e.disk.part && c.Good(d, e.disk.part[d]) ==> c.size(d) >= 0;
    hide Verified;
  }

  lemma LocalBase(c: Config, d: Digest, e: Env, t: Task, cancelled: bool, a: Answer)
    requires TaskBase(c, d, t, cancelled) && !Remote(t.pc) && LoopStep(c, t, cancelled, a).None?
    requires TaskStep(c, d, e, t, cancelled, a).Some?
    ensures TaskBase(c, d, TaskStep(c, d, e, t, cancelled, a).value.1, cancelled)
  {
    PrecheckBase(c, d, e, t, cancelled, a);
    CommitBase(c, d, e, t, cancelled, a);
    hide TaskBase, LoopStep, PrecheckStep, DiscardStep, VerifyStep, CommitStep;
    hide FindStep, ResolveStep, AddStep, PollStep, AltStep;
  }

  /** A move of a goroutine keeps what holds of it. */
  lemma TaskBaseKept(c: Config, d: Digest, e: Env, t: Task, cancelled: bool, a: Answer)
    requires c.WellFormed() && TaskBase(c, d, t, cancelled) && TaskStep(c, d, e, t, cancelled, a).Some?
    ensures TaskBase(c, d, TaskStep(c, d, e, t, cancelled, a).value.1, cancelled)
  {
    hide PrecheckStep, FindStep, ResolveStep, DiscardStep, AddStep, PollStep, AltStep, VerifyStep, CommitStep, TaskBase;
    if Remote(t.pc) {
      RemoteBase(c, d, e, t, cancelled, a);
    } else if LoopStep(c, t, cancelled, a).Some? {
      LoopBase(c, d, t, cancelled, a);
    } else {
      LocalBase(c, d, e, t, cancelled, a);
    }
  }

  lemma TaskDoingBase(c: Config, s: State, i: nat, a: Answer)
    requires c.WellFormed() && Base(c, s) && TaskDoing(c, s, i, a).Some?
    ensures Base(c, TaskDoing(c, s, i, a).value)
  {
    var p, d := s.proc, s.proc.m.digests[i];
    var t, t' := p.tasks[i], TaskDoing(c, s, i, a).value.proc.tasks[i];
    TaskBaseKept(c, d, s.env, t, p.phase.cancelled, a);
    HoldingUpdate(p.tasks, i, t');
    if !Inside(t.pc) { OutsideIsQuiet(c, d, s.env, t, p.phase.cancelled, a); }
    CommittedIsDone(c, d, s.env, t, p.phase.cancelled, a);
  }

  lemma CommittedIsDone(c: Config, d: Digest, e: Env, t: Task, cancelled: bool, a: Answer)
    requires StatusInv(t, cancelled) && TaskStep(c, d, e, t, cancelled, a).Some?
    ensures !t.status.Committed?
  {
  }

  // ---------------------------------------------------------- the other steps

  lemma MarkBase(c: Config, p: Proc, status: Status)
    requires p.Building?() && p.Shaped() && BuildTasks(c, p) && p.phase.k < |p.tasks|
    requires status.Pending? || (status.Committed? && c.size(p.m.digests[p.phase.k]) >= 0)
    ensures p.Mark(status).Shaped() && BuildTasks(c, p.Mark(status))
  {
  }

  /** Where reconciling may lead: a mark of Committed or a rename needs something
      that has been measured. */
  lemma ReconcileShape(c: Config, d: Digest, e: Env, p: Proc, renames: bool)
    requires p.Building?() && p.phase.k < |p.tasks| && !p.phase.at.BManifest?
    requires Renames(p.phase.at) ==> c.size(d) >= 0
    ensures var p' := ReconcileStep(c, d, e, p, renames).1;
            && p'.Building?() && p'.m == p.m
            && (|| p'.tasks == p.tasks || p'.tasks == p.Mark(Pending).tasks
                || (c.size(d) >= 0 && p'.tasks == p.Mark(Committed).tasks))
            && (Renames(p'.phase.at) ==> p'.phase.k == p.phase.k && c.size(d) >= 0)
  {
    assert d in e.disk.blob && c.Good(d, e.disk.blob[d]) ==> c.size(d) >= 0;
    assert d in e.disk.part && c.Good(d, e.disk.part[d]) ==> c.size(d) >= 0;
    hide Verified;
  }

  lemma ReconcileBase(c: Config, d: Digest, e: Env, p: Proc, renames: bool)
    requires p.Building?() && p.Shaped() && BuildBase(c, p) && !p.phase.at.BManifest?
    requires p.phase.k < |p.tasks| && d == p.m.digests[p.phase.k]
    ensures var p' := ReconcileStep(c, d, e, p, renames).1;
            p'.Building?() && p'.Shaped() && p'.m == p.m && BuildBase(c, p')
  {
    ReconcileShape(c, d, e, p, renames);
    MarkBase(c, p, Pending);
    if c.size(d) >= 0 { MarkBase(c, p, Committed); }
    hide ReconcileStep, BuildTasks, Renames;
    var p' := ReconcileStep(c, d, e, p, renames).1;
    SameTasks(c, p, p');
    SameTasks(c, p.Mark(Pending), p');
    SameTasks(c, p.Mark(Committed), p');
  }

  lemma SameTasks(c: Config, p: Proc, p': Proc)
    requires p.Up? && p'.Up? && p'.m == p.m
    ensures p.Shaped() && BuildTasks(c, p) && p'.tasks == p.tasks ==> p'.Shaped() && BuildTasks(c, p')
  {
  }

  lemma BuildDoingBase(c: Config, s: State, renames: bool)
    requires c.WellFormed() && Base(c, s) && BuildDoing(c, s, renames).Some?
    ensures Base(c, BuildDoing(c, s, renames).value)
  {
    hide BuildBase, ReconcileStep, StoreManifest;
    var p := s.proc;
    if p.phase.at.BManifest? {
      ManifestBase(c, p);
    } else {
      ReconcileBase(c, p.m.digests[p.phase.k], s.env, p, renames);
    }
  }

  lemma ManifestBase(c: Config, p: Proc)
    requires p.Building?() && p.Shaped() && BuildBase(c, p)
    ensures p.To(BCheck).Shaped() && BuildBase(c, p.To(BCheck))
  {
  }

  lemma ProcessDoingBase(c: Config, s: State, step: Step)
    requires c.WellFormed() && Base(c, s)
    requires step.FinishBuild? || step.Save? || step.RunReturns? || step.WriteIndex? || step.Cancel? || step.Crash?
    requires ProcessDoing(s, step).Some?
    ensures Base(c, ProcessDoing(s, step).value)
  {
    if step.FinishBuild? { NoneInside(ProcessDoing(s, step).value.proc.tasks); }
  }

  lemma StepBase(c: Config, s: State, step: Step)
    requires c.WellFormed() && Base(c, s) && Do(c, s, step).Some?
    ensures Base(c, Do(c, s, step).value)
  {
    match step
    case TaskDoes(i, a) => TaskDoingBase(c, s, i, a);
    case BuildDoes(renames) => BuildDoingBase(c, s, renames);
    case FinishBuild | Save | RunReturns | WriteIndex | Cancel | Crash => ProcessDoingBase(c, s, step);
    case _ =>
  }

  /** Along any run, whatever digests its manifests repeat. */
  lemma {:induction false} FromBase(c: Config, s: State, steps: seq<Step>)
    requires c.WellFormed() && Base(c, s) && From(c, s, steps).Some?
    ensures Base(c, From(c, s, steps).value)
    decreases |steps|
  {
    if steps != [] {
      StepBase(c, s, steps[0]);
      FromBase(c, Do(c, s, steps[0]).value, steps[1..]);
    }
  }

  lemma ExecBase(c: Config, steps: seq<Step>)
    requires c.WellFormed() && Exec(c, steps).Some?
    ensures Base(c, Exec(c, steps).value)
  {
    FromBase(c, EMPTY, steps);
  }
}
