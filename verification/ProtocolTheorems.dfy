/** What holds of every run of the protocol. */
module ProtocolTheorems {
  import opened Basics
  import opened Storage
  import opened Protocol
  import opened ProtocolBase
  import opened ProtocolInvariant
  import opened ProtocolExact
  import opened ProtocolDurable
  import opened ProtocolProgress

  // -------------------------------------------------------------- blob store

  /** Every blob has the digest it is named by and its listed size, and every
      task counted as committed has its blob. */
  ghost predicate Safe(c: Config, s: State)
    requires s.proc.Shaped()
  {
    && (forall d :: d in s.env.disk.blob ==>
          |s.env.disk.blob[d]| == c.size(d) && c.hash(d.algorithm, s.env.disk.blob[d]) == d.hex)
    && (s.proc.Up? ==>
          forall i :: 0 <= i < |s.proc.tasks| && s.proc.tasks[i].status.Committed? ==>
            s.proc.m.digests[i] in s.env.disk.blob)
  }

  lemma InvSafe(c: Config, s: State)
    requires Inv(c, s)
    ensures Safe(c, s)
  {
    if s.proc.Running?() {
      assert forall i :: 0 <= i < |s.proc.tasks| ==>
          TaskInv(c, s.proc.m.digests[i], s.env, s.proc.tasks[i]);
    }
  }

  /** Blob store safety over every run from an empty directory. */
  lemma BlobStoreSafe(c: Config, steps: seq<Step>)
    requires c.WellFormed() && Calm(c) && Exec(c, steps).Some?
    ensures Safe(c, Exec(c, steps).value)
    ensures var blob := Exec(c, steps).value.env.disk.blob;
            forall d :: d in blob ==>
              && |blob[d]| == c.size(d) && c.hash(d.algorithm, blob[d]) == d.hex
              && (d.algorithm == "sha256" || d.algorithm == "sha512")
  {
    ExecInv(c, steps);
    InvSafe(c, Exec(c, steps).value);
  }

  /** index.json names a manifest only while the manifest blob and every config
      and layer blob of it are present and verified, whatever happened since. */
  lemma IndexSound(c: Config, steps: seq<Step>)
    requires c.WellFormed() && Calm(c) && Exec(c, steps).Some? && Exec(c, steps).value.index.Some?
    ensures var s := Exec(c, steps).value;
            var m, blob := s.index.value, s.env.disk.blob;
            && m.id in blob
            && (forall d :: d in m.digests ==> d in blob)
            && forall d :: d == m.id || d in m.digests ==>
                 |blob[d]| == c.size(d) && c.hash(d.algorithm, blob[d]) == d.hex
  {
    ExecInv(c, steps);
  }

  // -------------------------------------------------------------------- aria2

  /** An empty directory, beside an aria2 daemon that is already busy. */
  function Started(live: map<Gid, Digest>): State { EMPTY.(env := EMPTY.env.(live := live)) }

  /** If no .part had two live writers at the start, none ever has. */
  lemma SingleWriter(c: Config, live: map<Gid, Digest>, steps: seq<Step>)
    requires c.WellFormed() && Calm(c) && OneWriterEach(live) && From(c, Started(live), steps).Some?
    ensures OneWriterEach(From(c, Started(live), steps).value.env.live)
  {
    FromInv(c, Started(live), steps);
  }

  /** The goroutine of d is about to discard its .part, being marked un-resumable. */
  ghost predicate Discards(s: State, step: Step, d: Digest)
    requires s.proc.Shaped()
  {
    && step.TaskDoes? && s.proc.Running?() && step.i < |s.proc.tasks|
    && s.proc.m.digests[step.i] == d
    && s.proc.tasks[step.i].pc.DiscardRmPart?
    && (s.proc.tasks[step.i].rangeUnsupported || s.env.blind)
    && s.env.answered200
  }

  ghost predicate Partial(c: Config, d: Digest, part: map<Digest, Bytes>) {
    d in part && 0 < |part[d]| < c.size(d)
  }

  /** The .part of x survives, as a prefix of what is there afterwards. */
  ghost predicate Survives(e: Env, e': Env, x: Digest) {
    x in e.disk.part ==> x in e'.disk.part && e.disk.part[x] <= e'.disk.part[x]
  }

  lemma ApplyResume(e: Env, d: Digest, eff: Effect, x: Digest)
    requires eff.Promote? ==> d in e.disk.part
    requires x == d ==> !eff.RmPart? && !eff.Promote?
    ensures Survives(e, Apply(e, d, eff), x)
  {
  }

  /** Where a goroutine removes or renames its .part, by its invariant. */
  lemma TaskRemoves(c: Config, d: Digest, e: Env, t: Task, cancelled: bool, a: Answer)
    requires PartInv(c, d, e, t) && TaskStep(c, d, e, t, cancelled, a).Some?
    requires TaskStep(c, d, e, t, cancelled, a).value.0.RmPart? || TaskStep(c, d, e, t, cancelled, a).value.0.Promote?
    ensures t.pc.DiscardRmPart? || (d in e.disk.part && |e.disk.part[d]| >= c.size(d))
  {
    hide NoWriter;
    match t.pc
    case Start | PreSize | PreExists | PreRmPart | PreRmCtl =>
      hide LoopStep, FindStep, ResolveStep, AddStep, PollStep, AltStep, VerifyStep, CommitStep, DiscardStep;
    case Verify | BadRmPart | BadRmCtl | Commit | CommitRmCtl | CommitMark =>
      hide LoopStep, PrecheckStep, FindStep, ResolveStep, AddStep, PollStep, AltStep, DiscardStep;
    case _ =>
      hide PrecheckStep, VerifyStep, CommitStep;
  }

  lemma ReconcileRemoves(c: Config, d: Digest, e: Env, p: Proc, renames: bool)
    requires p.Building?() && p.Shaped() && BuildInv(c, e, p)
    requires p.phase.k < |p.tasks| && d == p.m.digests[p.phase.k] && !p.phase.at.BManifest?
    requires ReconcileStep(c, d, e, p, renames).0.RmPart? || ReconcileStep(c, d, e, p, renames).0.Promote?
    ensures d in e.disk.part && |e.disk.part[d]| >= c.size(d)
  {
  }

  lemma ResumeTask(c: Config, s: State, i: nat, a: Answer, x: Digest)
    requires Inv(c, s) && TaskDoing(c, s, i, a).Some? && Partial(c, x, s.env.disk.part)
    ensures Survives(s.env, TaskDoing(c, s, i, a).value.env, x) || Discards(s, TaskDoes(i, a), x)
  {
    hide RunBase, BuildBase, Apply;
    var p := s.proc;
    var d := p.m.digests[i];
    assert TaskInv(c, d, s.env, p.tasks[i]);
    hide TaskStep;
    var eff := TaskStep(c, d, s.env, p.tasks[i], p.phase.cancelled, a).value.0;
    if x == d && (eff.RmPart? || eff.Promote?) {
      TaskRemoves(c, d, s.env, p.tasks[i], p.phase.cancelled, a);
    } else {
      ApplyResume(s.env, d, eff, x);
    }
  }

  lemma ResumeBuild(c: Config, s: State, renames: bool, x: Digest)
    requires Inv(c, s) && BuildDoing(c, s, renames).Some? && Partial(c, x, s.env.disk.part)
    ensures Survives(s.env, BuildDoing(c, s, renames).value.env, x)
  {
    hide RunBase, BuildBase;
    var p := s.proc;
    if !p.phase.at.BManifest? {
      var d := p.m.digests[p.phase.k];
      var eff := ReconcileStep(c, d, s.env, p, renames).0;
      if x == d && (eff.RmPart? || eff.Promote?) {
        ReconcileRemoves(c, d, s.env, p, renames);
      } else {
        ApplyResume(s.env, d, eff, x);
      }
    }
  }

  /** Resume progress: no step takes bytes away from a partial .part, except a
      discard after some ranged GET was answered with a full body. */
  lemma ResumeKept(c: Config, s: State, step: Step, x: Digest)
    requires Inv(c, s) && Do(c, s, step).Some? && Partial(c, x, s.env.disk.part)
    ensures Survives(s.env, Do(c, s, step).value.env, x) || Discards(s, step, x)
  {
    hide RunBase, BuildBase, Sound, TaskDoing, BuildDoing;
    match step
    case TaskDoes(i, a) => ResumeTask(c, s, i, a, x);
    case BuildDoes(renames) => ResumeBuild(c, s, renames, x);
    case _ =>
  }

  /** The same over whole runs, crashes and rebuilds included: every step of every
      run keeps every partial .part, or is such a discard. */
  lemma ResumeNeverLost(c: Config, steps: seq<Step>, step: Step, x: Digest)
    requires c.WellFormed() && Calm(c) && Exec(c, steps).Some?
    requires Do(c, Exec(c, steps).value, step).Some?
    requires Partial(c, x, Exec(c, steps).value.env.disk.part)
    ensures var s := Exec(c, steps).value; Survives(s.env, Do(c, s, step).value.env, x) || Discards(s, step, x)
  {
    ExecInv(c, steps);
    ResumeKept(c, Exec(c, steps).value, step, x);
  }

  /** Once the task is marked, or the flags were tested true, addUri finds no
      bytes to resume from, and nothing else writing them. */
  lemma AddUriStartsClean(c: Config, steps: seq<Step>, i: nat)
    requires c.WellFormed() && Calm(c) && Exec(c, steps).Some?
    requires var p := Exec(c, steps).value.proc;
             p.Running?() && i < |p.tasks| && p.tasks[i].pc.Add? &&
             (p.tasks[i].rangeUnsupported || p.tasks[i].pc.cleared)
    ensures var s := Exec(c, steps).value;
            var d := s.proc.m.digests[i];
            && (d in s.env.disk.part ==> s.env.disk.part[d] == [])
            && NoWriter(s.env.live, d)
  {
    ExecInv(c, steps);
    var s := Exec(c, steps).value;
    assert TaskInv(c, s.proc.m.digests[i], s.env, s.proc.tasks[i]);
  }

  /** From a test that found a flag set to the addUri it leads to. */
  predicate Clearing(pc: Pc) { pc.Discard? || pc.DiscardRmPart? || pc.DiscardRmCtl? || pc == Add(true) }

  /** Goroutine i calls addUri nowhere along a run. */
  ghost predicate CallsNothing(c: Config, s: State, steps: seq<Step>, i: nat)
    requires s.proc.Running?() && s.proc.Shaped() && i < |s.proc.tasks|
    requires Crash !in steps && From(c, s, steps).Some?
    decreases |steps|
  {
    steps == [] ||
    (!(steps[0].TaskDoes? && steps[0].i == i && s.proc.tasks[i].pc.Add?) && (
       StaysUp(c, s, steps[..1]);
       CallsNothing(c, Do(c, s, steps[0]).value, steps[1..], i)))
  }

  lemma ClearingStep(c: Config, s: State, step: Step, i: nat)
    requires s.proc.Running?() && s.proc.Shaped() && i < |s.proc.tasks| && Clearing(s.proc.tasks[i].pc)
    requires step != Crash && Do(c, s, step).Some? && !(step.TaskDoes? && step.i == i && s.proc.tasks[i].pc.Add?)
    ensures var p' := Do(c, s, step).value.proc; SameRun(s.proc, p') && Clearing(p'.tasks[i].pc)
  {
    hide LoopStep, PrecheckStep, FindStep, ResolveStep, AddStep, PollStep, AltStep, VerifyStep, CommitStep;
    if !step.TaskDoes? { OtherStep(c, s, step); }
  }

  lemma {:induction false} ClearingRun(c: Config, s: State, steps: seq<Step>, i: nat)
    requires s.proc.Running?() && s.proc.Shaped() && i < |s.proc.tasks| && Clearing(s.proc.tasks[i].pc)
    requires Crash !in steps && From(c, s, steps).Some? && CallsNothing(c, s, steps, i)
    ensures SameRun(s.proc, From(c, s, steps).value.proc)
    ensures Clearing(From(c, s, steps).value.proc.tasks[i].pc)
    decreases |steps|
  {
    if steps != [] {
      assert steps[0] in steps;
      ClearingStep(c, s, steps[0], i);
      hide Do, Clearing;
      ClearingRun(c, Do(c, s, steps[0]).value, steps[1..], i);
    }
  }

  /** A goroutine whose test of the flags finds one set makes its next addUri call,
      whatever the others do until then, with no bytes to resume from and no other
      writer. */
  lemma MarkedAddsClean(c: Config, before: seq<Step>, i: nat, after: seq<Step>)
    requires c.WellFormed() && Calm(c) && Exec(c, before).Some?
    requires var s := Exec(c, before).value;
             s.proc.Running?() && i < |s.proc.tasks| && s.proc.tasks[i].pc.Submit? &&
             (s.proc.tasks[i].rangeUnsupported || s.env.blind) && TaskDoing(c, s, i, Go).Some?
    requires var s' := TaskDoing(c, Exec(c, before).value, i, Go).value;
             && s'.proc.Shaped() && Crash !in after && From(c, s', after).Some? && CallsNothing(c, s', after, i)
             && From(c, s', after).value.proc.Running?() && i < |From(c, s', after).value.proc.tasks|
             && From(c, s', after).value.proc.tasks[i].pc.Add?
    ensures var s2 := From(c, TaskDoing(c, Exec(c, before).value, i, Go).value, after).value;
            && (s2.proc.m.digests[i] in s2.env.disk.part ==> s2.env.disk.part[s2.proc.m.digests[i]] == [])
            && NoWriter(s2.env.live, s2.proc.m.digests[i])
  {
    hide Base;
    var s := Exec(c, before).value;
    var s' := TaskDoing(c, s, i, Go).value;
    assert s'.proc.tasks[i].pc == Discard;
    hide TaskStep, TaskDoing;
    ExecInv(c, before);
    StepInv(c, s, TaskDoes(i, Go));
    FromInv(c, s', after);
    ClearingRun(c, s', after, i);
    var s2 := From(c, s', after).value;
    assert TaskInv(c, s2.proc.m.digests[i], s2.env, s2.proc.tasks[i]);
  }

  // -------------------------------------------------------- crash and restart

  /** Blobs are written once: whatever a run does after a state, crashes and
      rebuilds with other manifests included, keeps the blobs of that state. */
  lemma BlobsWriteOnce(c: Config, before: seq<Step>, after: seq<Step>)
    requires c.WellFormed() && AllDistinct(c) && Exec(c, before).Some?
    requires From(c, Exec(c, before).value, after).Some?
    ensures Extends(Exec(c, before).value.env, From(c, Exec(c, before).value, after).value.env)
  {
    FromExact(c, EMPTY, before);
    FromExact(c, Exec(c, before).value, after);
  }

  /** A blob that reached its place before the process died, whether or not it
      was marked, makes its objects committed once the next Build is through. */
  lemma RenamedIsDurable(c: Config, before: seq<Step>, after: seq<Step>, d: Digest, j: nat)
    requires c.WellFormed() && Calm(c) && Exec(c, before).Some? && d in Exec(c, before).value.env.disk.blob
    requires From(c, Died(Exec(c, before).value), after).Some?
    requires var p' := From(c, Died(Exec(c, before).value), after).value.proc;
             p'.Running?() && j < |p'.tasks| && p'.m.digests[j] == d
    ensures From(c, Died(Exec(c, before).value), after).value.proc.tasks[j].status.Committed?
  {
    ExecInv(c, before);
    DiedInv(c, Exec(c, before).value);
    FromDurable(c, Died(Exec(c, before).value), after, d);
  }

  /** The object with digest d was committed in a run; some time later the process
      died, at any step and with any saves throttled away; and the run that is on
      now, whatever came in between, lists d as object j. */
  ghost predicate Recalled(c: Config, before: seq<Step>, i: nat, mid: seq<Step>, after: seq<Step>, j: nat) {
    && Exec(c, before).Some?
    && var s := Exec(c, before).value;
       && s.proc.Running?() && i < |s.proc.tasks| && s.proc.tasks[i].status.Committed? && From(c, s, mid).Some?
       && From(c, Died(From(c, s, mid).value), after).Some?
       && var p' := From(c, Died(From(c, s, mid).value), after).value.proc;
          p'.Running?() && j < |p'.tasks| && p'.m.digests[j] == s.proc.m.digests[i]
  }

  /** It is committed there, without another download. */
  ghost predicate Remembered(c: Config, before: seq<Step>, i: nat, mid: seq<Step>, after: seq<Step>, j: nat) {
    Recalled(c, before, i, mid, after, j) ==>
      From(c, Died(From(c, Exec(c, before).value, mid).value), after).value.proc.tasks[j].status.Committed?
  }

  /** Crash durability. */
  lemma CrashDurable(c: Config, before: seq<Step>, i: nat, mid: seq<Step>, after: seq<Step>, j: nat)
    requires c.WellFormed() && Calm(c)
    ensures Remembered(c, before, i, mid, after, j)
  {
    if Recalled(c, before, i, mid, after, j) {
      ExecInv(c, before);
      var s := Exec(c, before).value;
      var d := s.proc.m.digests[i];
      assert TaskInv(c, d, s.env, s.proc.tasks[i]);
      FromInv(c, s, mid);
      FromBlobs(c, s, mid);
      DiedInv(c, From(c, s, mid).value);
      FromDurable(c, Died(From(c, s, mid).value), after, d);
    }
  }

  /** Build leaves every task Pending or Committed. When goroutines keep apart, a
      committed one has its verified blob; with distinct digests, only those do. */
  lemma BuildSettlesEveryTask(c: Config, steps: seq<Step>, i: nat)
    requires c.WellFormed() && Exec(c, steps).Some? && ProcessDoing(Exec(c, steps).value, FinishBuild).Some?
    requires i < |Exec(c, steps).value.proc.tasks|
    ensures var s := ProcessDoing(Exec(c, steps).value, FinishBuild).value;
            var t, d := s.proc.tasks[i], s.proc.m.digests[i];
            && (t.status.Pending? || t.status.Committed?)
            && t.pc == (if t.status.Committed? then Skipped else Unlaunched)
            && (Calm(c) && t.status.Committed? ==>
                  d in s.env.disk.blob && |s.env.disk.blob[d]| == c.size(d) &&
                  c.hash(d.algorithm, s.env.disk.blob[d]) == d.hex)
            && (AllDistinct(c) ==> (t.status.Committed? <==> d in s.env.disk.blob))
  {
    var s := Exec(c, steps).value;
    ExecBase(c, steps);
    assert BuildTask(c, s.proc.m.digests[i], s.proc.tasks[i]);
    if Calm(c) { ExecInv(c, steps); }
    if AllDistinct(c) { FromExact(c, EMPTY, steps); }
  }

  // ---------------------------------------------------------- Run and its pool

  lemma {:induction false} HoldingAll(tasks: seq<Task>, inside: set<nat>)
    requires forall i <- inside :: i < |tasks| && Inside(tasks[i].pc)
    ensures |inside| <= Holding(tasks)
    decreases |inside|
  {
    if i :| i in inside {
      var idle := tasks[i].(pc := Unlaunched);
      HoldingUpdate(tasks, i, idle);
      HoldingAll(tasks[i := idle], inside - {i});
    }
  }

  /** Objects that are neither waiting for the semaphore nor done. */
  ghost predicate InPool(tasks: seq<Task>, inside: set<nat>) {
    forall i <- inside :: i < |tasks| && match tasks[i].pc
                                         case Skipped | Unlaunched | Queued | Sent(_) => false
                                         case _ => true
  }

  /** At most Concurrency objects are inside downloadObject, and each has begun
      at most MaxRetries attempts. */
  lemma PoolBound(c: Config, steps: seq<Step>)
    requires c.WellFormed() && Exec(c, steps).Some? && Exec(c, steps).value.proc.Running?()
    ensures var tasks := Exec(c, steps).value.proc.tasks;
            forall inside :: InPool(tasks, inside) ==>
              && |inside| <= c.concurrency
              && forall i <- inside :: 1 <= tasks[i].attempt <= c.maxRetries
  {
    ExecBase(c, steps);
    var p := Exec(c, steps).value.proc;
    assert forall i :: 0 <= i < |p.tasks| ==> TaskBase(c, p.m.digests[i], p.tasks[i], p.phase.cancelled);
    forall inside | InPool(p.tasks, inside)
      ensures |inside| <= c.concurrency && forall i <- inside :: 1 <= p.tasks[i].attempt <= c.maxRetries
    {
      HoldingAll(p.tasks, inside);
    }
  }

  /** Run returns once every launched goroutine has sent its result; if the context
      is not cancelled by then, with nil exactly when every object is committed;
      if it is, exactly when nothing was pending; and after a nil return all stay
      committed, whatever happens. */
  lemma RunOutcome(c: Config, steps: seq<Step>)
    requires c.WellFormed() && Exec(c, steps).Some? && Exec(c, steps).value.proc.Running?()
    ensures var s := Exec(c, steps).value;
            var p, r := s.proc, ProcessDoing(s, RunReturns);
            && (r.Some? ==>
                  && r.value.proc.Running?() && r.value.proc.tasks == p.tasks && r.value.proc.phase.returned.Some?
                  && (r.value.proc.phase.returned.value <==>
                        if p.phase.cancelled then forall i :: 0 <= i < |p.tasks| ==> p.tasks[i].pc.Skipped?
                        else forall i :: 0 <= i < |p.tasks| ==> p.tasks[i].status.Committed?))
            && (r.Some? <==>
                  && p.phase.returned.None?
                  && forall i :: 0 <= i < |p.tasks| ==>
                       var pc := p.tasks[i].pc; pc.Skipped? || pc.Sent? || (p.phase.cancelled && pc.Unlaunched?))
            && (p.phase.returned == Some(true) ==> forall i :: 0 <= i < |p.tasks| ==> p.tasks[i].status.Committed?)
  {
    ExecBase(c, steps);
    var p := Exec(c, steps).value.proc;
    assert forall i :: 0 <= i < |p.tasks| ==> TaskBase(c, p.m.digests[i], p.tasks[i], p.phase.cancelled);
  }
}
