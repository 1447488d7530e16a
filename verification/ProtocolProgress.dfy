/**
  Progress of a run while its process lives, for every configuration: each move
  of a goroutine lowers a rank, so there are boundedly many; some goroutine can
  move until Run has all its results; and each goroutine sends exactly one.
 */
module ProtocolProgress {
  import opened Basics
  import opened Storage
  import opened Protocol
  import opened ProtocolBase

  // ------------------------------------------------------------ a living process

  /** While the process lives, a run stays a run of the same tasks. */
  ghost predicate SameRun(p: Proc, p': Proc) {
    p.Running?() && p'.Running?() && p.Shaped() && p'.Shaped() && p.m == p'.m && |p.tasks| == |p'.tasks|
  }

  lemma OtherStep(c: Config, s: State, step: Step)
    requires s.proc.Running?() && s.proc.Shaped() && !step.Crash? && !step.TaskDoes? && Do(c, s, step).Some?
    ensures SameRun(s.proc, Do(c, s, step).value.proc) && Do(c, s, step).value.proc.tasks == s.proc.tasks
    ensures s.proc.phase.cancelled ==> Do(c, s, step).value.proc.phase.cancelled
  {
    hide ReconcileStep, Adopted;
  }

  lemma {:induction false} StaysUp(c: Config, s: State, steps: seq<Step>)
    requires s.proc.Running?() && s.proc.Shaped() && Crash !in steps && From(c, s, steps).Some?
    ensures SameRun(s.proc, From(c, s, steps).value.proc)
    decreases |steps|
  {
    if steps != [] {
      assert steps[0] in steps;
      hide TaskStep;
      if !steps[0].TaskDoes? { OtherStep(c, s, steps[0]); }
      StaysUp(c, Do(c, s, steps[0]).value, steps[1..]);
    }
  }

  // ---------------------------------------------------------------------- the rank

  const ATTEMPT := 31

  /** How far a goroutine is from the end of its attempt. */
  function Distance(pc: Pc): nat {
    match pc
    case Sleep => 30
    case Start => 29
    case PreSize => 28
    case PreExists | PreRmPart => 27
    case PreRmCtl => 26
    case Find => 25
    case Resolve(_) => 24
    case Submit => 23
    case Discard => 22
    case DiscardRmPart => 21
    case DiscardRmCtl => 20
    case Add(_) => 19
    case Wait(_) | AltWait => 18
    case Verify => 10
    case Commit | BadRmPart => 9
    case CommitRmCtl | BadRmCtl => 8
    case CommitMark => 7
    case Doomed => 2
    case Backoff => 1
    case Skipped | Unlaunched | Queued | Sent(_) => 0
  }

  function Rank(c: Config, t: Task): int {
    match t.pc
    case Unlaunched => ATTEMPT * c.maxRetries + 2
    case Queued => ATTEMPT * c.maxRetries + 1
    case Skipped | Sent(_) => 0
    case _ => ATTEMPT * (c.maxRetries - t.attempt) + Distance(t.pc)
  }

  lemma LoopFalls(c: Config, t: Task, cancelled: bool, a: Answer)
    requires c.WellFormed() && (Inside(t.pc) ==> 1 <= t.attempt <= c.maxRetries) && LoopStep(c, t, cancelled, a).Some?
    ensures 0 <= Rank(c, LoopStep(c, t, cancelled, a).value.1) < Rank(c, t)
  {
  }

  /** Nearer to the end of the same attempt, or out. */
  predicate Nearer(t: Task, t': Task) {
    t'.attempt == t.attempt && (t'.pc.Sent? || (Inside(t'.pc) && Distance(t'.pc) < Distance(t.pc)))
  }

  lemma NearerFalls(c: Config, t: Task, t': Task)
    requires Inside(t.pc) && t.attempt <= c.maxRetries && Nearer(t, t')
    ensures 0 <= Rank(c, t') < Rank(c, t)
  {
  }

  lemma RemoteFalls(c: Config, d: Digest, e: Env, t: Task, cancelled: bool, a: Answer)
    requires Remote(t.pc) && TaskStep(c, d, e, t, cancelled, a).Some?
    ensures var t' := TaskStep(c, d, e, t, cancelled, a).value.1; Nearer(t, t') || (t.pc.AltWait? && t' == t)
  {
    RemoteShape(c, d, e, t, cancelled, a);
    hide TaskStep;
  }

  lemma PrecheckFalls(c: Config, d: Digest, e: Env, t: Task, a: Answer)
    requires PrecheckStep(c, d, e, t, a).Some?
    ensures Nearer(t, PrecheckStep(c, d, e, t, a).value.1)
  {
    hide Whole;
  }

  lemma DiscardFalls(d: Digest, e: Env, t: Task, a: Answer)
    requires DiscardStep(d, e, t, a).Some?
    ensures Nearer(t, DiscardStep(d, e, t, a).value.1)
  {
  }

  lemma CommitFalls(c: Config, d: Digest, e: Env, t: Task, a: Answer)
    ensures VerifyStep(c, d, e, t, a).Some? ==> Nearer(t, VerifyStep(c, d, e, t, a).value.1)
    ensures CommitStep(d, e, t, a).Some? ==> Nearer(t, CommitStep(d, e, t, a).value.1)
  {
    hide Verified;
  }

  lemma LocalFalls(c: Config, d: Digest, e: Env, t: Task, cancelled: bool, a: Answer)
    requires Inside(t.pc) && !Remote(t.pc) && LoopStep(c, t, cancelled, a).None?
    requires TaskStep(c, d, e, t, cancelled, a).Some?
    ensures Nearer(t, TaskStep(c, d, e, t, cancelled, a).value.1)
  {
    if PrecheckStep(c, d, e, t, a).Some? { PrecheckFalls(c, d, e, t, a); }
    if DiscardStep(d, e, t, a).Some? { DiscardFalls(d, e, t, a); }
    CommitFalls(c, d, e, t, a);
    hide Nearer, LoopStep, PrecheckStep, FindStep, ResolveStep, DiscardStep, AddStep, PollStep, AltStep;
    hide VerifyStep, CommitStep;
  }

  /** Every move of a goroutine lowers its rank, except that one which polls the
      file of an alternate URL may find nothing new. */
  lemma RankFalls(c: Config, d: Digest, e: Env, t: Task, cancelled: bool, a: Answer)
    requires c.WellFormed() && TaskBase(c, d, t, cancelled) && TaskStep(c, d, e, t, cancelled, a).Some?
    ensures var t' := TaskStep(c, d, e, t, cancelled, a).value.1;
            0 <= Rank(c, t') < Rank(c, t) || (t.pc.AltWait? && t' == t)
  {
    hide PrecheckStep, FindStep, ResolveStep, DiscardStep, AddStep, PollStep, AltStep, VerifyStep, CommitStep;
    hide Rank, Nearer;
    var t' := TaskStep(c, d, e, t, cancelled, a).value.1;
    if LoopStep(c, t, cancelled, a).Some? {
      LoopFalls(c, t, cancelled, a);
    } else {
      if Remote(t.pc) { RemoteFalls(c, d, e, t, cancelled, a); } else { LocalFalls(c, d, e, t, cancelled, a); }
      if Nearer(t, t') { NearerFalls(c, t, t'); }
    }
  }

  function Ranks(c: Config, ts: seq<Task>): int {
    if ts == [] then 0 else Rank(c, ts[0]) + Ranks(c, ts[1..])
  }

  lemma {:induction false} RanksUpdate(c: Config, ts: seq<Task>, i: nat, t: Task)
    requires i < |ts|
    ensures Ranks(c, ts[i := t]) == Ranks(c, ts) - Rank(c, ts[i]) + Rank(c, t)
  {
    if i > 0 {
      assert ts[i := t][1..] == ts[1..][i - 1 := t];
      RanksUpdate(c, ts[1..], i - 1, t);
    } else {
      assert ts[i := t][1..] == ts[1..];
    }
  }

  lemma RankBound(c: Config, d: Digest, t: Task, cancelled: bool)
    requires TaskBase(c, d, t, cancelled)
    ensures 0 <= Rank(c, t) <= ATTEMPT * c.maxRetries + 2
  {
  }

  lemma {:induction false} RanksBound(c: Config, digests: seq<Digest>, ts: seq<Task>, cancelled: bool)
    requires |digests| == |ts| && forall i :: 0 <= i < |ts| ==> TaskBase(c, digests[i], ts[i], cancelled)
    ensures 0 <= Ranks(c, ts) <= (ATTEMPT * c.maxRetries + 2) * |ts|
  {
    hide TaskBase, Rank;
    if ts != [] {
      RankBound(c, digests[0], ts[0], cancelled);
      RanksBound(c, digests[1..], ts[1..], cancelled);
      var m, n := ATTEMPT * c.maxRetries + 2, |ts| - 1;
      assert m * n + m == m * (n + 1);
    }
  }

  // --------------------------------------------------------- boundedly many moves

  /** A step of a goroutine that changes it. */
  ghost predicate Moves(c: Config, s: State, step: Step)
    requires s.proc.Shaped()
  {
    step.TaskDoes? && s.proc.Running?() && Do(c, s, step).Some? && Do(c, s, step).value.proc != s.proc
  }

  ghost function MoveCount(c: Config, s: State, steps: seq<Step>): nat
    requires s.proc.Shaped() && From(c, s, steps).Some?
    decreases |steps|
  {
    if steps == [] then 0
    else (if Moves(c, s, steps[0]) then 1 else 0) + MoveCount(c, Do(c, s, steps[0]).value, steps[1..])
  }

  lemma MoveFalls(c: Config, s: State, i: nat, a: Answer)
    requires c.WellFormed() && Base(c, s) && TaskDoing(c, s, i, a).Some?
    ensures var p, p' := s.proc, TaskDoing(c, s, i, a).value.proc;
            SameRun(p, p') && (p' == p || Ranks(c, p'.tasks) < Ranks(c, p.tasks))
  {
    var p, p' := s.proc, TaskDoing(c, s, i, a).value.proc;
    assert TaskBase(c, p.m.digests[i], p.tasks[i], p.phase.cancelled);
    RankFalls(c, p.m.digests[i], s.env, p.tasks[i], p.phase.cancelled, a);
    hide TaskStep, Rank, Ranks, TaskBase;
    RanksUpdate(c, p.tasks, i, p'.tasks[i]);
    assert p'.tasks[i] == p.tasks[i] ==> p'.tasks == p.tasks;
  }

  lemma {:induction false} MovesFall(c: Config, s: State, steps: seq<Step>)
    requires c.WellFormed() && Base(c, s) && s.proc.Running?() && Crash !in steps && From(c, s, steps).Some?
    ensures SameRun(s.proc, From(c, s, steps).value.proc)
    ensures MoveCount(c, s, steps) <= Ranks(c, s.proc.tasks) - Ranks(c, From(c, s, steps).value.proc.tasks)
    decreases |steps|
  {
    if steps != [] {
      assert steps[0] in steps;
      var s' := Do(c, s, steps[0]).value;
      StepBase(c, s, steps[0]);
      hide TaskDoing, RunBase, Ranks;
      if steps[0].TaskDoes? {
        MoveFalls(c, s, steps[0].i, steps[0].answer);
      } else {
        OtherStep(c, s, steps[0]);
      }
      MovesFall(c, s', steps[1..]);
    }
  }

  /** However long the process lives, its goroutines make boundedly many moves. */
  lemma MovesBounded(c: Config, s: State, steps: seq<Step>)
    requires c.WellFormed() && Base(c, s) && s.proc.Running?() && Crash !in steps && From(c, s, steps).Some?
    ensures MoveCount(c, s, steps) <= (ATTEMPT * c.maxRetries + 2) * |s.proc.tasks|
  {
    var p, p' := s.proc, From(c, s, steps).value.proc;
    FromBase(c, s, steps);
    MovesFall(c, s, steps);
    RanksBound(c, p.m.digests, p.tasks, p.phase.cancelled);
    RanksBound(c, p'.m.digests, p'.tasks, p'.phase.cancelled);
  }

  // ------------------------------------------------------------------- not stuck

  /** An answer that moves a goroutine inside downloadObject on. */
  function MovingAnswer(c: Config, d: Digest, e: Env, t: Task, cancelled: bool): Answer {
    match t.pc
    case Backoff => if cancelled && t.attempt < c.maxRetries then Abort else Go
    case Find | Resolve(_) | Add(_) | Wait(_) => Fails(Retryable)
    case AltWait => if cancelled then Abort else Go
    case Commit => if d in e.disk.part then Go else RenameFails
    case _ => Go
  }

  lemma InsideMoves(c: Config, d: Digest, e: Env, t: Task, cancelled: bool)
    requires Inside(t.pc) && (t.pc.AltWait? ==> cancelled || Whole(c, e, d))
    ensures var m := TaskStep(c, d, e, t, cancelled, MovingAnswer(c, d, e, t, cancelled));
            m.Some? && m.value.1.pc != t.pc && !m.value.1.pc.AltWait?
  {
    hide Verified;
  }

  /** Nothing but the .part of an alternate URL, which nobody downloads, or a place
      in the pool, which such a goroutine holds, is waited for. */
  ghost predicate Stalled(c: Config, s: State)
    requires s.proc.Running?() && s.proc.Shaped()
  {
    && !s.proc.phase.cancelled
    && forall i :: 0 <= i < |s.proc.tasks| ==>
         var t := s.proc.tasks[i];
         || t.pc.Skipped? || t.pc.Sent?
         || (t.pc.AltWait? && !Whole(c, s.env, s.proc.m.digests[i]))
         || (t.pc.Queued? && Holding(s.proc.tasks) >= c.concurrency)
  }

  /** Goroutine i can take this answer and is then somewhere else, not polling. */
  ghost predicate Mover(c: Config, s: State, i: nat, a: Answer)
    requires s.proc.Running?() && s.proc.Shaped()
  {
    && i < |s.proc.tasks| && TaskDoing(c, s, i, a).Some?
    && var pc := TaskDoing(c, s, i, a).value.proc.tasks[i].pc; pc != s.proc.tasks[i].pc && !pc.AltWait?
  }

  lemma InsideMover(c: Config, s: State, i: nat) returns (a: Answer)
    requires s.proc.Running?() && s.proc.Shaped() && i < |s.proc.tasks| && Inside(s.proc.tasks[i].pc)
    requires s.proc.tasks[i].pc.AltWait? ==> s.proc.phase.cancelled || Whole(c, s.env, s.proc.m.digests[i])
    ensures Mover(c, s, i, a)
  {
    var p := s.proc;
    a := MovingAnswer(c, p.m.digests[i], s.env, p.tasks[i], p.phase.cancelled);
    InsideMoves(c, p.m.digests[i], s.env, p.tasks[i], p.phase.cancelled);
    hide TaskStep, MovingAnswer;
  }

  /** A goroutine that is not inside can be launched, enter or give up. */
  lemma OutsideMover(c: Config, s: State, i: nat) returns (a: Answer)
    requires s.proc.Running?() && s.proc.Shaped() && i < |s.proc.tasks|
    requires var t, cancelled := s.proc.tasks[i], s.proc.phase.cancelled;
             (t.pc.Unlaunched? && !cancelled) || (t.pc.Queued? && (cancelled || Holding(s.proc.tasks) < c.concurrency))
    ensures Mover(c, s, i, a)
  {
    a := if s.proc.phase.cancelled then Abort else Go;
  }

  lemma FindMover(c: Config, s: State) returns (i: nat, a: Answer)
    requires s.proc.Running?() && s.proc.Shaped() && !Returned(s.proc) && !Stalled(c, s)
    ensures Mover(c, s, i, a)
  {
    var p := s.proc;
    hide Mover;
    if k :| 0 <= k < |p.tasks| && Inside(p.tasks[k].pc) &&
            (p.tasks[k].pc.AltWait? ==> p.phase.cancelled || Whole(c, s.env, p.m.digests[k]))
    {
      i := k;
      a := InsideMover(c, s, k);
    } else {
      i :| 0 <= i < |p.tasks| && !p.tasks[i].pc.Skipped? && !p.tasks[i].pc.Sent? &&
           !(p.phase.cancelled && p.tasks[i].pc.Unlaunched?) &&
           (!p.phase.cancelled ==>
              !(p.tasks[i].pc.AltWait? && !Whole(c, s.env, p.m.digests[i])) &&
              !(p.tasks[i].pc.Queued? && Holding(p.tasks) >= c.concurrency));
      a := OutsideMover(c, s, i);
    }
  }

  /** Before Run has all its results, some goroutine can move exactly if the run
      is not stalled on alternate URLs. */
  lemma NotStuck(c: Config, s: State)
    requires s.proc.Running?() && s.proc.Shaped() && !Returned(s.proc)
    ensures (exists i, a :: Moves(c, s, TaskDoes(i, a))) <==> !Stalled(c, s)
  {
    if Stalled(c, s) {
      forall i, a ensures !Moves(c, s, TaskDoes(i, a)) { StalledStays(c, s, i, a); }
    } else {
      hide Stalled, TaskStep;
      var i, a := FindMover(c, s);
      assert Moves(c, s, TaskDoes(i, a));
    }
  }

  lemma StalledStays(c: Config, s: State, i: nat, a: Answer)
    requires s.proc.Running?() && s.proc.Shaped() && Stalled(c, s)
    ensures !Moves(c, s, TaskDoes(i, a))
  {
    hide PrecheckStep, FindStep, ResolveStep, DiscardStep, AddStep, PollStep, VerifyStep, CommitStep;
    if i < |s.proc.tasks| && TaskDoing(c, s, i, a).Some? {
      var t := s.proc.tasks[i];
      assert t.pc.AltWait? || t.pc.Queued?;
      assert s.proc.tasks[i := t] == s.proc.tasks;
    }
  }

  /** From any such state its goroutines alone can bring Run to its end, unless
      one polls for an alternate URL and nobody cancels. */
  lemma {:induction false} CanFinish(c: Config, s: State) returns (steps: seq<Step>)
    requires c.WellFormed() && Base(c, s) && s.proc.Running?()
    requires s.proc.phase.cancelled || forall i :: 0 <= i < |s.proc.tasks| ==> !s.proc.tasks[i].pc.AltWait?
    ensures From(c, s, steps).Some? && Returned(From(c, s, steps).value.proc)
    ensures forall step :: step in steps ==> step.TaskDoes?
    decreases Ranks(c, s.proc.tasks)
  {
    var p := s.proc;
    RanksBound(c, p.m.digests, p.tasks, p.phase.cancelled);
    if Returned(p) {
      steps := [];
    } else {
      NoStall(c, s);
      var i, a := FindMover(c, s);
      var s' := TaskDoing(c, s, i, a).value;
      hide TaskStep, Ranks, Returned, RunBase, Stalled;
      MoveFalls(c, s, i, a);
      StepBase(c, s, TaskDoes(i, a));
      var rest := CanFinish(c, s');
      steps := [TaskDoes(i, a)] + rest;
      assert steps[1..] == rest;
    }
  }

  lemma NoStall(c: Config, s: State)
    requires c.WellFormed() && s.proc.Running?() && s.proc.Shaped() && !Returned(s.proc)
    requires s.proc.phase.cancelled || forall i :: 0 <= i < |s.proc.tasks| ==> !s.proc.tasks[i].pc.AltWait?
    ensures !Stalled(c, s)
  {
    if Stalled(c, s) { NoneInside(s.proc.tasks); }
  }

  // ------------------------------------------------------- one result, one status

  predicate Final(status: Status) { status.Committed? || status.Failed? }

  lemma TaskFinal(c: Config, d: Digest, e: Env, t: Task, cancelled: bool, a: Answer)
    requires StatusInv(t, cancelled) && TaskStep(c, d, e, t, cancelled, a).Some?
    ensures !t.pc.Sent? && (Final(t.status) ==> TaskStep(c, d, e, t, cancelled, a).value.1.status == t.status)
  {
    hide PrecheckStep, FindStep, ResolveStep, DiscardStep, AddStep, PollStep, AltStep, VerifyStep, CommitStep;
  }

  lemma StepFinal(c: Config, s: State, step: Step, i: nat)
    requires c.WellFormed() && Base(c, s) && s.proc.Running?() && i < |s.proc.tasks|
    requires step != Crash && Do(c, s, step).Some?
    ensures var p, p' := s.proc, Do(c, s, step).value.proc;
            && SameRun(p, p')
            && (p.tasks[i].pc.Sent? ==> p'.tasks[i] == p.tasks[i])
            && (Final(p.tasks[i].status) ==> p'.tasks[i].status == p.tasks[i].status)
  {
    if step.TaskDoes? {
      var d, t := s.proc.m.digests[step.i], s.proc.tasks[step.i];
      assert TaskBase(c, d, t, s.proc.phase.cancelled);
      TaskFinal(c, d, s.env, t, s.proc.phase.cancelled, step.answer);
      hide TaskStep;
    } else {
      hide RunBase;
      OtherStep(c, s, step);
    }
  }

  /** While the process lives, Committed and Failed are never left. */
  lemma {:induction false} FinalStatusStays(c: Config, s: State, steps: seq<Step>, i: nat)
    requires c.WellFormed() && Base(c, s) && s.proc.Running?() && i < |s.proc.tasks| && Final(s.proc.tasks[i].status)
    requires Crash !in steps && From(c, s, steps).Some?
    ensures SameRun(s.proc, From(c, s, steps).value.proc)
    ensures From(c, s, steps).value.proc.tasks[i].status == s.proc.tasks[i].status
    decreases |steps|
  {
    if steps != [] {
      assert steps[0] in steps;
      StepFinal(c, s, steps[0], i);
      StepBase(c, s, steps[0]);
      hide Do, Base;
      FinalStatusStays(c, Do(c, s, steps[0]).value, steps[1..], i);
    }
  }

  /** The sends of goroutine i along a run. */
  ghost function Sends(c: Config, s: State, steps: seq<Step>, i: nat): nat
    requires s.proc.Running?() && s.proc.Shaped() && i < |s.proc.tasks|
    requires Crash !in steps && From(c, s, steps).Some?
    decreases |steps|
  {
    if steps == [] then 0
    else
      StaysUp(c, s, steps[..1]);
      var s' := Do(c, s, steps[0]).value;
      (if !s.proc.tasks[i].pc.Sent? && s'.proc.tasks[i].pc.Sent? then 1 else 0) + Sends(c, s', steps[1..], i)
  }

  lemma {:induction false} SendsAtMostOnce(c: Config, s: State, steps: seq<Step>, i: nat)
    requires c.WellFormed() && Base(c, s) && s.proc.Running?() && i < |s.proc.tasks|
    requires Crash !in steps && From(c, s, steps).Some?
    ensures SameRun(s.proc, From(c, s, steps).value.proc)
    ensures Sends(c, s, steps, i) + (if s.proc.tasks[i].pc.Sent? then 1 else 0) ==
            if From(c, s, steps).value.proc.tasks[i].pc.Sent? then 1 else 0
    decreases |steps|
  {
    if steps != [] {
      assert steps[0] in steps;
      StepFinal(c, s, steps[0], i);
      StepBase(c, s, steps[0]);
      hide Do, Base;
      SendsAtMostOnce(c, Do(c, s, steps[0]).value, steps[1..], i);
    }
  }

  /** A goroutine that was launched while the process lives has sent exactly one
      result when Run has all of them, and none before its time. */
  lemma SendsOnce(c: Config, s: State, steps: seq<Step>, i: nat)
    requires c.WellFormed() && Base(c, s) && s.proc.Running?() && i < |s.proc.tasks|
    requires !s.proc.tasks[i].pc.Sent? && Crash !in steps && From(c, s, steps).Some?
    ensures SameRun(s.proc, From(c, s, steps).value.proc)
    ensures var t := From(c, s, steps).value.proc.tasks[i];
            && Sends(c, s, steps, i) == (if t.pc.Sent? then 1 else 0)
            && (Returned(From(c, s, steps).value.proc) && !t.pc.Skipped? && !t.pc.Unlaunched? ==>
                  Sends(c, s, steps, i) == 1)
  {
    SendsAtMostOnce(c, s, steps, i);
  }

  // ---------------------------------------------------------------------- bytes

  /** DoneBytes of a run. */
  function Done(c: Config, digests: seq<Digest>, tasks: seq<Task>): int
    requires |digests| == |tasks|
  {
    if tasks == [] then 0
    else (if tasks[0].status.Committed? then c.size(digests[0]) else 0) + Done(c, digests[1..], tasks[1..])
  }

  lemma {:induction false} DoneUpdate(c: Config, digests: seq<Digest>, tasks: seq<Task>, i: nat, t: Task)
    requires |digests| == |tasks| && i < |tasks|
    requires tasks[i].status.Committed? ==> t.status.Committed?
    requires t.status.Committed? ==> c.size(digests[i]) >= 0
    ensures Done(c, digests, tasks) <= Done(c, digests, tasks[i := t])
  {
    if i > 0 {
      assert tasks[i := t][1..] == tasks[1..][i - 1 := t];
      DoneUpdate(c, digests[1..], tasks[1..], i - 1, t);
    } else {
      assert tasks[i := t][1..] == tasks[1..];
    }
  }

  lemma TaskDone(c: Config, s: State, i: nat, a: Answer)
    requires c.WellFormed() && Base(c, s) && TaskDoing(c, s, i, a).Some?
    ensures var p, p' := s.proc, TaskDoing(c, s, i, a).value.proc;
            SameRun(p, p') && Done(c, p.m.digests, p.tasks) <= Done(c, p.m.digests, p'.tasks)
  {
    var p, p' := s.proc, TaskDoing(c, s, i, a).value.proc;
    StepFinal(c, s, TaskDoes(i, a), i);
    TaskDoingBase(c, s, i, a);
    assert TaskBase(c, p.m.digests[i], p'.tasks[i], p.phase.cancelled);
    hide TaskStep;
    DoneUpdate(c, p.m.digests, p.tasks, i, p'.tasks[i]);
  }

  /** While the process lives, DoneBytes never decreases. */
  lemma {:induction false} DoneGrows(c: Config, s: State, steps: seq<Step>)
    requires c.WellFormed() && Base(c, s) && s.proc.Running?() && Crash !in steps && From(c, s, steps).Some?
    ensures SameRun(s.proc, From(c, s, steps).value.proc)
    ensures Done(c, s.proc.m.digests, s.proc.tasks) <= Done(c, s.proc.m.digests, From(c, s, steps).value.proc.tasks)
    decreases |steps|
  {
    if steps != [] {
      assert steps[0] in steps;
      StepBase(c, s, steps[0]);
      hide TaskDoing, RunBase, Done;
      if steps[0].TaskDoes? {
        TaskDone(c, s, steps[0].i, steps[0].answer);
      } else {
        OtherStep(c, s, steps[0]);
      }
      DoneGrows(c, Do(c, s, steps[0]).value, steps[1..]);
    }
  }
}
