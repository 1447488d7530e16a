/**
  The client's rangeBlind latch is tested once, before addUri, and another
  goroutine may set it in between. So a latched client does not by itself keep
  addUri away from a partial .part; this module says exactly when it does.
 */
module ProtocolLatch {
  import opened Basics
  import opened Storage
  import opened Protocol
  import opened ProtocolBase
  import opened ProtocolInvariant
  import opened ProtocolRuns
  import opened ProtocolConverse

  /** Where addUri is about to be called for a marked task, or with the client
      latched, there are no bytes to resume from. */
  predicate CleanAdd(e: Env, d: Digest, t: Task) {
    t.pc.Add? && (t.rangeUnsupported || e.blind) && d in e.disk.part ==> e.disk.part[d] == []
  }

  ghost predicate CleanAdds(s: State)
    requires s.proc.Shaped()
  {
    s.proc.Running?() ==>
      forall i :: 0 <= i < |s.proc.tasks| ==> CleanAdd(s.env, s.proc.m.digests[i], s.proc.tasks[i])
  }

  /** No two goroutines are ever inside downloadObject together. */
  ghost predicate Lone(c: Config) {
    c.concurrency == 1 || forall m <- c.manifests :: |m.digests| <= 1
  }

  // ------------------------------------------------- a lone goroutine is not raced

  /** The latch is clear wherever the test found it clear. */
  ghost predicate Unlatched(s: State) {
    s.proc.Running?() ==>
      forall i :: 0 <= i < |s.proc.tasks| && s.proc.tasks[i].pc == Add(false) ==> !s.env.blind
  }

  lemma LoneInside(c: Config, s: State, i: nat, j: nat)
    requires Lone(c) && Inv(c, s) && s.proc.Running?()
    requires i < |s.proc.tasks| && j < |s.proc.tasks| && Inside(s.proc.tasks[i].pc) && Inside(s.proc.tasks[j].pc)
    ensures i == j
  {
    if i != j && c.concurrency == 1 {
      TwoInside(s.proc.tasks, if i < j then i else j, if i < j then j else i);
    }
  }

  predicate Tests(pc: Pc) { pc.Submit? || pc.Discard? || pc.DiscardRmPart? || pc.DiscardRmCtl? }

  /** addUri is next only after the flags were tested. */
  lemma RemoteSkipsAdd(c: Config, d: Digest, e: Env, t: Task, cancelled: bool, a: Answer)
    requires Remote(t.pc) && TaskStep(c, d, e, t, cancelled, a).Some?
    ensures !TaskStep(c, d, e, t, cancelled, a).value.1.pc.Add?
  {
    RemoteShape(c, d, e, t, cancelled, a);
    hide TaskStep;
  }

  lemma LocalSkipsAdd(c: Config, d: Digest, e: Env, t: Task, cancelled: bool, a: Answer)
    requires !Remote(t.pc) && !Tests(t.pc) && TaskStep(c, d, e, t, cancelled, a).Some?
    ensures !TaskStep(c, d, e, t, cancelled, a).value.1.pc.Add?
  {
    hide Verified, Whole, DiscardStep, FindStep, ResolveStep, AddStep, PollStep, AltStep;
  }

  /** A goroutine's own step never leaves it before addUri with the latch set
      and its .part untested. */
  lemma OwnStep(c: Config, d: Digest, e: Env, t: Task, cancelled: bool, a: Answer)
    requires (t.pc == Add(false) ==> !e.blind) && TaskStep(c, d, e, t, cancelled, a).Some?
    ensures var (eff, t') := TaskStep(c, d, e, t, cancelled, a).value;
            t'.pc == Add(false) ==> !Apply(e, d, eff).blind
  {
    if Tests(t.pc) {
      hide Verified, Whole, AddStep, PollStep, FindStep, ResolveStep, LoopStep, VerifyStep, CommitStep, AltStep;
      assert TaskStep(c, d, e, t, cancelled, a) == DiscardStep(d, e, t, a);
    } else if Remote(t.pc) {
      RemoteSkipsAdd(c, d, e, t, cancelled, a);
    } else {
      LocalSkipsAdd(c, d, e, t, cancelled, a);
    }
  }

  lemma TaskUnlatched(c: Config, s: State, i: nat, a: Answer)
    requires Lone(c) && Inv(c, s) && Unlatched(s) && TaskDoing(c, s, i, a).Some?
    ensures Unlatched(TaskDoing(c, s, i, a).value)
  {
    var p, s' := s.proc, TaskDoing(c, s, i, a).value;
    var d, t, cancelled := p.m.digests[i], p.tasks[i], p.phase.cancelled;
    OwnStep(c, d, s.env, t, cancelled, a);
    if !Inside(t.pc) { OutsideIsQuiet(c, d, s.env, t, cancelled, a); }
    forall j | 0 <= j < |p.tasks| && s'.proc.tasks[j].pc == Add(false)
      ensures !s'.env.blind
    {
      if j != i && Inside(t.pc) { LoneInside(c, s, i, j); }
    }
  }

  lemma StepUnlatched(c: Config, s: State, step: Step)
    requires Lone(c) && Inv(c, s) && Unlatched(s) && Do(c, s, step).Some?
    ensures Unlatched(Do(c, s, step).value)
  {
    hide TaskDoing, Inv, Lone, Adopted;
    match step
    case TaskDoes(i, a) => TaskUnlatched(c, s, i, a);
    case _ =>
  }

  lemma {:induction false} FromUnlatched(c: Config, s: State, steps: seq<Step>)
    requires c.WellFormed() && Lone(c) && Calm(c) && Inv(c, s) && Unlatched(s) && From(c, s, steps).Some?
    ensures Inv(c, From(c, s, steps).value) && Unlatched(From(c, s, steps).value)
    decreases |steps|
  {
    if steps != [] {
      StepInv(c, s, steps[0]);
      StepUnlatched(c, s, steps[0]);
      FromUnlatched(c, Do(c, s, steps[0]).value, steps[1..]);
    }
  }

  lemma LoneIsClean(c: Config, steps: seq<Step>)
    requires c.WellFormed() && Lone(c) && Exec(c, steps).Some?
    ensures CleanAdds(Exec(c, steps).value)
  {
    FromUnlatched(c, EMPTY, steps);
    var s := Exec(c, steps).value;
    if s.proc.Running?() {
      assert forall i :: 0 <= i < |s.proc.tasks| ==>
          TaskInv(c, s.proc.m.digests[i], s.env, s.proc.tasks[i]);
    }
  }

  // ------------------------------------------------------------------- the race

  /** A first attempt that found nothing live and resolved a URL on a server
      that honours Range. */
  function Ranged(c: Config, d: Digest, pc: Pc): Task { Task(Downloading, true, c.alts(d), false, 1, pc) }

  lemma Resolves(c: Config, m: Manifest, i: nat, j: nat, other: Task, e: Env)
    requires i < j < |m.digests| && c.concurrency >= 2 && !e.blind && e.live == map[]
    requires Reach(c, Pair(c, m, i, j, At(c, m.digests[i], Find), other, e))
    ensures Reach(c, Pair(c, m, i, j, Ranged(c, m.digests[i], Add(false)), other, e))
  {
    var d := m.digests[i];
    ToResolve(c, m, i, j, true, other, e);
    assert Apply(e, d, Heard(false, true)) == e;
    Moves(c, m, i, j, true, At(c, d, Resolve(None)), other, e, Resolved(false), Heard(false, true),
          Ranged(c, d, Submit));
    Moves(c, m, i, j, true, Ranged(c, d, Submit), other, e, Go, Nothing, Ranged(c, d, Add(false)));
  }

  lemma Submits(c: Config, m: Manifest, i: nat, j: nat, other: Task, e: Env)
    requires i < j < |m.digests| && c.concurrency >= 2 && !e.blind && e.live == map[]
    requires Untouched(e, m.digests[i])
    requires Reach(c, Pair(c, m, i, j, Idle(c, m.digests[i]), other, e))
    ensures Reach(c, Pair(c, m, i, j, Ranged(c, m.digests[i], Wait(0)), other, Apply(e, m.digests[i], Launch(0))))
  {
    var d := m.digests[i];
    ToPrecheck(c, m, i, j, true, other, e);
    ToFind(c, m, i, j, true, other, e);
    Resolves(c, m, i, j, other, e);
    Moves(c, m, i, j, true, Ranged(c, d, Add(false)), other, e, Created(0), Launch(0), Ranged(c, d, Wait(0)));
  }

  /** A first process submits object i and dies; aria2 goes on. */
  lemma FirstProcess(c: Config, m: Manifest, i: nat, j: nat)
    requires c.WellFormed() && Plain(c) && m in c.manifests && i < j < |m.digests| && c.concurrency >= 2
    ensures Reach(c, DownAt(Env0(m, map[0 := m.digests[i]])))
  {
    var d, other, e := m.digests[i], Idle(c, m.digests[j]), Env0(m, map[]);
    LeadsHere(c, EMPTY);
    PairStart(c, EMPTY, m, i, j, EMPTY.env);
    Submits(c, m, i, j, other, e);
    var s := Pair(c, m, i, j, Ranged(c, d, Wait(0)), other, Apply(e, d, Launch(0)));
    ReachStep(c, s, Crash, DownAt(Env0(m, map[0 := d])));
  }

  /** In the next process both goroutines have passed precheck when the old
      aria2 task writes and ends. */
  lemma SecondProcess(c: Config, m: Manifest, i: nat, j: nat) returns (e: Env)
    requires c.WellFormed() && Plain(c) && m in c.manifests && i < j < |m.digests| && c.concurrency >= 2
    ensures Reach(c, Pair(c, m, i, j, At(c, m.digests[i], Find), At(c, m.digests[j], Find), e))
    ensures m.digests[i] in e.disk.part && e.disk.part[m.digests[i]] == [0] && !e.blind && e.live == map[]
  {
    var d, dj := m.digests[i], m.digests[j];
    var e0 := Env0(m, map[0 := d]);
    FirstProcess(c, m, i, j);
    PairStart(c, EMPTY, m, i, j, e0);
    ToPrecheck(c, m, i, j, true, Idle(c, dj), e0);
    ToFind(c, m, i, j, true, Idle(c, dj), e0);
    ToPrecheck(c, m, i, j, false, At(c, d, Find), e0);
    ToFind(c, m, i, j, false, At(c, d, Find), e0);
    var e1 := e0.(disk := e0.disk.Append(d, [0]));
    AriaMoves(c, m, i, j, At(c, d, Find), At(c, dj, Find), e0, AriaWrite(0, [0]), e1);
    e := Apply(e1, d, Unlist(0));
    AriaMoves(c, m, i, j, At(c, d, Find), At(c, dj, Find), e1, AriaEnd(0), e);
  }

  /** Goroutine i tests the flags and finds them clear; then goroutine j hears a
      full 200 and sets the latch; then i calls addUri over a partial .part. */
  lemma LatchRace(c: Config, m: Manifest, i: nat, j: nat) returns (s: State)
    requires c.WellFormed() && Plain(c) && m in c.manifests && i < j < |m.digests| && c.concurrency >= 2
    ensures Reach(c, s) && s.proc.Shaped() && !CleanAdds(s)
  {
    var d, dj := m.digests[i], m.digests[j];
    var e := SecondProcess(c, m, i, j);
    Resolves(c, m, i, j, At(c, dj, Find), e);
    var ti := Ranged(c, d, Add(false));
    ToResolve(c, m, i, j, false, ti, e);
    Moves(c, m, i, j, false, At(c, dj, Resolve(None)), ti, e, Resolved(true), Heard(true, true), AtSubmit(c, dj));
    s := Pair(c, m, i, j, ti, AtSubmit(c, dj), Apply(e, dj, Heard(true, true)));
    assert s.proc.tasks[i] == ti;
  }

  /** A set latch keeps every addUri away from partial files exactly when no two
      goroutines are ever at work together. */
  lemma CleanAddsExactly(c: Config)
    requires c.WellFormed() && Plain(c)
    ensures Lone(c) <==> forall steps :: Exec(c, steps).Some? ==> CleanAdds(Exec(c, steps).value)
  {
    if Lone(c) {
      forall steps | Exec(c, steps).Some?
        ensures CleanAdds(Exec(c, steps).value)
      {
        LoneIsClean(c, steps);
      }
    } else {
      var m :| m in c.manifests && |m.digests| > 1;
      var s := LatchRace(c, m, 0, 1);
      var steps :| From(c, EMPTY, steps) == Some(s);
      assert Exec(c, steps) == Some(s);
    }
  }
}
