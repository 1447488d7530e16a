/**
  The planner keeps one task per listed layer, repeated digests included. This
  module shows by explicit runs that distinct digests (or a single goroutine)
  are not only enough for a safe blob store and a single writer but needed.
 */
module ProtocolConverse {
  import opened Basics
  import opened Storage
  import opened Protocol
  import opened ProtocolBase
  import opened ProtocolDurable
  import opened ProtocolInvariant
  import opened ProtocolRuns
  import opened ProtocolTheorems

  ghost predicate Reach(c: Config, s: State) { Leads(c, EMPTY, s) }

  lemma ReachStep(c: Config, s: State, step: Step, s': State)
    requires Reach(c, s) && s.proc.Shaped() && Do(c, s, step) == Some(s')
    ensures Reach(c, s')
  {
    LeadsStep(c, EMPTY, s, step, s');
  }

  // ------------------------------------------------------ a Build, undisturbed

  function Fresh0(c: Config, m: Manifest): seq<Task> { Adopted(c, None, m, false) }

  /** Only the manifest has been stored. */
  function Disk0(m: Manifest): Disk { Disk(map[], {}, map[m.id := m.raw]) }

  function Env0(m: Manifest, live: map<Gid, Digest>): Env { Env(Disk0(m), live, false, false) }

  function DownAt(e: Env): State { State(e, None, None, Down) }

  /** After a restart: the latch is clear, the manifest stored. */
  function Restarted(m: Manifest, e: Env): Env {
    e.(blind := false, disk := if m.id in e.disk.blob then e.disk else e.disk.PutBlob(m.id, m.raw))
  }

  function BuildingAt(c: Config, m: Manifest, e: Env, k: nat, at: BuildPc): State {
    State(e, None, None, Up(m, Fresh0(c, m), Building(false, k, at)))
  }

  /** Nothing in tmp/, and no listed blob that fits. */
  ghost predicate Barren(c: Config, m: Manifest, disk: Disk) {
    && disk.part == map[] && disk.ctl == {}
    && (m.id in disk.blob ==> c.Good(m.id, disk.blob[m.id]))
    && forall d :: d in m.digests && d in disk.blob ==> !c.Good(d, disk.blob[d])
  }

  /** Manifests that do not list themselves. */
  ghost predicate Plain(c: Config) {
    forall m <- c.manifests :: m.id !in m.digests
  }

  lemma QuietStart(c: Config, o: State, m: Manifest, e: Env)
    requires c.WellFormed() && m in c.manifests && Barren(c, m, e.disk)
    requires o.proc.Shaped() && Leads(c, o, DownAt(e))
    ensures Leads(c, o, BuildingAt(c, m, Restarted(m, e), 0, BCheck))
  {
    var s := BuildingAt(c, m, e.(blind := false), 0, BManifest);
    LeadsStep(c, o, DownAt(e), StartBuild(m, false, true), s);
    assert m.id in e.disk.blob ==> StoreManifest(c, s.env, m).Nothing?;
    assert BuildDoing(c, s, true) == Some(BuildingAt(c, m, Restarted(m, e), 0, BCheck));
    LeadsStep(c, o, s, BuildDoes(true), BuildingAt(c, m, Restarted(m, e), 0, BCheck));
  }

  lemma QuietTask(c: Config, o: State, m: Manifest, e: Env, k: nat)
    requires m in c.manifests && k < |m.digests| && Barren(c, m, e.disk)
    requires o.proc.Shaped() && Leads(c, o, BuildingAt(c, m, e, k, BCheck))
    ensures Leads(c, o, BuildingAt(c, m, e, k + 1, BCheck))
  {
    var d, t := m.digests[k], Fresh0(c, m);
    assert d in m.digests;
    assert d in e.disk.blob ==> !c.Good(d, e.disk.blob[d]);
    hide Verified, Leads, Barren;
    assert t == t[k := t[k]] && d !in e.disk.part && e.disk.RemoveCtl(d) == e.disk by { assert e.disk.ctl == {}; }
    assert BuildDoing(c, BuildingAt(c, m, e, k, BCheck), true) == Some(BuildingAt(c, m, e, k, BPart));
    assert BuildDoing(c, BuildingAt(c, m, e, k, BPart), true) == Some(BuildingAt(c, m, e, k, BRmCtl));
    assert BuildDoing(c, BuildingAt(c, m, e, k, BRmCtl), true) == Some(BuildingAt(c, m, e, k + 1, BCheck));
    hide BuildDoing, BuildingAt;
    BuildLeads(c, o, BuildingAt(c, m, e, k, BCheck), BuildingAt(c, m, e, k, BPart));
    BuildLeads(c, o, BuildingAt(c, m, e, k, BPart), BuildingAt(c, m, e, k, BRmCtl));
    BuildLeads(c, o, BuildingAt(c, m, e, k, BRmCtl), BuildingAt(c, m, e, k + 1, BCheck));
  }

  lemma BuildLeads(c: Config, o: State, s: State, s': State)
    requires o.proc.Shaped() && Leads(c, o, s) && s.proc.Shaped() && BuildDoing(c, s, true) == Some(s')
    ensures Leads(c, o, s')
  {
    hide BuildDoing;
    LeadsStep(c, o, s, BuildDoes(true), s');
  }

  lemma {:induction false} QuietBuild(c: Config, o: State, m: Manifest, e: Env, k: nat)
    requires m in c.manifests && k <= |m.digests| && Barren(c, m, e.disk)
    requires o.proc.Shaped() && Leads(c, o, BuildingAt(c, m, e, 0, BCheck))
    ensures Leads(c, o, BuildingAt(c, m, e, k, BCheck))
  {
    if k > 0 {
      QuietBuild(c, o, m, e, k - 1);
      QuietTask(c, o, m, e, k - 1);
    }
  }

  // ------------------------------------------- two goroutines, the others idle

  /** The run after Build in which only tasks i and j have been launched. */
  function Pair(c: Config, m: Manifest, i: nat, j: nat, ti: Task, tj: Task, e: Env): State
    requires i < j < |m.digests|
  {
    State(e, None, None, Up(m, Fresh0(c, m)[i := ti][j := tj], Running(false, None)))
  }

  function Idle(c: Config, d: Digest): Task { Task(Pending, false, c.alts(d), false, 0, Unlaunched) }

  lemma PairStart(c: Config, o: State, m: Manifest, i: nat, j: nat, e: Env)
    requires c.WellFormed() && Plain(c) && m in c.manifests && i < j < |m.digests| && Barren(c, m, e.disk)
    requires o.proc.Shaped() && Leads(c, o, DownAt(e))
    ensures Leads(c, o, Pair(c, m, i, j, Idle(c, m.digests[i]), Idle(c, m.digests[j]), Restarted(m, e)))
  {
    QuietStart(c, o, m, e);
    QuietBuild(c, o, m, Restarted(m, e), |m.digests|);
    var t := Fresh0(c, m);
    assert Listing(t) == t == t[i := t[i]][j := t[j]];
    LeadsStep(c, o, BuildingAt(c, m, Restarted(m, e), |m.digests|, BCheck), FinishBuild,
              Pair(c, m, i, j, Idle(c, m.digests[i]), Idle(c, m.digests[j]), Restarted(m, e)));
  }

  lemma PairHolding(c: Config, m: Manifest, i: nat, j: nat, ti: Task, tj: Task, e: Env)
    requires i < j < |m.digests| && (!Inside(ti.pc) || !Inside(tj.pc))
    ensures Holding(Pair(c, m, i, j, ti, tj, e).proc.tasks) <= 1
  {
    var t := Fresh0(c, m);
    NoneInside(t);
    HoldingUpdate(t, i, ti);
    HoldingUpdate(t[i := ti], j, tj);
  }

  /** The same run, seen from one of the two goroutines. */
  function Side(c: Config, m: Manifest, i: nat, j: nat, first: bool, mine: Task, other: Task, e: Env): State
    requires i < j < |m.digests|
  {
    if first then Pair(c, m, i, j, mine, other, e) else Pair(c, m, i, j, other, mine, e)
  }

  lemma Moves(c: Config, m: Manifest, i: nat, j: nat, first: bool, mine: Task, other: Task, e: Env,
             a: Answer, eff: Effect, mine': Task)
    requires i < j < |m.digests| && c.concurrency >= 2
    requires Reach(c, Side(c, m, i, j, first, mine, other, e))
    requires TaskStep(c, m.digests[if first then i else j], e, mine, false, a) == Some((eff, mine'))
    ensures Reach(c, Side(c, m, i, j, first, mine', other, Apply(e, m.digests[if first then i else j], eff)))
  {
    var s, k := Side(c, m, i, j, first, mine, other, e), if first then i else j;
    if mine.pc.Queued? {
      if first { PairHolding(c, m, i, j, mine, other, e); } else { PairHolding(c, m, i, j, other, mine, e); }
    }
    var s' := TaskDoing(c, s, k, a).value;
    assert s'.proc.tasks == Side(c, m, i, j, first, mine', other, e).proc.tasks;
    ReachStep(c, s, TaskDoes(k, a), s');
  }

  lemma AriaMoves(c: Config, m: Manifest, i: nat, j: nat, ti: Task, tj: Task, e: Env, step: Step, e': Env)
    requires i < j < |m.digests|
    requires step.AriaWrite? || step.AriaEnd?
    requires Reach(c, Pair(c, m, i, j, ti, tj, e))
    requires AriaDoing(c, Pair(c, m, i, j, ti, tj, e), step) == Some(Pair(c, m, i, j, ti, tj, e'))
    ensures Reach(c, Pair(c, m, i, j, ti, tj, e'))
  {
    ReachStep(c, Pair(c, m, i, j, ti, tj, e), step, Pair(c, m, i, j, ti, tj, e'));
  }

  /** A first attempt up to the point where it has found nothing live and has
      resolved a URL on a server that ignores Range. */
  function AtSubmit(c: Config, d: Digest): Task {
    Task(Downloading, true, c.alts(d), true, 1, Submit)
  }

  function At(c: Config, d: Digest, pc: Pc): Task { Idle(c, d).(attempt := 1, pc := pc) }

  function Deaf(e: Env): Env { e.(blind := true, answered200 := true) }

  ghost predicate Untouched(e: Env, d: Digest) {
    d !in e.disk.part && e.disk.ctl == {}
  }

  function Mine(m: Manifest, i: nat, j: nat, first: bool): Digest
    requires i < j < |m.digests|
  {
    m.digests[if first then i else j]
  }

  lemma ToFind(c: Config, m: Manifest, i: nat, j: nat, first: bool, other: Task, e: Env)
    requires i < j < |m.digests| && c.concurrency >= 2
    requires Untouched(e, Mine(m, i, j, first))
    requires Reach(c, Side(c, m, i, j, first, At(c, Mine(m, i, j, first), PreSize), other, e))
    ensures Reach(c, Side(c, m, i, j, first, At(c, Mine(m, i, j, first), Find), other, e))
  {
    var d := Mine(m, i, j, first);
    Moves(c, m, i, j, first, At(c, d, PreSize), other, e, Go, Nothing, At(c, d, PreExists));
    Moves(c, m, i, j, first, At(c, d, PreExists), other, e, Go, Nothing, At(c, d, PreRmCtl));
    assert Apply(e, d, RmCtl) == e;
    Moves(c, m, i, j, first, At(c, d, PreRmCtl), other, e, Go, RmCtl, At(c, d, Find));
  }

  lemma ToPrecheck(c: Config, m: Manifest, i: nat, j: nat, first: bool, other: Task, e: Env)
    requires i < j < |m.digests| && c.concurrency >= 2
    requires Untouched(e, Mine(m, i, j, first))
    requires Reach(c, Side(c, m, i, j, first, Idle(c, Mine(m, i, j, first)), other, e))
    ensures Reach(c, Side(c, m, i, j, first, At(c, Mine(m, i, j, first), PreSize), other, e))
  {
    var d := Mine(m, i, j, first);
    Moves(c, m, i, j, first, Idle(c, d), other, e, Go, Nothing, Idle(c, d).(pc := Queued));
    Moves(c, m, i, j, first, Idle(c, d).(pc := Queued), other, e, Go, Nothing, At(c, d, Start));
    Moves(c, m, i, j, first, At(c, d, Start), other, e, Go, Nothing, At(c, d, PreSize));
  }

  lemma ToResolve(c: Config, m: Manifest, i: nat, j: nat, first: bool, other: Task, e: Env)
    requires i < j < |m.digests| && c.concurrency >= 2
    requires Mine(m, i, j, first) !in e.live.Values
    requires Reach(c, Side(c, m, i, j, first, At(c, Mine(m, i, j, first), Find), other, e))
    ensures Reach(c, Side(c, m, i, j, first, At(c, Mine(m, i, j, first), Resolve(None)), other, e))
  {
    var d := Mine(m, i, j, first);
    assert TaskStep(c, d, e, At(c, d, Find), false, NotListed) == Some((Nothing, At(c, d, Resolve(None))));
    Moves(c, m, i, j, first, At(c, d, Find), other, e, NotListed, Nothing, At(c, d, Resolve(None)));
  }

  lemma ToSubmit(c: Config, m: Manifest, i: nat, j: nat, first: bool, other: Task, e: Env)
    requires i < j < |m.digests| && c.concurrency >= 2 && m.digests[i] == m.digests[j]
    requires Untouched(e, m.digests[i]) && e.live == map[]
    requires Reach(c, Side(c, m, i, j, first, Idle(c, m.digests[i]), other, e))
    ensures Reach(c, Side(c, m, i, j, first, AtSubmit(c, m.digests[i]), other, Deaf(e)))
  {
    var d := m.digests[i];
    ToPrecheck(c, m, i, j, first, other, e);
    ToFind(c, m, i, j, first, other, e);
    ToResolve(c, m, i, j, first, other, e);
    Moves(c, m, i, j, first, At(c, d, Resolve(None)), other, e, Resolved(true), Heard(true, true), AtSubmit(c, d));
  }

  /** From the test of the range flags to addUri, when there is nothing to discard. */
  lemma ToAdd(c: Config, m: Manifest, i: nat, j: nat, first: bool, other: Task, e: Env)
    requires i < j < |m.digests| && c.concurrency >= 2 && m.digests[i] == m.digests[j]
    requires Untouched(e, m.digests[i])
    requires Reach(c, Side(c, m, i, j, first, AtSubmit(c, m.digests[i]), other, e))
    ensures Reach(c, Side(c, m, i, j, first, AtSubmit(c, m.digests[i]).(pc := Add(true)), other, e))
  {
    var t := AtSubmit(c, m.digests[i]);
    Moves(c, m, i, j, first, t, other, e, Go, Nothing, t.(pc := Discard));
    Moves(c, m, i, j, first, t.(pc := Discard), other, e, Go, Nothing, t.(pc := Add(true)));
  }

  /** Both goroutines of one digest have found nothing live and resolved. */
  lemma BothAtSubmit(c: Config, m: Manifest, i: nat, j: nat)
    requires c.WellFormed() && Plain(c) && m in c.manifests && i < j < |m.digests| && c.concurrency >= 2
    requires m.digests[i] == m.digests[j]
    ensures var t := AtSubmit(c, m.digests[i]); Reach(c, Pair(c, m, i, j, t, t, Deaf(Env0(m, map[]))))
  {
    var d := m.digests[i];
    LeadsHere(c, EMPTY);
    PairStart(c, EMPTY, m, i, j, EMPTY.env);
    ToSubmit(c, m, i, j, true, Idle(c, d), Env0(m, map[]));
    ToSubmit(c, m, i, j, false, AtSubmit(c, d), Deaf(Env0(m, map[])));
  }

  // --------------------------------------------------------------- two writers

  /** Two tasks with one digest: both submit, and aria2 has two writers. */
  lemma TwoWriters(c: Config, m: Manifest, i: nat, j: nat) returns (s: State)
    requires c.WellFormed() && Plain(c) && m in c.manifests && i < j < |m.digests| && c.concurrency >= 2
    requires m.digests[i] == m.digests[j]
    ensures Reach(c, s) && s.proc.Shaped()
    ensures 0 in s.env.live && 1 in s.env.live && s.env.live[0] == s.env.live[1]
  {
    var d, e := m.digests[i], Deaf(Env0(m, map[]));
    var t := AtSubmit(c, d);
    var a := t.(pc := Add(true));
    BothAtSubmit(c, m, i, j);
    ToAdd(c, m, i, j, true, t, e);
    ToAdd(c, m, i, j, false, a, e);
    Moves(c, m, i, j, true, a, a, e, Created(0), Launch(0), t.(pc := Wait(0)));
    var e1 := Apply(e, d, Launch(0));
    Moves(c, m, i, j, false, a, t.(pc := Wait(0)), e1, Created(1), Launch(1), t.(pc := Wait(1)));
    s := Pair(c, m, i, j, t.(pc := Wait(0)), t.(pc := Wait(1)), Apply(e1, d, Launch(1)));
  }

  // ---------------------------------------------------------------- a bad blob

  /** Beside the manifest only the .part of d has been touched. */
  ghost predicate Only(e: Env, m: Manifest, d: Digest) {
    e.disk.part.Keys <= {d} && e.disk.ctl <= {d} && e.disk.blob == map[m.id := m.raw]
  }

  /** The first goroutine's download has been verified and awaits its rename. */
  lemma FirstVerifies(c: Config, m: Manifest, i: nat, j: nat, data: Bytes) returns (e: Env)
    requires c.WellFormed() && Plain(c) && m in c.manifests && i < j < |m.digests| && c.concurrency >= 2
    requires m.digests[i] == m.digests[j] && c.Good(m.digests[i], data)
    ensures var t := AtSubmit(c, m.digests[i]); Reach(c, Pair(c, m, i, j, t.(pc := Commit), t, e))
    ensures m.digests[i] in e.disk.part && e.disk.part[m.digests[i]] == data && e.live == map[] && e.blind
    ensures Only(e, m, m.digests[i])
  {
    BothAtSubmit(c, m, i, j);
    ToAdd(c, m, i, j, true, AtSubmit(c, m.digests[i]), Deaf(Env0(m, map[])));
    e := Downloaded(c, m, i, j, data);
    ToCommit(c, m, i, j, data, e);
  }

  lemma ToCommit(c: Config, m: Manifest, i: nat, j: nat, data: Bytes, e: Env)
    requires i < j < |m.digests| && c.concurrency >= 2 && c.Good(m.digests[i], data)
    requires m.digests[i] in e.disk.part && e.disk.part[m.digests[i]] == data && e.live == map[]
    requires var t := AtSubmit(c, m.digests[i]); Reach(c, Pair(c, m, i, j, t.(pc := Wait(0)), t, e))
    ensures var t := AtSubmit(c, m.digests[i]); Reach(c, Pair(c, m, i, j, t.(pc := Commit), t, e))
  {
    var t := AtSubmit(c, m.digests[i]);
    Moves(c, m, i, j, true, t.(pc := Wait(0)), t, e, Complete, Nothing, t.(pc := Verify));
    Moves(c, m, i, j, true, t.(pc := Verify), t, e, Go, Nothing, t.(pc := Commit));
  }

  lemma Downloaded(c: Config, m: Manifest, i: nat, j: nat, data: Bytes) returns (e: Env)
    requires m in c.manifests && i < j < |m.digests| && c.concurrency >= 2 && m.digests[i] == m.digests[j]
    requires var t := AtSubmit(c, m.digests[i]);
             Reach(c, Pair(c, m, i, j, t.(pc := Add(true)), t, Deaf(Env0(m, map[]))))
    ensures var t := AtSubmit(c, m.digests[i]); Reach(c, Pair(c, m, i, j, t.(pc := Wait(0)), t, e))
    ensures m.digests[i] in e.disk.part && e.disk.part[m.digests[i]] == data && e.live == map[] && e.blind
    ensures Only(e, m, m.digests[i])
  {
    var d, e0 := m.digests[i], Deaf(Env0(m, map[]));
    var t := AtSubmit(c, d);
    Moves(c, m, i, j, true, t.(pc := Add(true)), t, e0, Created(0), Launch(0), t.(pc := Wait(0)));
    var e1 := Apply(e0, d, Launch(0));
    var e2 := e1.(disk := e1.disk.Append(d, data));
    AriaMoves(c, m, i, j, t.(pc := Wait(0)), t, e1, AriaWrite(0, data), e2);
    e := Apply(e2, d, Unlist(0));
    AriaMoves(c, m, i, j, t.(pc := Wait(0)), t, e2, AriaEnd(0), e);
  }

  lemma SecondTests(c: Config, m: Manifest, i: nat, j: nat, e: Env)
    requires i < j < |m.digests| && c.concurrency >= 2 && m.digests[i] == m.digests[j]
    requires var d := m.digests[i]; d in e.disk.part && e.disk.part[d] != []
    requires var t := AtSubmit(c, m.digests[i]); Reach(c, Pair(c, m, i, j, t.(pc := Commit), t, e))
    ensures var t := AtSubmit(c, m.digests[i]);
            Reach(c, Pair(c, m, i, j, t.(pc := Commit), t.(pc := DiscardRmPart), e))
  {
    var t := AtSubmit(c, m.digests[i]);
    Moves(c, m, i, j, false, t, t.(pc := Commit), e, Go, Nothing, t.(pc := Discard));
    Moves(c, m, i, j, false, t.(pc := Discard), t.(pc := Commit), e, Go, Nothing, t.(pc := DiscardRmPart));
  }

  /** The second goroutine discards the .part that the first has verified and
      not yet renamed. */
  lemma SecondDiscards(c: Config, m: Manifest, i: nat, j: nat, e: Env) returns (e': Env)
    requires i < j < |m.digests| && c.concurrency >= 2 && m.digests[i] == m.digests[j]
    requires var d := m.digests[i]; d in e.disk.part && e.disk.part[d] != [] && e.live == map[]
    requires var t := AtSubmit(c, m.digests[i]); Reach(c, Pair(c, m, i, j, t.(pc := Commit), t, e))
    ensures var t := AtSubmit(c, m.digests[i]); Reach(c, Pair(c, m, i, j, t.(pc := Commit), t.(pc := Add(true)), e'))
    ensures m.digests[i] !in e'.disk.part && e'.live == map[]
    ensures Only(e, m, m.digests[i]) ==> Only(e', m, m.digests[i])
  {
    var d := m.digests[i];
    var t := AtSubmit(c, d);
    var ti := t.(pc := Commit);
    SecondTests(c, m, i, j, e);
    var e1 := Apply(e, d, RmPart);
    Moves(c, m, i, j, false, t.(pc := DiscardRmPart), ti, e, Go, RmPart, t.(pc := DiscardRmCtl));
    e' := Apply(e1, d, RmCtl);
    Moves(c, m, i, j, false, t.(pc := DiscardRmCtl), ti, e1, Go, RmCtl, t.(pc := Add(true)));
  }

  /** It submits anew, and aria2 creates the file again. */
  lemma SecondRestarts(c: Config, m: Manifest, i: nat, j: nat, e: Env) returns (e': Env)
    requires i < j < |m.digests| && c.concurrency >= 2 && m.digests[i] == m.digests[j]
    requires m.digests[i] !in e.disk.part && e.live == map[]
    requires var t := AtSubmit(c, m.digests[i]); Reach(c, Pair(c, m, i, j, t.(pc := Commit), t.(pc := Add(true)), e))
    ensures var t := AtSubmit(c, m.digests[i]); Reach(c, Pair(c, m, i, j, t.(pc := Commit), t.(pc := Wait(1)), e'))
    ensures m.digests[i] in e'.disk.part && e'.disk.part[m.digests[i]] == []
    ensures Only(e, m, m.digests[i]) ==> Only(e', m, m.digests[i])
  {
    var d := m.digests[i];
    var t := AtSubmit(c, d);
    Moves(c, m, i, j, false, t.(pc := Add(true)), t.(pc := Commit), e, Created(1), Launch(1), t.(pc := Wait(1)));
    var e1 := Apply(e, d, Launch(1));
    e' := e1.(disk := e1.disk.Append(d, []));
    AriaMoves(c, m, i, j, t.(pc := Commit), t.(pc := Wait(1)), e1, AriaWrite(1, []), e');
  }

  /** Two tasks with one digest: an unverified .part becomes the blob. */
  lemma BadBlob(c: Config, m: Manifest, i: nat, j: nat, data: Bytes) returns (s: State)
    requires c.WellFormed() && Plain(c) && m in c.manifests && i < j < |m.digests| && c.concurrency >= 2
    requires m.digests[i] == m.digests[j] && c.Good(m.digests[i], data) && data != []
    ensures Reach(c, s) && s.proc.Shaped() && !Safe(c, s)
    ensures var t := AtSubmit(c, m.digests[i]);
            s == Pair(c, m, i, j, t.(pc := CommitRmCtl), t.(pc := Wait(1)), s.env)
    ensures s.env.disk.part == map[] && s.env.disk.ctl <= {m.digests[i]}
    ensures s.env.disk.blob == map[m.id := m.raw][m.digests[i] := []]
  {
    var d := m.digests[i];
    var t := AtSubmit(c, d);
    var e := FirstVerifies(c, m, i, j, data);
    e := SecondDiscards(c, m, i, j, e);
    e := SecondRestarts(c, m, i, j, e);
    Moves(c, m, i, j, true, t.(pc := Commit), t.(pc := Wait(1)), e, Go, Promote, t.(pc := CommitRmCtl));
    s := Pair(c, m, i, j, t.(pc := CommitRmCtl), t.(pc := Wait(1)), Apply(e, d, Promote));
    assert d in s.env.disk.blob && s.env.disk.blob[d] == [];
  }

  // ---------------------------------------------------- a commit that is forgotten

  lemma Marks(c: Config, m: Manifest, i: nat, j: nat, other: Task, e: Env) returns (s: State)
    requires i < j < |m.digests| && c.concurrency >= 2
    requires Reach(c, Pair(c, m, i, j, AtSubmit(c, m.digests[i]).(pc := CommitRmCtl), other, e))
    ensures Reach(c, s) && s.proc.Running?() && s.proc.Shaped() && s.proc.m == m
    ensures s.proc.tasks[i].status.Committed? && s == Pair(c, m, i, j, s.proc.tasks[i], other, s.env)
    ensures s.env == Apply(e, m.digests[i], RmCtl)
  {
    var t, e' := AtSubmit(c, m.digests[i]), Apply(e, m.digests[i], RmCtl);
    Moves(c, m, i, j, true, t.(pc := CommitRmCtl), other, e, Go, RmCtl, t.(pc := CommitMark));
    var done := t.(status := Committed, pc := Sent(Ok));
    Moves(c, m, i, j, true, t.(pc := CommitMark), other, e', Go, Nothing, done);
    s := Pair(c, m, i, j, done, other, e');
    assert s.proc.tasks[i] == done;
  }

  /** The object is committed on the wrong blob. */
  lemma CommittedBadly(c: Config, m: Manifest, i: nat, j: nat, data: Bytes) returns (s: State)
    requires c.WellFormed() && Plain(c) && m in c.manifests && i < j < |m.digests| && c.concurrency >= 2
    requires m.digests[i] == m.digests[j] && c.Good(m.digests[i], data) && data != []
    ensures Reach(c, s) && s.proc.Running?() && s.proc.Shaped() && s.proc.m == m
    ensures s.proc.tasks[i].status.Committed? && Died(s) == DownAt(s.env)
    ensures s.env.disk.part == map[] && s.env.disk.ctl == {}
    ensures s.env.disk.blob == map[m.id := m.raw][m.digests[i] := []]
  {
    var bad := BadBlob(c, m, i, j, data);
    hide Reach, TaskStep;
    s := Marks(c, m, i, j, AtSubmit(c, m.digests[i]).(pc := Wait(1)), bad.env);
  }

  /** The process dies; the next Build finds no blob that fits. */
  lemma Forgotten(c: Config, m: Manifest, i: nat, j: nat, data: Bytes)
    returns (before: seq<Step>, after: seq<Step>)
    requires c.WellFormed() && Plain(c) && m in c.manifests && i < j < |m.digests| && c.concurrency >= 2
    requires m.digests[i] == m.digests[j] && c.Good(m.digests[i], data) && data != []
    ensures !Remembered(c, before, i, [], after, i)
  {
    var s := CommittedBadly(c, m, i, j, data);
    var d, e := m.digests[i], s.env;
    assert m.id !in m.digests && d in m.digests;
    assert !c.Good(d, []);
    LeadsHere(c, Died(s));
    PairStart(c, Died(s), m, i, j, e);
    var s' := Pair(c, m, i, j, Idle(c, d), Idle(c, d), Restarted(m, e));
    before :| From(c, EMPTY, before) == Some(s);
    after :| From(c, Died(s), after) == Some(s');
    assert s'.proc.tasks[i] == Idle(c, d);
    assert From(c, s, []) == Some(s) && Exec(c, before) == Some(s);
  }

  // ------------------------------------------------------------ exact conditions

  /** Some content of positive length fits each listed digest. */
  ghost predicate Obtainable(c: Config) {
    forall m <- c.manifests, d | d in m.digests :: exists data :: c.Good(d, data) && data != []
  }

  lemma Repeated(c: Config) returns (m: Manifest, i: nat, j: nat)
    requires !Calm(c)
    ensures m in c.manifests && i < j < |m.digests| && m.digests[i] == m.digests[j]
  {
    m :| m in c.manifests && !Distinct(m.digests);
    var x, y :| 0 <= x < |m.digests| && 0 <= y < |m.digests| && m.digests[x] == m.digests[y] && x != y;
    i, j := if x < y then x else y, if x < y then y else x;
  }

  /** The blob store is safe in every run exactly when one goroutine runs at a
      time or no manifest lists a digest twice. */
  lemma SafeExactly(c: Config)
    requires c.WellFormed() && Plain(c) && Obtainable(c)
    ensures Calm(c) <==> forall steps :: Exec(c, steps).Some? ==> Safe(c, Exec(c, steps).value)
  {
    if Calm(c) {
      forall steps | Exec(c, steps).Some?
        ensures Safe(c, Exec(c, steps).value)
      {
        BlobStoreSafe(c, steps);
      }
    } else {
      var m, i, j := Repeated(c);
      assert m.digests[i] in m.digests;
      var data :| c.Good(m.digests[i], data) && data != [];
      var s := BadBlob(c, m, i, j, data);
      var steps :| From(c, EMPTY, steps) == Some(s);
      assert Exec(c, steps) == Some(s);
    }
  }

  /** So does crash durability: an object once committed is committed in all runs
      after the process has died. */
  lemma CrashDurableExactly(c: Config)
    requires c.WellFormed() && Plain(c) && Obtainable(c)
    ensures Calm(c) <==> forall before, i, mid, after, j :: Remembered(c, before, i, mid, after, j)
  {
    if Calm(c) {
      forall before, i, mid, after, j ensures Remembered(c, before, i, mid, after, j) {
        CrashDurable(c, before, i, mid, after, j);
      }
    } else {
      var m, i, j := Repeated(c);
      assert m.digests[i] in m.digests;
      var data :| c.Good(m.digests[i], data) && data != [];
      var before, after := Forgotten(c, m, i, j, data);
      assert !Remembered(c, before, i, [], after, i);
    }
  }

  /** A run from a single writer per .part ends with one. */
  ghost predicate StaysSingle(c: Config, live: map<Gid, Digest>, steps: seq<Step>) {
    OneWriterEach(live) && From(c, Started(live), steps).Some? ==>
      OneWriterEach(From(c, Started(live), steps).value.env.live)
  }

  /** So is the single writer per .part, whatever aria2 was doing at the start. */
  lemma SingleWriterExactly(c: Config)
    requires c.WellFormed() && Plain(c)
    ensures Calm(c) <==> forall live, steps :: StaysSingle(c, live, steps)
  {
    if Calm(c) {
      forall live, steps ensures StaysSingle(c, live, steps) {
        if OneWriterEach(live) && From(c, Started(live), steps).Some? { SingleWriter(c, live, steps); }
      }
    } else {
      var m, i, j := Repeated(c);
      var s := TwoWriters(c, m, i, j);
      var steps :| From(c, EMPTY, steps) == Some(s);
      var none: map<Gid, Digest> := map[];
      assert Started(none) == EMPTY && OneWriterEach(none);
      assert !StaysSingle(c, none, steps);
    }
  }
}
