/**
  Why a crash between any two steps is harmless: a blob that is there stays, and
  every Build that comes across it counts its objects as committed.
 */
module ProtocolDurable {
  import opened Basics
  import opened Storage
  import opened Protocol
  import opened ProtocolBase
  import opened ProtocolInvariant

  /** The state in which the process leaves everything when it dies. */
  function Died(s: State): State { s.(proc := Down) }

  /** The objects of d before the cursor are committed, and one under it is only
      about to be checked. */
  ghost predicate Passed(p: Proc, d: Digest)
    requires p.Building?() && p.Shaped()
  {
    && (forall i :: 0 <= i < |p.tasks| && i < p.phase.k && p.m.digests[i] == d ==> p.tasks[i].status.Committed?)
    && (p.phase.k < |p.tasks| && p.m.digests[p.phase.k] == d ==> p.phase.at.BManifest? || p.phase.at.BCheck?)
  }

  /** The blob of d is there, and every object of d that a Build has passed, or
      that a run works on, is committed. */
  ghost predicate Durable(s: State, d: Digest)
    requires s.proc.Shaped()
  {
    var p := s.proc;
    && d in s.env.disk.blob
    && (p.Building?() ==> Passed(p, d))
    && (p.Running?() ==>
          forall i :: 0 <= i < |p.tasks| && p.m.digests[i] == d ==> p.tasks[i].status.Committed?)
  }

  lemma TaskBlobs(c: Config, s: State, i: nat, a: Answer)
    requires c.WellFormed() && Inv(c, s) && TaskDoing(c, s, i, a).Some?
    ensures s.env.disk.blob.Keys <= TaskDoing(c, s, i, a).value.env.disk.blob.Keys
  {
    hide RunBase, BuildBase, Verified;
    var p := s.proc;
    var d, t := p.m.digests[i], p.tasks[i];
    TaskKept(c, d, s.env, t, p.phase.cancelled, a);
    ApplyKeeps(c, s.env, d, TaskStep(c, d, s.env, t, p.phase.cancelled, a).value.0);
  }

  lemma BuildBlobs(c: Config, s: State, renames: bool)
    requires c.WellFormed() && Inv(c, s) && BuildDoing(c, s, renames).Some?
    ensures s.env.disk.blob.Keys <= BuildDoing(c, s, renames).value.env.disk.blob.Keys
  {
    hide RunBase, BuildBase;
    var p := s.proc;
    if p.phase.at.BManifest? {
      ApplyKeeps(c, s.env, p.m.id, StoreManifest(c, s.env, p.m));
    } else {
      var d := p.m.digests[p.phase.k];
      ReconcileKept(c, d, s.env, p, renames);
      ApplyKeeps(c, s.env, d, ReconcileStep(c, d, s.env, p, renames).0);
    }
  }

  /** No step takes a blob away. */
  lemma StepBlobs(c: Config, s: State, step: Step)
    requires c.WellFormed() && Inv(c, s) && Do(c, s, step).Some?
    ensures s.env.disk.blob.Keys <= Do(c, s, step).value.env.disk.blob.Keys
  {
    hide Base, Sound, TaskDoing, BuildDoing;
    match step
    case TaskDoes(i, a) => TaskBlobs(c, s, i, a);
    case BuildDoes(renames) => BuildBlobs(c, s, renames);
    case _ =>
  }

  lemma TaskDurable(c: Config, s: State, i: nat, a: Answer, d: Digest)
    requires c.WellFormed() && Inv(c, s) && Durable(s, d) && TaskDoing(c, s, i, a).Some?
    ensures var s' := TaskDoing(c, s, i, a).value; s'.proc.Shaped() && Durable(s', d)
  {
    var p := s.proc;
    TaskBlobs(c, s, i, a);
    assert TaskBase(c, p.m.digests[i], p.tasks[i], p.phase.cancelled);
    CommittedIsDone(c, p.m.digests[i], s.env, p.tasks[i], p.phase.cancelled, a);
    hide TaskStep, Sound, Base;
  }

  /** Build accepts the blob it finds at the cursor, since it is verified. */
  lemma CheckAccepts(c: Config, d: Digest, e: Env, p: Proc, renames: bool)
    requires p.Building?() && p.Shaped() && Passed(p, d) && p.phase.k < |p.tasks| && p.phase.at.BCheck?
    requires p.m.digests[p.phase.k] == d && d in e.disk.blob && c.Good(d, e.disk.blob[d])
    ensures var p' := ReconcileStep(c, d, e, p, renames).1;
            p'.Building?() && p'.Shaped() && Passed(p', d)
  {
    hide Verified;
    var p' := ReconcileStep(c, d, e, p, renames).1;
    assert p' == p.Next() || p' == p.Mark(Committed).Next();
  }

  lemma ReconcilePasses(c: Config, d: Digest, e: Env, p: Proc, renames: bool, x: Digest)
    requires p.Building?() && p.Shaped() && Passed(p, x) && p.phase.k < |p.tasks| && !p.phase.at.BManifest?
    requires p.m.digests[p.phase.k] == d && d != x
    ensures var p' := ReconcileStep(c, d, e, p, renames).1;
            p'.Building?() && p'.Shaped() && Passed(p', x)
  {
    hide Verified;
    var p' := ReconcileStep(c, d, e, p, renames).1;
    assert |p'.tasks| == |p.tasks| && forall i :: 0 <= i < |p.tasks| && i != p.phase.k ==> p'.tasks[i] == p.tasks[i];
    assert p'.phase.k == p.phase.k || (p'.phase.k == p.phase.k + 1 && p'.phase.at.BCheck?);
  }

  lemma BuildDurable(c: Config, s: State, renames: bool, d: Digest)
    requires c.WellFormed() && Inv(c, s) && Durable(s, d) && BuildDoing(c, s, renames).Some?
    ensures var s' := BuildDoing(c, s, renames).value; s'.proc.Shaped() && Durable(s', d)
  {
    BuildBlobs(c, s, renames);
    assert c.Good(d, s.env.disk.blob[d]);
    var p := s.proc;
    hide RunBase, BuildBase, Verified, BuildInv, Apply, StoreManifest, ReconcileStep;
    if p.phase.at.BManifest? {
    } else if p.m.digests[p.phase.k] == d {
      CheckAccepts(c, d, s.env, p, renames);
    } else {
      ReconcilePasses(c, p.m.digests[p.phase.k], s.env, p, renames, d);
    }
  }

  lemma StepDurable(c: Config, s: State, step: Step, d: Digest)
    requires c.WellFormed() && Inv(c, s) && Durable(s, d) && Do(c, s, step).Some?
    ensures Durable(Do(c, s, step).value, d)
  {
    StepBlobs(c, s, step);
    hide RunBase, BuildBase, Sound, TaskDoing, BuildDoing, Adopted;
    match step
    case TaskDoes(i, a) => TaskDurable(c, s, i, a, d);
    case BuildDoes(renames) => BuildDurable(c, s, renames, d);
    case _ =>
  }

  lemma {:induction false} FromDurable(c: Config, s: State, steps: seq<Step>, d: Digest)
    requires c.WellFormed() && Calm(c) && Inv(c, s) && Durable(s, d) && From(c, s, steps).Some?
    ensures Durable(From(c, s, steps).value, d)
    decreases |steps|
  {
    if steps != [] {
      StepInv(c, s, steps[0]);
      StepDurable(c, s, steps[0], d);
      FromDurable(c, Do(c, s, steps[0]).value, steps[1..], d);
    }
  }

  lemma {:induction false} FromBlobs(c: Config, s: State, steps: seq<Step>)
    requires c.WellFormed() && Calm(c) && Inv(c, s) && From(c, s, steps).Some?
    ensures s.env.disk.blob.Keys <= From(c, s, steps).value.env.disk.blob.Keys
    decreases |steps|
  {
    if steps != [] {
      StepInv(c, s, steps[0]);
      StepBlobs(c, s, steps[0]);
      FromBlobs(c, Do(c, s, steps[0]).value, steps[1..]);
    }
  }

  lemma DiedInv(c: Config, s: State)
    requires Inv(c, s)
    ensures Inv(c, Died(s))
  {
  }
}
