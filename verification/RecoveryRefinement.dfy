/**
  Left alone by aria2 and by crashes, the protocol's Build steps compute exactly
  Rebuild: the step machine and the plan's Build method share one meaning.
 */
module RecoveryRefinement {
  import opened Basics
  import opened Storage
  import opened Protocol
  import opened ProtocolRuns
  import opened Recovery

  function Entries(c: Config, m: Manifest): seq<Entry> {
    seq(|m.digests|, i requires 0 <= i < |m.digests| => Entry(m.digests[i], c.size(m.digests[i])))
  }

  /** A Build in progress: directory, cursor and tasks are all that varies. */
  function At(s: State, disk: Disk, k: nat, at: BuildPc, tasks: seq<Task>): State
    requires s.proc.Building?()
  {
    s.(env := s.env.(disk := disk),
       proc := s.proc.(tasks := tasks, phase := s.proc.phase.(k := k, at := at)))
  }

  function WithStatus(tasks: seq<Task>, k: nat, status: Status): seq<Task>
    requires k < |tasks|
  {
    tasks[k := tasks[k].(status := status)]
  }

  ghost predicate Ready(c: Config, u: Setup, s: State, tasks: seq<Task>, k: nat) {
    && s.proc.Building?() && s.proc.Shaped() && |tasks| == |s.proc.tasks| && k < |tasks|
    && u.hash == c.hash && u.verifyExisting == s.proc.phase.verifyExisting
  }

  lemma LeadsBuild(c: Config, s: State, u: Setup, disk: Disk, k: nat, at: BuildPc, tasks: seq<Task>,
                   renames: bool, disk': Disk, k': nat, at': BuildPc, tasks': seq<Task>)
    requires Ready(c, u, s, tasks, k) && |tasks'| == |tasks|
    requires Leads(c, s, At(s, disk, k, at, tasks))
    requires BuildDoing(c, At(s, disk, k, at, tasks), renames) == Some(At(s, disk', k', at', tasks'))
    ensures Leads(c, s, At(s, disk', k', at', tasks'))
  {
    LeadsStep(c, s, At(s, disk, k, at, tasks), BuildDoes(renames), At(s, disk', k', at', tasks'));
  }

  /** From the look at the .part to the next task. */
  lemma QuietPart(c: Config, u: Setup, s: State, disk: Disk, k: nat, tasks: seq<Task>)
    requires Ready(c, u, s, tasks, k) && tasks[k].status.Pending?
    requires Leads(c, s, At(s, disk, k, BPart, tasks))
    ensures var (disk', status) := ReconcilePart(u, disk, Entries(c, s.proc.m)[k]);
            Leads(c, s, At(s, disk', k + 1, BCheck, WithStatus(tasks, k, status)))
  {
    var d := s.proc.m.digests[k];
    var (disk', status) := ReconcilePart(u, disk, Entries(c, s.proc.m)[k]);
    assert WithStatus(tasks, k, Pending) == tasks;
    if d !in disk.part {
      LeadsBuild(c, s, u, disk, k, BPart, tasks, true, disk, k, BRmCtl, tasks);
      LeadsBuild(c, s, u, disk, k, BRmCtl, tasks, true, disk', k + 1, BCheck, tasks);
    } else if |disk.part[d]| < c.size(d) {
      LeadsBuild(c, s, u, disk, k, BPart, tasks, true, disk, k + 1, BCheck, tasks);
    } else if c.Good(d, disk.part[d]) {
      LeadsBuild(c, s, u, disk, k, BPart, tasks, true, disk, k, BRename, tasks);
      QuietCommit(c, u, s, disk, k, tasks);
    } else {
      var disk1 := disk.RemovePart(d);
      LeadsBuild(c, s, u, disk, k, BPart, tasks, true, disk, k, BRmPart, tasks);
      LeadsBuild(c, s, u, disk, k, BRmPart, tasks, true, disk1, k, BRmCtl, tasks);
      LeadsBuild(c, s, u, disk1, k, BRmCtl, tasks, true, disk', k + 1, BCheck, tasks);
    }
  }

  lemma QuietCommit(c: Config, u: Setup, s: State, disk: Disk, k: nat, tasks: seq<Task>)
    requires Ready(c, u, s, tasks, k) && tasks[k].status.Pending?
    requires s.proc.m.digests[k] in disk.part && Leads(c, s, At(s, disk, k, BRename, tasks))
    ensures var d := s.proc.m.digests[k];
            if u.renames(d)
            then Leads(c, s, At(s, disk.Promote(d).RemoveCtl(d), k + 1, BCheck, WithStatus(tasks, k, Committed)))
            else Leads(c, s, At(s, disk, k + 1, BCheck, tasks))
  {
    var d := s.proc.m.digests[k];
    if u.renames(d) {
      var disk1, disk2 := disk.Promote(d), disk.Promote(d).RemoveCtl(d);
      LeadsBuild(c, s, u, disk, k, BRename, tasks, true, disk1, k, BCommitCtl, tasks);
      LeadsBuild(c, s, u, disk1, k, BCommitCtl, tasks, true, disk2, k, BMark, tasks);
      LeadsBuild(c, s, u, disk2, k, BMark, tasks, true, disk2, k + 1, BCheck, WithStatus(tasks, k, Committed));
    } else {
      LeadsBuild(c, s, u, disk, k, BRename, tasks, false, disk, k + 1, BCheck, tasks);
    }
  }

  lemma QuietReconcile(c: Config, u: Setup, s: State, disk: Disk, k: nat, tasks: seq<Task>)
    requires Ready(c, u, s, tasks, k)
    requires Leads(c, s, At(s, disk, k, BCheck, tasks))
    ensures var (disk', status) := Reconcile(u, disk, Entries(c, s.proc.m)[k], tasks[k].status);
            Leads(c, s, At(s, disk', k + 1, BCheck, WithStatus(tasks, k, status)))
  {
    var d := s.proc.m.digests[k];
    if tasks[k].status.Committed? && d in disk.blob {
      assert WithStatus(tasks, k, Committed) == tasks;
      LeadsBuild(c, s, u, disk, k, BCheck, tasks, true, disk, k + 1, BCheck, tasks);
    } else if d in disk.blob && c.Good(d, disk.blob[d]) {
      LeadsBuild(c, s, u, disk, k, BCheck, tasks, true, disk, k + 1, BCheck, WithStatus(tasks, k, Committed));
    } else {
      var ts, disk1 := WithStatus(tasks, k, Pending), if u.verifyExisting then disk.RemoveBlob(d) else disk;
      if u.verifyExisting && d in disk.blob {
        LeadsBuild(c, s, u, disk, k, BCheck, tasks, true, disk, k, BRmBlob, ts);
        LeadsBuild(c, s, u, disk, k, BRmBlob, ts, true, disk1, k, BPart, ts);
      } else {
        assert disk1 == disk;
        LeadsBuild(c, s, u, disk, k, BCheck, tasks, true, disk, k, BPart, ts);
      }
      QuietPart(c, u, s, disk1, k, ts);
      assert forall status :: WithStatus(ts, k, status) == WithStatus(tasks, k, status);
    }
  }

  function Statuses(tasks: seq<Task>): seq<Status> {
    seq(|tasks|, i requires 0 <= i < |tasks| => tasks[i].status)
  }

  /** k tasks reconciled: those have Upto's statuses, the rest are as adopted. */
  ghost predicate Progress(c: Config, u: Setup, s: State, committed: set<Digest>, k: nat, tasks: seq<Task>) {
    && s.proc.Building?() && s.proc.Shaped() && k <= |tasks| == |s.proc.tasks|
    && Statuses(tasks[..k]) == Upto(u, s.env.disk, Entries(c, s.proc.m), committed, k).1
    && tasks[k..] == s.proc.tasks[k..]
  }

  lemma {:induction false} QuietUpto(c: Config, u: Setup, s: State, committed: set<Digest>, k: nat)
    returns (tasks: seq<Task>)
    requires s.proc.Building?() && s.proc.Shaped() && s.proc.phase.at.BCheck? && s.proc.phase.k == 0
    requires u.hash == c.hash && u.verifyExisting == s.proc.phase.verifyExisting && k <= |s.proc.tasks|
    requires forall i :: 0 <= i < |s.proc.tasks| ==>
               s.proc.tasks[i].status == Suggested(u, committed, Entries(c, s.proc.m)[i])
    ensures Progress(c, u, s, committed, k, tasks)
    ensures Leads(c, s, At(s, Upto(u, s.env.disk, Entries(c, s.proc.m), committed, k).0, k, BCheck, tasks))
  {
    var es := Entries(c, s.proc.m);
    if k == 0 {
      tasks := s.proc.tasks;
      assert At(s, s.env.disk, 0, BCheck, tasks) == s;
      LeadsHere(c, s);
    } else {
      var before := QuietUpto(c, u, s, committed, k - 1);
      var disk := Upto(u, s.env.disk, es, committed, k - 1).0;
      assert before[k - 1] == before[k - 1..][0] == s.proc.tasks[k - 1..][0] == s.proc.tasks[k - 1];
      QuietReconcile(c, u, s, disk, k - 1, before);
      var status := Reconcile(u, disk, es[k - 1], before[k - 1].status).1;
      tasks := WithStatus(before, k - 1, status);
      assert tasks[..k] == before[..k - 1] + [before[k - 1].(status := status)];
      assert Statuses(tasks[..k]) == Statuses(before[..k - 1]) + [status];
      assert tasks[k..] == before[k - 1..][1..] == s.proc.tasks[k - 1..][1..] == s.proc.tasks[k..];
    }
  }

  /** An undisturbed Build of the machine ends with the directory and the
      statuses of Rebuild. */
  lemma QuietBuildIsRebuild(c: Config, u: Setup, s: State, committed: set<Digest>) returns (tasks: seq<Task>)
    requires s.proc.Building?() && s.proc.Shaped() && s.proc.phase.at.BCheck? && s.proc.phase.k == 0
    requires u.hash == c.hash && u.verifyExisting == s.proc.phase.verifyExisting
    requires forall i :: 0 <= i < |s.proc.tasks| ==>
               s.proc.tasks[i].status == Suggested(u, committed, Entries(c, s.proc.m)[i])
    ensures var (disk, statuses) := Rebuild(u, s.env.disk, Entries(c, s.proc.m), committed);
            && |tasks| == |s.proc.tasks| && Statuses(tasks) == statuses
            && Leads(c, s, State(s.env.(disk := disk), s.saved, s.index,
                                 Up(s.proc.m, Listing(tasks), Running(false, None))))
  {
    var n := |s.proc.tasks|;
    tasks := QuietUpto(c, u, s, committed, n);
    assert tasks[..n] == tasks;
    var done := At(s, Rebuild(u, s.env.disk, Entries(c, s.proc.m), committed).0, n, BCheck, tasks);
    LeadsStep(c, s, done, FinishBuild, done.(proc := Up(s.proc.m, Listing(tasks), Running(false, None))));
  }

  /** What the previous state tells this Build of committed objects. */
  function Trusted(hint: Option<Snapshot>, m: Manifest): set<Digest> {
    if hint.Some? && hint.value.manifest == m.id then hint.value.committed else {}
  }

  /** The statuses the machine's Build starts from are those Rebuild is told. */
  lemma AdoptedIsSuggested(c: Config, u: Setup, hint: Option<Snapshot>, m: Manifest, i: nat)
    requires i < |m.digests|
    ensures Adopted(c, hint, m, u.verifyExisting)[i].status == Suggested(u, Trusted(hint, m), Entries(c, m)[i])
  {
  }

  /** Object j is the last one of its digest. */
  ghost predicate LastOf(m: Manifest, d: Digest, j: int) {
    0 <= j < |m.digests| && m.digests[j] == d && forall k :: j < k < |m.digests| ==> m.digests[k] != d
  }

  /** What a save writes is what the next Build of the same manifest starts from: of
      a committed object its status, unless blobs are re-verified; of any other its
      range mark; of repeated digests what the last one says. An unreadable file, or
      that of another manifest, says nothing. */
  lemma SavedIsAdopted(c: Config, s: State, s': State, m: Manifest, verifyExisting: bool, readable: bool, i: nat)
    requires s.proc.Shaped() && ProcessDoing(s, Save).Some? && s'.saved == ProcessDoing(s, Save).value.saved
    requires StartDoing(c, s', m, verifyExisting, readable).Some? && i < |m.digests|
    ensures var t := StartDoing(c, s', m, verifyExisting, readable).value.proc.tasks[i];
            && t.pc.Unlaunched? && !t.url && t.alts == c.alts(m.digests[i])
            && (!readable || m.id != s.proc.m.id ==> t.status.Pending? && !t.rangeUnsupported)
            && (readable && m == s.proc.m ==>
                  forall j :: LastOf(m, m.digests[i], j) ==>
                    var was := s.proc.tasks[j];
                    if was.status.Committed?
                    then t.status == (if verifyExisting then Pending else Committed) && !t.rangeUnsupported
                    else t.status.Pending? && t.rangeUnsupported == was.rangeUnsupported)
  {
    forall j | LastOf(m, m.digests[i], j) ensures LastOne(m.digests, j) {
    }
  }

  /** A whole Build of the machine, from the process that is down to the run, left
      alone in between: directory and statuses are those of Rebuild. */
  lemma QuietProcessIsRebuild(c: Config, u: Setup, s: State, m: Manifest, readable: bool) returns (tasks: seq<Task>)
    requires s.proc.Down? && m in c.manifests && u.hash == c.hash
    ensures var e := s.env.(blind := false);
            var disk := if m.id in e.disk.blob && |e.disk.blob[m.id]| == |m.raw| &&
                           (m.id.algorithm == "sha256" || m.id.algorithm == "sha512") &&
                           c.hash(m.id.algorithm, e.disk.blob[m.id]) == m.id.hex
                        then e.disk else e.disk.(blob := e.disk.blob[m.id := m.raw]);
            var hint := if readable then s.saved else None;
            var (disk', statuses) := Rebuild(u, disk, Entries(c, m), Trusted(hint, m));
            && |tasks| == |m.digests| && Statuses(tasks) == statuses
            && Leads(c, s, State(e.(disk := disk'), s.saved, s.index, Up(m, Listing(tasks), Running(false, None))))
  {
    var e := s.env.(blind := false);
    var hint := if readable then s.saved else None;
    var adopted := Adopted(c, hint, m, u.verifyExisting);
    var s1 := s.(env := e, proc := Up(m, adopted, Building(u.verifyExisting, 0, BManifest)));
    var s2 := s1.(env := Apply(e, m.id, StoreManifest(c, e, m)), proc := s1.proc.To(BCheck));
    forall i | 0 <= i < |adopted|
      ensures adopted[i].status == Suggested(u, Trusted(hint, m), Entries(c, m)[i])
    {
      AdoptedIsSuggested(c, u, hint, m, i);
    }
    hide ReconcileStep, Adopt;
    tasks := QuietBuildIsRebuild(c, u, s2, Trusted(hint, m));
    var disk' := Rebuild(u, s2.env.disk, Entries(c, m), Trusted(hint, m)).0;
    var end := State(e.(disk := disk'), s.saved, s.index, Up(m, Listing(tasks), Running(false, None)));
    assert s2.env.(disk := disk') == e.(disk := disk');
    LeadsFrom(c, s1, BuildDoes(true), s2, end);
    LeadsFrom(c, s, StartBuild(m, u.verifyExisting, readable), s1, end);
  }
}
