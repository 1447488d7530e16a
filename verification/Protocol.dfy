/**
  The download/commit protocol as a step machine: one program counter per
  object goroutine, the aria2 daemon, plan building after a restart, process
  death at any point, and the persisted snapshot and index. A step names every
  outside answer it depends on, so a run is a sequence of steps and a theorem
  over all such sequences covers every interleaving and every answer.
 */
module Protocol {
  import opened Basics
  import opened Storage

  type Gid = nat

  /** A single-platform manifest: its own digest and bytes, and the digests of
      its config and layers in download-list order. */
  datatype Manifest = Manifest(id: Digest, raw: Bytes, digests: seq<Digest>)

  /** Fixed surroundings: the digest function, the size each digest is listed
      with, the scheduler options and the manifests that may be pulled. */
  datatype Config = Config(
    hash: Hasher,
    size: Digest -> int,
    alts: Digest -> nat,
    concurrency: nat,
    maxRetries: nat,
    manifests: iset<Manifest>)
  {
    /** NewScheduler replaces non-positive options; a fetched manifest has been
        checked against its own digest. */
    ghost predicate WellFormed() {
      && concurrency >= 1
      && maxRetries >= 1
      && forall m <- manifests :: size(m.id) == |m.raw| && Good(m.id, m.raw)
    }

    predicate Good(d: Digest, data: Bytes) {
      Verified(hash, data, d, size(d))
    }
  }

  /** How one downloadObject call ended. */
  datatype Outcome = Ok | Canceled | Deadline | Fatal | Exhausted

  datatype Pc =
    | Skipped                     // committed by Build, not in the pending list
    | Unlaunched
    | Queued                      // waiting for the semaphore
    | Start                       // about to stat the .part
    | PreSize | PreExists         // the two tests of precheck
    | PreRmPart | PreRmCtl
    | Find                        // about to list live aria2 tasks
    | Resolve(found: Option<Gid>) // about to look for a URL
    | Submit                      // nothing live was found: about to test the range flags
    | Discard | DiscardRmPart | DiscardRmCtl
    | Add(cleared: bool)          // about to call addUri
    | Wait(gid: Gid)
    | AltWait                     // polling the file for an alternate URL
    | Verify
    | BadRmPart | BadRmCtl
    | Commit                      // verified, about to rename
    | CommitRmCtl | CommitMark
    | Doomed                      // an attempt failed for good: about to mark the task
    | Backoff                     // an attempt failed and may be retried
    | Sleep
    | Sent(outcome: Outcome)      // result sent on the error channel

  datatype Task = Task(
    status: Status,
    url: bool,
    alts: nat,
    rangeUnsupported: bool,
    attempt: nat,
    pc: Pc)

  /** What the goroutines share. `answered200` is history: some ranged GET has
      been answered with a full 200 body. */
  datatype Env = Env(
    disk: Disk,
    live: map<Gid, Digest>,  // aria2 tasks still able to write, with their target
    blind: bool,             // the client's rangeBlind latch
    answered200: bool)

  /** state.json, as far as Build reads it. */
  datatype Snapshot = Snapshot(manifest: Digest, committed: set<Digest>, ranged: set<Digest>)

  datatype BuildPc = BManifest | BCheck | BRmBlob | BPart | BRmPart | BRmCtl | BRename | BCommitCtl | BMark

  /** Build reconciles task k next; or the goroutines of Run are at work, until
      Run has returned, with nil or with an error. */
  datatype Phase =
    | Building(verifyExisting: bool, k: nat, at: BuildPc)
    | Running(cancelled: bool, returned: Option<bool>)

  datatype Proc = Down | Up(m: Manifest, tasks: seq<Task>, phase: Phase)
  {
    predicate Building?() { Up? && phase.Building? }

    predicate Running?() { Up? && phase.Running? }

    predicate Shaped() { Up? ==> |tasks| == |m.digests| }

    function To(at: BuildPc): Proc
      requires Building?()
    {
      this.(phase := phase.(at := at))
    }

    function Next(): Proc
      requires Building?()
    {
      this.(phase := phase.(k := phase.k + 1, at := BCheck))
    }

    function Mark(s: Status): Proc
      requires Building?() && phase.k < |tasks|
    {
      this.(tasks := tasks[phase.k := tasks[phase.k].(status := s)])
    }
  }

  datatype State = State(env: Env, saved: Option<Snapshot>, index: Option<Manifest>, proc: Proc)

  const EMPTY := State(Env(EMPTY_DISK, map[], false, false), None, None, Down)

  // ---------------------------------------------------------------- answers

  /** How a failed remote call surfaces in downloadObject. */
  datatype Failing = Retryable | TimedOut | Interrupted

  datatype Answer =
    | Go                                // no outside answer involved
    | Abort                             // the context is cancelled here
    | Fails(how: Failing)               // the remote call reports an error
    | Listed(gid: Gid) | NotListed      // tellActive and tellWaiting
    | Fresh                             // the remembered URL is used
    | Resolved(full200: bool) | Missing // ResolveBlobURL
    | Created(gid: Gid)                 // addUri answered with a gid
    | Lost(gid: Gid, how: Failing)      // addUri executed, its answer lost
    | Complete | Vanished               // tellStatus: complete, removed
    | Error8(full200: bool)             // tellStatus: error 8, and the probe's verdict
    | ErrorFatal | ErrorOther           // tellStatus: any other error code
    | Stop(removed: bool)               // cancelled: forceRemove worked or not
    | ReadFails                         // the .part cannot be read while it is verified
    | RenameFails

  /** What one step does to the directory, to aria2 or to the latches, for one digest. */
  datatype Effect =
    | Nothing
    | RmPart | RmCtl | RmBlob
    | Promote                              // rename the .part onto the blob path
    | PutBlob(data: Bytes)
    | Launch(gid: Gid) | Unlist(gid: Gid)  // aria2 tasks
    | Heard(full200: bool, latched: bool)  // a ranged GET was answered

  function Apply(e: Env, d: Digest, eff: Effect): Env
    requires eff.Promote? ==> d in e.disk.part
  {
    match eff
    case Nothing => e
    case RmPart => e.(disk := e.disk.RemovePart(d))
    case RmCtl => e.(disk := e.disk.RemoveCtl(d))
    case RmBlob => e.(disk := e.disk.RemoveBlob(d))
    case Promote => e.(disk := e.disk.Promote(d))
    case PutBlob(data) => e.(disk := e.disk.PutBlob(d, data))
    case Launch(g) => e.(live := e.live[g := d])
    case Unlist(g) => e.(live := e.live - {g})
    case Heard(full200, latched) =>
      e.(blind := e.blind || (full200 && latched), answered200 := e.answered200 || full200)
  }

  predicate Whole(c: Config, e: Env, d: Digest) {
    d in e.disk.part && |e.disk.part[d]| == c.size(d)
  }

  // ------------------------------------------------- one goroutine, one step

  /** What a goroutine does next, given the answer it gets; None when that
      answer is not possible here. */
  type Move = Option<(Effect, Task)>

  /** Run's goroutine and the retry loop of downloadObject. */
  function LoopStep(c: Config, t: Task, cancelled: bool, a: Answer): Move {
    match t.pc
    case Unlaunched =>
      if a.Go? && !cancelled then To(t, Queued) else None
    case Queued =>
      if a.Go? then Some((Nothing, t.(pc := Start, attempt := 1)))
      else if a.Abort? && cancelled then To(t, Sent(Canceled)) else None
    case Backoff =>
      if a.Go? && t.attempt >= c.maxRetries then Some((Nothing, t.(status := Failed, pc := Sent(Exhausted))))
      else if a.Go? && !cancelled then
        Some((Nothing, t.(status := Pending, attempt := t.attempt + 1, pc := Sleep)))
      else if a.Abort? && cancelled && t.attempt < c.maxRetries then To(t, Sent(Canceled)) else None
    case Doomed =>
      if a.Go? then Some((Nothing, t.(status := Failed, pc := Sent(Fatal)))) else None
    case Sleep =>
      if a.Go? then To(t, Start)
      else if a.Abort? && cancelled then To(t, Sent(Canceled)) else None
    case _ => None
  }

  function To(t: Task, pc: Pc): Move { Some((Nothing, t.(pc := pc))) }

  function Does(eff: Effect, t: Task, pc: Pc): Move { Some((eff, t.(pc := pc))) }

  /** The head of attempt and precheck. */
  function PrecheckStep(c: Config, d: Digest, e: Env, t: Task, a: Answer): Move {
    if !a.Go? then None else
      match t.pc
      case Start => To(t, if Whole(c, e, d) then Verify else PreSize)
      case PreSize =>
        To(t, if d in e.disk.part && |e.disk.part[d]| > c.size(d) then PreRmPart else PreExists)
      case PreExists => To(t, if d in e.disk.part then Find else PreRmCtl)
      case PreRmPart => Does(RmPart, t, PreRmCtl)
      case PreRmCtl => Does(RmCtl, t, Find)
      case _ => None
  }

  /** A remote call that reports an error; an interruption needs a cancelled context. */
  function Broken(eff: Effect, t: Task, cancelled: bool, how: Failing): Move {
    match how
    case Retryable => Does(eff, t, Backoff)
    case TimedOut => Does(eff, t, Sent(Deadline))
    case Interrupted => if cancelled then Does(eff, t, Sent(Canceled)) else None
  }

  /** submitAndWatch: a task that is already live is watched, else one is submitted. */
  function Watch(found: Option<Gid>): Pc {
    match found
    case Some(g) => Wait(g)
    case None => Submit
  }

  /** findExistingTask. */
  function FindStep(d: Digest, e: Env, t: Task, cancelled: bool, a: Answer): Move {
    match a
    case Listed(g) => if g in e.live && e.live[g] == d then To(t, Resolve(Some(g))) else None
    case NotListed => if d in e.live.Values then None else To(t, Resolve(None))
    case Fails(how) => Broken(Nothing, t, cancelled, how)
    case _ => None
  }

  /** The URL resolution of attempt. */
  function ResolveStep(e: Env, t: Task, cancelled: bool, a: Answer): Move
    requires t.pc.Resolve?
  {
    match a
    case Fresh => if t.url then To(t, Watch(t.pc.found)) else None
    case Resolved(full200) =>
      Some((Heard(full200, true),
            t.(status := Downloading, url := true,
               rangeUnsupported := t.rangeUnsupported || e.blind || full200, pc := Watch(t.pc.found))))
    case Missing =>
      if t.alts > 0
      then Some((Nothing, t.(status := Downloading, url := true, alts := t.alts - 1, pc := AltWait)))
      else Some((Nothing, t.(status := Failed, pc := Doomed)))
    case Fails(how) => Broken(Nothing, t, cancelled, how)
    case _ => None
  }

  /** submitAndWatch and discardUnresumablePart. */
  function DiscardStep(d: Digest, e: Env, t: Task, a: Answer): Move {
    if !a.Go? then None else
      match t.pc
      case Submit => To(t, if t.rangeUnsupported || e.blind then Discard else Add(false))
      case Discard =>
        To(t, if d !in e.disk.part || |e.disk.part[d]| == 0 then Add(true) else DiscardRmPart)
      case DiscardRmPart => Does(RmPart, t, DiscardRmCtl)
      case DiscardRmCtl => Does(RmCtl, t, Add(true))
      case _ => None
  }

  /** submitTask: aria2 picks an unused gid; an addUri whose answer is lost has
      still been executed. */
  function AddStep(e: Env, t: Task, cancelled: bool, a: Answer): Move {
    match a
    case Created(g) =>
      if g in e.live then None
      else Some((Launch(g), t.(status := Downloading, url := true, pc := Wait(g))))
    case Lost(g, how) => if g in e.live then None else Broken(Launch(g), t, cancelled, how)
    case Fails(how) => Broken(Nothing, t, cancelled, how)
    case _ => None
  }

  /** waitTask with a gid. */
  function PollStep(c: Config, d: Digest, e: Env, t: Task, cancelled: bool, a: Answer): Move
    requires t.pc.Wait?
  {
    var ended := t.pc.gid !in e.live;
    match a
    case Complete => if ended then To(t, if Whole(c, e, d) then Verify else Backoff) else None
    case Error8(full200) =>
      if !ended then None
      else Some((Heard(full200, false),
                 t.(url := false, rangeUnsupported := t.rangeUnsupported || e.blind || full200, pc := Backoff)))
    case ErrorFatal => if ended then To(t, Doomed) else None
    case ErrorOther => if ended then To(t, Backoff) else None
    case Vanished => To(t, Backoff)
    case Fails(how) => Broken(Nothing, t, cancelled, how)
    case Stop(removed) =>
      if cancelled then Does(if removed then Unlist(t.pc.gid) else Nothing, t, Sent(Canceled)) else None
    case _ => None
  }

  /** waitTask without a gid. */
  function AltStep(c: Config, d: Digest, e: Env, t: Task, cancelled: bool, a: Answer): Move {
    if a.Go? then To(t, if Whole(c, e, d) then Verify else AltWait)
    else if a.Abort? && cancelled then To(t, Sent(Canceled))
    else None
  }

  /** verifyAndCommit up to the point where the .part has been verified. */
  function VerifyStep(c: Config, d: Digest, e: Env, t: Task, a: Answer): Move {
    if a.ReadFails? && t.pc.Verify? then To(t, BadRmPart)
    else if !a.Go? then None else
      match t.pc
      case Verify => To(t, if d in e.disk.part && c.Good(d, e.disk.part[d]) then Commit else BadRmPart)
      case BadRmPart => Does(RmPart, t, BadRmCtl)
      case BadRmCtl => Does(RmCtl, t, Backoff)
      case _ => None
  }

  /** commitFile: the rename is a step of its own, after the verification. */
  function CommitStep(d: Digest, e: Env, t: Task, a: Answer): Move {
    match t.pc
    case Commit =>
      if a.Go? && d in e.disk.part then Does(Promote, t, CommitRmCtl)
      else if a.RenameFails? then To(t, Backoff) else None
    case CommitRmCtl => if a.Go? then Does(RmCtl, t, CommitMark) else None
    case CommitMark => if a.Go? then Some((Nothing, t.(status := Committed, pc := Sent(Ok)))) else None
    case _ => None
  }

  function TaskStep(c: Config, d: Digest, e: Env, t: Task, cancelled: bool, a: Answer): (r: Move)
    ensures r.Some? && r.value.0.Promote? ==> d in e.disk.part
  {
    match t.pc
    case Unlaunched | Queued | Doomed | Backoff | Sleep => LoopStep(c, t, cancelled, a)
    case Start | PreSize | PreExists | PreRmPart | PreRmCtl => PrecheckStep(c, d, e, t, a)
    case Find => FindStep(d, e, t, cancelled, a)
    case Resolve(_) => ResolveStep(e, t, cancelled, a)
    case Submit | Discard | DiscardRmPart | DiscardRmCtl => DiscardStep(d, e, t, a)
    case Add(_) => AddStep(e, t, cancelled, a)
    case Wait(_) => PollStep(c, d, e, t, cancelled, a)
    case AltWait => AltStep(c, d, e, t, cancelled, a)
    case Verify | BadRmPart | BadRmCtl => VerifyStep(c, d, e, t, a)
    case Commit | CommitRmCtl | CommitMark => CommitStep(d, e, t, a)
    case Skipped | Sent(_) => None
  }

  // ------------------------------------------------------------------ build

  /** The status Build starts a task with, before reconciling it. */
  function Adopt(c: Config, hint: Option<Snapshot>, m: Manifest, d: Digest, verifyExisting: bool): Task {
    if hint.Some? && hint.value.manifest == m.id && d in hint.value.committed
    then Task(if verifyExisting then Pending else Committed, false, c.alts(d), false, 0, Unlaunched)
    else Task(Pending, false, c.alts(d),
              hint.Some? && hint.value.manifest == m.id && d in hint.value.ranged, 0, Unlaunched)
  }

  /** storeManifestBlob: the manifest is itself a blob, written at once unless present. */
  function StoreManifest(c: Config, e: Env, m: Manifest): Effect {
    if m.id in e.disk.blob && Verified(c.hash, e.disk.blob[m.id], m.id, |m.raw|) then Nothing else PutBlob(m.raw)
  }

  /** One step of reconcileTask on the task under the cursor. */
  function ReconcileStep(c: Config, d: Digest, e: Env, p: Proc, renames: bool): (r: (Effect, Proc))
    requires p.Building?() && p.phase.k < |p.tasks| && !p.phase.at.BManifest?
    ensures r.0.Promote? ==> d in e.disk.part
  {
    match p.phase.at
    case BCheck =>
      if p.tasks[p.phase.k].status.Committed? && d in e.disk.blob then (Nothing, p.Next())
      else if d in e.disk.blob && c.Good(d, e.disk.blob[d]) then (Nothing, p.Mark(Committed).Next())
      else if p.phase.verifyExisting && d in e.disk.blob then (Nothing, p.Mark(Pending).To(BRmBlob))
      else (Nothing, p.Mark(Pending).To(BPart))
    case BRmBlob => (RmBlob, p.To(BPart))
    case BPart =>
      if d !in e.disk.part then (Nothing, p.To(BRmCtl))
      else if |e.disk.part[d]| == c.size(d) then
        (Nothing, p.To(if c.Good(d, e.disk.part[d]) then BRename else BRmPart))
      else if |e.disk.part[d]| > c.size(d) then (Nothing, p.To(BRmPart))
      else (Nothing, p.Next())
    case BRmPart => (RmPart, p.To(BRmCtl))
    case BRmCtl => (RmCtl, p.Next())
    case BRename => if renames && d in e.disk.part then (Promote, p.To(BCommitCtl)) else (Nothing, p.Next())
    case BCommitCtl => (RmCtl, p.To(BMark))
    case BMark => (Nothing, p.Mark(Committed).Next())
  }

  // ------------------------------------------------------------ whole system

  datatype Step =
    | TaskDoes(i: nat, answer: Answer)
    | StartBuild(m: Manifest, verifyExisting: bool, readable: bool)
    | BuildDoes(renames: bool)
    | FinishBuild
    | Save                       // some mutator's persistLocked was not throttled
    | RunReturns
    | WriteIndex
    | Cancel
    | Crash                      // the process ends, by itself or not
    | AriaWrite(gid: Gid, data: Bytes)
    | AriaWriteBlob(gid: Gid, data: Bytes)
    | AriaEnd(gid: Gid)

  predicate Inside(pc: Pc) {
    !pc.Skipped? && !pc.Unlaunched? && !pc.Queued? && !pc.Sent?
  }

  /** How many goroutines hold the semaphore. */
  function Holding(tasks: seq<Task>): nat {
    if tasks == [] then 0 else Holding(tasks[1..]) + if Inside(tasks[0].pc) then 1 else 0
  }

  /** The goroutines that were launched have all sent their result. */
  predicate Returned(p: Proc) {
    p.Running?() && forall i :: 0 <= i < |p.tasks| ==>
      p.tasks[i].pc.Skipped? || p.tasks[i].pc.Sent? || (p.phase.cancelled && p.tasks[i].pc.Unlaunched?)
  }

  /** Run returns nil: nothing was pending, or no error was sent and the context
      is not cancelled. */
  predicate RunNil(p: Proc)
    requires p.Running?()
  {
    || (forall i :: 0 <= i < |p.tasks| ==> p.tasks[i].pc.Skipped?)
    || (!p.phase.cancelled && forall i :: 0 <= i < |p.tasks| ==>
          p.tasks[i].pc.Sent? ==> p.tasks[i].pc.outcome.Ok? || p.tasks[i].pc.outcome.Canceled?)
  }

  /** The last task of its digest: the one whose record Build will adopt. */
  predicate LastOne(digests: seq<Digest>, i: nat)
    requires i < |digests|
  {
    digests[i] !in digests[i + 1..]
  }

  function Snap(m: Manifest, tasks: seq<Task>): Snapshot
    requires |tasks| == |m.digests|
  {
    Snapshot(m.id,
             set i | 0 <= i < |tasks| && tasks[i].status.Committed? && LastOne(m.digests, i) :: m.digests[i],
             set i | 0 <= i < |tasks| && tasks[i].rangeUnsupported && LastOne(m.digests, i) :: m.digests[i])
  }

  /** The task list Build starts from. */
  function Adopted(c: Config, hint: Option<Snapshot>, m: Manifest, verifyExisting: bool): seq<Task> {
    seq(|m.digests|, i requires 0 <= i < |m.digests| => Adopt(c, hint, m, m.digests[i], verifyExisting))
  }

  /** PendingObjects: the goroutines of a run are those of the uncommitted tasks. */
  function Listing(tasks: seq<Task>): seq<Task> {
    seq(|tasks|, i requires 0 <= i < |tasks| =>
      tasks[i].(pc := if tasks[i].status.Committed? then Skipped else Unlaunched))
  }

  function TaskDoing(c: Config, s: State, i: nat, a: Answer): Option<State>
    requires s.proc.Shaped()
  {
    var p := s.proc;
    if !p.Running?() || i >= |p.tasks| then None
    else if p.tasks[i].pc.Queued? && a.Go? && Holding(p.tasks) >= c.concurrency then None
    else
      match TaskStep(c, p.m.digests[i], s.env, p.tasks[i], p.phase.cancelled, a)
      case None => None
      case Some((eff, t)) =>
        Some(s.(env := Apply(s.env, p.m.digests[i], eff), proc := p.(tasks := p.tasks[i := t])))
  }

  function BuildDoing(c: Config, s: State, renames: bool): Option<State>
    requires s.proc.Shaped()
  {
    var p := s.proc;
    if !p.Building?() then None
    else if p.phase.at.BManifest? then
      Some(s.(env := Apply(s.env, p.m.id, StoreManifest(c, s.env, p.m)), proc := p.To(BCheck)))
    else if p.phase.k >= |p.tasks| then None
    else
      var (eff, p') := ReconcileStep(c, p.m.digests[p.phase.k], s.env, p, renames);
      Some(s.(env := Apply(s.env, p.m.digests[p.phase.k], eff), proc := p'))
  }

  /** Build takes the directory lock, so no other imgpull is up; a new process
      starts with a clear latch. */
  ghost function StartDoing(c: Config, s: State, m: Manifest, verifyExisting: bool, readable: bool): Option<State> {
    if !s.proc.Down? || m !in c.manifests then None
    else
      var tasks := Adopted(c, if readable then s.saved else None, m, verifyExisting);
      Some(s.(env := s.env.(blind := false), proc := Up(m, tasks, Building(verifyExisting, 0, BManifest))))
  }

  function ProcessDoing(s: State, step: Step): Option<State>
    requires s.proc.Shaped()
    requires step.FinishBuild? || step.Save? || step.RunReturns? || step.WriteIndex? || step.Cancel? || step.Crash?
  {
    match step
    case FinishBuild =>
      if s.proc.Building?() && s.proc.phase.at.BCheck? && s.proc.phase.k == |s.proc.tasks|
      then Some(s.(proc := Up(s.proc.m, Listing(s.proc.tasks), Running(false, None)))) else None
    case Save =>
      if s.proc.Down? || (s.proc.Building?() && s.proc.phase.at.BManifest?) then None
      else Some(s.(saved := Some(Snap(s.proc.m, s.proc.tasks))))
    case RunReturns =>
      if Returned(s.proc) && s.proc.phase.returned.None?
      then Some(s.(proc := s.proc.(phase := s.proc.phase.(returned := Some(RunNil(s.proc)))))) else None
    case WriteIndex =>
      if s.proc.Running?() && s.proc.phase.returned == Some(true)
      then Some(s.(index := Some(s.proc.m))) else None
    case Cancel =>
      if s.proc.Running?() then Some(s.(proc := s.proc.(phase := s.proc.phase.(cancelled := true)))) else None
    case Crash =>
      if s.proc.Down? then None else Some(s.(proc := Down))
  }

  /** aria2 writes at the end of a file, never in one that already holds the
      verified blob. A renamed .part is still the file its task writes to. */
  function AriaDoing(c: Config, s: State, step: Step): Option<State>
    requires step.AriaWrite? || step.AriaWriteBlob? || step.AriaEnd?
  {
    if step.gid !in s.env.live then None
    else
      var d := s.env.live[step.gid];
      match step
      case AriaWrite(g, data) =>
        if d in s.env.disk.part && c.Good(d, s.env.disk.part[d]) then None
        else Some(s.(env := s.env.(disk := s.env.disk.Append(d, data))))
      case AriaWriteBlob(g, data) =>
        if d !in s.env.disk.blob || c.Good(d, s.env.disk.blob[d]) then None
        else Some(s.(env := s.env.(disk := s.env.disk.PutBlob(d, s.env.disk.blob[d] + data))))
      case AriaEnd(g) => Some(s.(env := Apply(s.env, d, Unlist(g))))
  }

  /** One step of the whole system, or None when it cannot be taken. */
  ghost function Do(c: Config, s: State, step: Step): (r: Option<State>)
    requires s.proc.Shaped()
    ensures r.Some? ==> r.value.proc.Shaped()
  {
    match step
    case TaskDoes(i, a) => TaskDoing(c, s, i, a)
    case BuildDoes(renames) => BuildDoing(c, s, renames)
    case StartBuild(m, verifyExisting, readable) => StartDoing(c, s, m, verifyExisting, readable)
    case FinishBuild | Save | RunReturns | WriteIndex | Cancel | Crash => ProcessDoing(s, step)
    case AriaWrite(_, _) | AriaWriteBlob(_, _) | AriaEnd(_) => AriaDoing(c, s, step)
  }

  /** The state a run reaches from a state, or None when some step of it cannot
      be taken. */
  ghost function From(c: Config, s: State, steps: seq<Step>): (r: Option<State>)
    requires s.proc.Shaped()
    ensures r.Some? ==> r.value.proc.Shaped()
    decreases |steps|
  {
    if steps == [] then Some(s)
    else
      match Do(c, s, steps[0])
      case None => None
      case Some(s') => From(c, s', steps[1..])
  }

  /** The run starts in an empty directory. */
  ghost function Exec(c: Config, steps: seq<Step>): (r: Option<State>)
    ensures r.Some? ==> r.value.proc.Shaped()
  {
    From(c, EMPTY, steps)
  }
}
