/**
  downloadObject and everything below it, in the order the scheduler does it.
  Every method keeps a history of what the goroutine saw, was told and did. The
  history is proved to be a path of the protocol's TaskStep, whatever the other
  goroutines, aria2 and the registry do between any two actions, and each of its
  answers is proved to be the one the surroundings gave.
 */
module Scheduler {
  import opened Basics
  import opened Storage
  import opened Protocol
  import Retry
  import Verify

  /** tellStatus, as far as waitTask tells the answers apart. */
  datatype Progress = Transferring | Finished | Errored(code: string, message: string) | Gone

  /** addUri: a gid, an rpcError (naming an option or not), or a broken call. */
  datatype AddReply = Gid(gid: Gid) | Rejected(option: bool) | Unsent(how: Failing) | Unanswered(gid: Gid, how: Failing)

  datatype Resolution = Found(full200: bool) | NotFound | Unreachable(how: Failing)

  /** Options of one addUri call, by name. */
  type Options = map<string, string>

  /** What the surroundings told the goroutine, one call at a time. */
  datatype Event =
    | Listing(listing: Result<seq<(Gid, Digest)>, Failing>)  // tellActive and tellWaiting
    | Clock(expired: bool)                                   // is the remembered URL stale
    | Lookup(resolution: Resolution)                         // ResolveBlobURL
    | Addition(options: Options, reply: AddReply)            // addUri
    | Poll(progress: Result<Progress, Failing>)              // tellStatus
    | Probe(full200: bool)                                   // ProbeRangeBlind
    | Removal(done: bool)                                    // forceRemove
    | Reading(fails: bool)                                   // reading the .part
    | Renaming(granted: bool)

  /** The surroundings of one goroutine. */
  class World {
    var env: Env
    var cancelled: bool
    var patience: nat  // polls until the context is cancelled from outside
    ghost var log: seq<Event>

    constructor (env: Env, patience: nat)
      ensures this.env == env && !cancelled && this.patience == patience && log == []
    {
      this.env, cancelled, this.patience, log := env, false, patience, [];
    }

    /** Anything at all may have happened since the last action. */
    method Interfere()
      modifies `env, `cancelled
      ensures old(cancelled) ==> cancelled
    {
      env := *;
      if * { cancelled := true; }
    }

    /** A poll interval passes; only finitely many pass before a cancellation. */
    method Tick()
      modifies `env, `cancelled, `patience
      ensures old(cancelled) ==> cancelled
      ensures patience < old(patience) || (patience == old(patience) && cancelled)
    {
      Interfere();
      if patience == 0 { cancelled := true; } else { patience := patience - 1; }
    }

    /** tellActive and tellWaiting, taken as one listing of the live tasks. */
    method List() returns (r: Result<seq<(Gid, Digest)>, Failing>)
      modifies `log
      ensures log == old(log) + [Listing(r)]
      ensures r.Success? ==> forall g, d :: (g, d) in r.value <==> g in env.live && env.live[g] == d
      ensures r == Failure(Interrupted) ==> cancelled
    {
      var found, rest := [], env.live.Keys;
      while rest != {}
        invariant rest <= env.live.Keys
        invariant forall g, d :: (g, d) in found <==> g in env.live && g !in rest && env.live[g] == d
      {
        var g :| g in rest;
        found, rest := found + [(g, env.live[g])], rest - {g};
      }
      var how: Failing := *;
      if how.Interrupted? && !cancelled { how := Retryable; }
      if * { r := Failure(how); } else { r := Success(found); }
      log := log + [Listing(r)];
    }

    /** One addUri call for the .part of d; its effect does not depend on the options. */
    method AddUri(d: Digest, options: Options) returns (r: AddReply)
      modifies `env, `log
      ensures log == old(log) + [Addition(options, r)]
      ensures r.Gid? || r.Unanswered? ==>
                r.gid !in old(env).live && env == Apply(old(env), d, Launch(r.gid))
      ensures r.Rejected? || r.Unsent? ==> env == old(env)
      ensures (r.Unsent? || r.Unanswered?) && r.how.Interrupted? ==> cancelled
    {
      var g: Gid := *;
      var how: Failing := *;
      var option: bool, lost: bool := *, *;
      if how.Interrupted? && !cancelled { how := Retryable; }
      if * {
        r := Rejected(option);
      } else if g in env.live {
        r := Unsent(how);
      } else if * {
        r := Unsent(how);
      } else {
        env := Apply(env, d, Launch(g));
        r := if lost then Unanswered(g, how) else Gid(g);
      }
      log := log + [Addition(options, r)];
    }

    method TellStatus(g: Gid) returns (r: Result<Progress, Failing>)
      modifies `log
      ensures log == old(log) + [Poll(r)]
      ensures r.Success? && (r.value.Finished? || r.value.Errored?) ==> g !in env.live
      ensures r == Failure(Interrupted) ==> cancelled
    {
      var how: Failing := *;
      if how.Interrupted? && !cancelled { how := Retryable; }
      var code: string, message: string := *, *;
      var fails: bool, gone: bool, finished: bool := *, *, *;
      r := if fails then Failure(how)
           else if gone then Success(Gone)
           else if g in env.live then Success(Transferring)
           else Success(if finished then Finished else Errored(code, message));
      log := log + [Poll(r)];
    }

    method ForceRemove(g: Gid) returns (done: bool)
      modifies `env, `log
      ensures log == old(log) + [Removal(done)]
      ensures env == if done then old(env).(live := old(env).live - {g}) else old(env)
    {
      done := *;
      if done { env := env.(live := env.live - {g}); }
      log := log + [Removal(done)];
    }

    method ResolveBlobURL() returns (r: Resolution)
      modifies `log
      ensures log == old(log) + [Lookup(r)]
      ensures r == Unreachable(Interrupted) ==> cancelled
    {
      r := *;
      if r == Unreachable(Interrupted) && !cancelled { r := NotFound; }
      log := log + [Lookup(r)];
    }

    method ProbeRangeBlind() returns (full200: bool)
      modifies `log
      ensures log == old(log) + [Probe(full200)]
    {
      full200 := *;
      log := log + [Probe(full200)];
    }

    method Expired() returns (expired: bool)
      modifies `log
      ensures log == old(log) + [Clock(expired)]
    {
      expired := *;
      log := log + [Clock(expired)];
    }

    method ReadError() returns (fails: bool)
      modifies `log
      ensures log == old(log) + [Reading(fails)]
    {
      fails := *;
      log := log + [Reading(fails)];
    }

    method MayRename() returns (granted: bool)
      modifies `log
      ensures log == old(log) + [Renaming(granted)]
    {
      granted := *;
      log := log + [Renaming(granted)];
    }
  }

  /** How attempt and waitTask return; Nil is a nil error. */
  datatype Return = Nil | CtxErr | DeadlineErr | NonRetryable | RetryableErr

  function Broke(how: Failing): Return {
    match how
    case Retryable => RetryableErr
    case TimedOut => DeadlineErr
    case Interrupted => CtxErr
  }

  /** Where the goroutine is after a return: out of downloadObject, about to be
      marked failed, or about to retry. */
  function Landing(r: Return): Pc {
    match r
    case Nil => Sent(Ok)
    case CtxErr => Sent(Canceled)
    case DeadlineErr => Sent(Deadline)
    case NonRetryable => Doomed
    case RetryableErr => Backoff
  }

  ghost function AfterRemove(pc: Pc): Pc {
    if pc.PreRmPart? then PreRmCtl else if pc.DiscardRmPart? then DiscardRmCtl else BadRmCtl
  }

  ghost function AfterRemoveCtl(pc: Pc): Pc {
    if pc.PreRmCtl? then Find
    else if pc.DiscardRmCtl? then Add(true)
    else if pc.BadRmCtl? then Backoff else CommitMark
  }

  const CHECKSUM := "checksum"
  const HEADER := "header"
  const ALL_PROXY := "all-proxy"

  /** What has been dropped by the n-th call. */
  function Dropped(n: nat): set<string> {
    if n == 0 then {} else if n == 1 then {CHECKSUM}
    else if n == 2 then {CHECKSUM, HEADER} else {CHECKSUM, HEADER, ALL_PROXY}
  }

  // ------------------------------------------- what the surroundings dictate

  function Front(heard: seq<Event>): seq<Event>
    requires heard != []
  {
    heard[..|heard| - 1]
  }

  function Last(heard: seq<Event>): Event
    requires heard != []
  {
    heard[|heard| - 1]
  }

  /** The first listed task with this target. */
  function FirstFor(listing: seq<(Gid, Digest)>, d: Digest): Option<Gid> {
    if listing == [] then None
    else if listing[0].1 == d then Some(listing[0].0)
    else FirstFor(listing[1..], d)
  }

  function FromListing(d: Digest, r: Result<seq<(Gid, Digest)>, Failing>): Answer {
    match r
    case Failure(how) => Fails(how)
    case Success(listing) =>
      match FirstFor(listing, d)
      case None => NotListed
      case Some(g) => Listed(g)
  }

  function FromLookup(r: Resolution): Answer {
    match r
    case Found(full200) => Resolved(full200)
    case NotFound => Missing
    case Unreachable(how) => Fails(how)
  }

  /** A remembered URL is used while it is fresh; else a URL is looked up. */
  predicate ToldUrl(remembered: bool, heard: seq<Event>, a: Answer) {
    if remembered && heard == [Clock(false)] then a == Fresh
    else
      && |heard| == (if remembered then 2 else 1) && (remembered ==> heard[0] == Clock(true))
      && Last(heard).Lookup? && a == FromLookup(Last(heard).resolution)
  }

  /** n calls, each refused for its options, each with one more class dropped. */
  predicate Refused(options: Options, heard: seq<Event>) {
    |heard| <= 3 && forall k :: 0 <= k < |heard| ==> heard[k] == Addition(options - Dropped(k), Rejected(true))
  }

  /** Up to four calls: the first with all options, each later one after a complaint
      about them, without the checksum, then the headers, then the proxy as well. */
  ghost predicate Simplifies(options: Options, sent: seq<Event>) {
    && 1 <= |sent| <= 4
    && (forall k :: 0 <= k < |sent| ==>
          && sent[k].Addition?
          && sent[k].options == options - if k == 0 then {} else if k == 1 then {"checksum"}
                                          else if k == 2 then {"checksum", "header"}
                                          else {"checksum", "header", "all-proxy"})
    && forall k :: 0 <= k < |sent| - 1 ==> sent[k].reply == Rejected(true)
  }

  lemma NothingRefused(options: Options)
    ensures Refused(options, []) && options - Dropped(0) == options
  {
  }

  lemma RefusedSimplifies(options: Options, heard: seq<Event>, last: Event)
    requires Refused(options, heard) && last.Addition? && last.options == options - Dropped(|heard|)
    ensures Simplifies(options, heard + [last])
  {
  }

  lemma RefusedMore(options: Options, heard: seq<Event>, opts: Options)
    requires Refused(options, heard) && |heard| <= 2 && opts == options - Dropped(|heard|)
    ensures Refused(options, heard + [Addition(opts, Rejected(true))])
  {
  }

  /** The n-th complaint about options drops one more class of them. */
  function Simplified(opts: Options, drop: nat): Options {
    var fewer := opts - {CHECKSUM};
    var fewer' := if drop >= 1 then fewer - {HEADER} else fewer;
    if drop >= 2 then fewer' - {ALL_PROXY} else fewer'
  }

  lemma DroppedMore(options: Options, drop: nat)
    requires drop <= 2
    ensures Simplified(options - Dropped(drop), drop) == options - Dropped(drop + 1)
  {
  }

  function FromReply(r: AddReply): Answer {
    match r
    case Gid(g) => Created(g)
    case Unanswered(g, how) => Lost(g, how)
    case Unsent(how) => Fails(how)
    case Rejected(option) => Fails(Retryable)
  }

  /** The last call decides; a complaint about options is final at the fourth. */
  predicate ToldAddition(options: Options, heard: seq<Event>, a: Answer) {
    && heard != [] && Refused(options, Front(heard))
    && Last(heard).Addition? && Last(heard).options == options - Dropped(|heard| - 1)
    && a == FromReply(Last(heard).reply)
    && (Last(heard).reply.Rejected? ==> !Last(heard).reply.option || |heard| == 4)
  }

  /** The run of failed polls at the end, as long as every poll says to go on. */
  function Streak(heard: seq<Event>): Option<nat> {
    if heard == [] then Some(0)
    else
      match Streak(Front(heard))
      case None => None
      case Some(n) =>
        if !Last(heard).Poll? then None
        else if Last(heard).progress.Failure? then if n < 10 then Some(n + 1) else None
        else if Last(heard).progress.value.Transferring? then Some(0) else None
  }

  lemma NoStreak()
    ensures Streak([]) == Some(0)
  {
  }

  lemma StreakMore(heard: seq<Event>, r: Result<Progress, Failing>)
    ensures Streak(heard + [Poll(r)]) ==
            match Streak(heard)
            case None => None
            case Some(n) =>
              if r.Failure? then if n < 10 then Some(n + 1) else None
              else if r.value.Transferring? then Some(0) else None
  {
    assert Front(heard + [Poll(r)]) == heard;
  }

  predicate Failed(e: Event) { e.Poll? && e.progress.Failure? }

  predicate Moving(e: Event) { e == Poll(Success(Transferring)) }

  lemma {:induction false} StreakSays(heard: seq<Event>)
    requires Streak(heard).Some?
    ensures var n := Streak(heard).value;
            && n <= 10 && n <= |heard| && (forall k :: |heard| - n <= k < |heard| ==> Failed(heard[k]))
            && (n < |heard| ==> Moving(heard[|heard| - n - 1]))
            && forall k :: 0 <= k < |heard| ==> Failed(heard[k]) || Moving(heard[k])
  {
    if heard != [] {
      StreakSays(Front(heard));
      assert forall k :: 0 <= k < |heard| - 1 ==> Front(heard)[k] == heard[k];
    }
  }

  /** A watch is given up for a failed poll exactly at the eleventh in a row. */
  lemma EleventhFails(known: bool, cancelled: bool, heard: seq<Event>, how: Failing)
    requires ToldWatch(known, cancelled, heard, Fails(how))
    ensures |heard| >= 11 && heard[|heard| - 1] == Poll(Failure(how))
    ensures forall k :: |heard| - 11 <= k < |heard| ==> Failed(heard[k])
    ensures |heard| > 11 ==> Moving(heard[|heard| - 12])
  {
    StreakSays(Front(heard));
  }

  /** Eleven failed polls in a row, from i on. */
  ghost predicate GivesUp(heard: seq<Event>, i: nat) {
    i + 11 <= |heard| && forall k :: i <= k < i + 11 ==> Failed(heard[k])
  }

  /** Polls that fail or find the transfer going on leave the watch on, unless eleven
      in a row failed. */
  lemma {:induction false} StreakGoesOn(heard: seq<Event>)
    requires forall k :: 0 <= k < |heard| ==> Failed(heard[k]) || Moving(heard[k])
    requires forall i :: !GivesUp(heard, i)
    ensures Streak(heard).Some?
  {
    if heard != [] {
      var front := Front(heard);
      assert forall k :: 0 <= k < |front| ==> front[k] == heard[k];
      assert forall i :: GivesUp(front, i) ==> GivesUp(heard, i);
      StreakGoesOn(front);
      StreakSays(front);
      assert Streak(front).value == 10 && Failed(heard[|heard| - 1]) ==> GivesUp(heard, |heard| - 11);
    }
  }

  predicate FatalCode(code: string, message: string) {
    Retry.As(Retry.Classify(code, message), Retry.Class.NonRetryable)
  }

  /** How a watch ends: the last event decides, and all before it said to go on. */
  predicate ToldWatch(known: bool, cancelled: bool, heard: seq<Event>, a: Answer) {
    && heard != []
    && var front := Front(heard);
       match Last(heard)
       case Removal(done) => Streak(front).Some? && cancelled && a == Stop(done)
       case Probe(full200) =>
         && !known && front != [] && Streak(Front(front)).Some? && Last(front).Poll?
         && Last(front).progress.Success? && Last(front).progress.value.Errored?
         && Last(front).progress.value.code == "8" && a == Error8(full200)
       case Poll(Failure(how)) =>
         if a.Stop? then Streak(heard).Some? && cancelled && a == Stop(false)
         else Streak(front) == Some(10) && a == Fails(how)
       case Poll(Success(progress)) =>
         && Streak(front).Some?
         && (match progress
             case Transferring => false
             case Finished => a == Complete
             case Gone => a == Vanished
             case Errored(code, message) =>
               if code == "8" then known && a == Error8(false)
               else a == if FatalCode(code, message) then ErrorFatal else ErrorOther)
       case _ => false
  }

  /** Where a step needs an answer from outside, it is the one that was heard. */
  predicate Told(options: Options, d: Digest, t: Task, seen: Env, cancelled: bool, heard: seq<Event>, a: Answer) {
    match t.pc
    case Find => |heard| == 1 && heard[0].Listing? && a == FromListing(d, heard[0].listing)
    case Resolve(_) => ToldUrl(t.url, heard, a)
    case Add(_) => ToldAddition(options, heard, a)
    case Wait(_) => ToldWatch(t.rangeUnsupported || seen.blind, cancelled, heard, a)
    case Verify => |heard| == 1 && heard[0].Reading? && a == if heard[0].fails then ReadFails else Go
    case Commit =>
      && |heard| == 1 && heard[0].Renaming?
      && a == if heard[0].granted && d in seen.disk.part then Go else RenameFails
    case _ => heard == []
  }

  /** One move of the goroutine: what it saw, what it was told, the answer that
      makes, and what it left. */
  datatype Moment = Moment(seen: Env, cancelled: bool, heard: seq<Event>, answer: Answer, after: Env)

  /** The task after a history, or None when the machine does not allow it or an
      answer is not the one that was heard. */
  function Replay(c: Config, options: Options, d: Digest, start: Task, history: seq<Moment>): Option<Task> {
    if history == [] then Some(start)
    else
      var m := history[|history| - 1];
      match Replay(c, options, d, start, history[..|history| - 1])
      case None => None
      case Some(t) =>
        if !Told(options, d, t, m.seen, m.cancelled, m.heard, m.answer) then None
        else
          match TaskStep(c, d, m.seen, t, m.cancelled, m.answer)
          case None => None
          case Some((eff, t')) => if m.after == Apply(m.seen, d, eff) then Some(t') else None
  }

  /** Everything a history was told, in order. */
  function AllHeard(history: seq<Moment>): seq<Event> {
    if history == [] then [] else AllHeard(history[..|history| - 1]) + history[|history| - 1].heard
  }

  lemma ReplayMore(c: Config, o: Options, d: Digest, start: Task, history: seq<Moment>, m: Moment)
    ensures Replay(c, o, d, start, history + [m]) ==
            match Replay(c, o, d, start, history)
            case None => None
            case Some(t) =>
              if !Told(o, d, t, m.seen, m.cancelled, m.heard, m.answer) then None
              else
                match TaskStep(c, d, m.seen, t, m.cancelled, m.answer)
                case None => None
                case Some((eff, t')) => if m.after == Apply(m.seen, d, eff) then Some(t') else None
    ensures AllHeard(history + [m]) == AllHeard(history) + m.heard
  {
    hide Told, TaskStep, Apply;
    assert (history + [m])[..|history + [m]| - 1] == history;
  }

  /** Steps that need nothing from outside. */
  predicate Silent(pc: Pc) {
    !pc.Find? && !pc.Resolve? && !pc.Add? && !pc.Wait? && !pc.Verify? && !pc.Commit?
  }

  lemma SilentTold(o: Options, d: Digest, t: Task, seen: Env, cancelled: bool, a: Answer)
    requires Silent(t.pc)
    ensures Told(o, d, t, seen, cancelled, [], a)
  {
  }

  lemma CommitTold(o: Options, d: Digest, t: Task, seen: Env, cancelled: bool, granted: bool)
    requires t.pc.Commit?
    ensures Told(o, d, t, seen, cancelled, [Renaming(granted)],
                 if granted && d in seen.disk.part then Go else RenameFails)
  {
  }

  lemma WatchTold(o: Options, d: Digest, t: Task, seen: Env, cancelled: bool, heard: seq<Event>, a: Answer)
    requires t.pc.Wait? && ToldWatch(t.rangeUnsupported || seen.blind, cancelled, heard, a)
    ensures Told(o, d, t, seen, cancelled, heard, a)
  {
    hide ToldWatch;
  }

  lemma UrlTold(o: Options, d: Digest, t: Task, seen: Env, cancelled: bool, heard: seq<Event>, a: Answer)
    requires t.pc.Resolve? && ToldUrl(t.url, heard, a)
    ensures Told(o, d, t, seen, cancelled, heard, a)
  {
    hide ToldUrl;
  }

  lemma ToldReply(o: Options, d: Digest, t: Task, seen: Env, cancelled: bool, heard: seq<Event>, opts: Options,
                  r: AddReply)
    requires t.pc.Add? && Refused(o, heard) && opts == o - Dropped(|heard|)
    requires r.Rejected? ==> !r.option || |heard| == 3
    ensures Told(o, d, t, seen, cancelled, heard + [Addition(opts, r)], FromReply(r))
  {
    assert Front(heard + [Addition(opts, r)]) == heard;
  }

  lemma ForgetStep(c: Config, d: Digest, e: Env, t: Task, cancelled: bool, full200: bool)
    requires t.pc.Wait? && t.pc.gid !in e.live
    ensures TaskStep(c, d, e, t, cancelled, Error8(full200)) ==
            Some((Heard(full200, false),
                  t.(url := false, rangeUnsupported := t.rangeUnsupported || e.blind || full200, pc := Backoff)))
    ensures Apply(e, d, Heard(full200, false)) == e.(answered200 := e.answered200 || full200)
  {
    hide LoopStep, PrecheckStep, FindStep, ResolveStep, DiscardStep, AddStep, AltStep, VerifyStep, CommitStep;
  }

  /** aria2's word that a download has failed for good. */
  predicate FatalPoll(e: Event) {
    && e.Poll? && e.progress.Success? && e.progress.value.Errored?
    && e.progress.value.code in {"3", "9", "10", "15", "16", "20", "21", "23"}
  }

  /** The goroutine of one object. */
  class Download {
    const c: Config
    const d: Digest
    const options: Options
    const w: World
    var status: Status
    var url: bool
    var alts: nat
    var rangeUnsupported: bool
    var retries: nat
    var attempt: nat
    ghost var pc: Pc
    ghost const start: Task
    ghost var history: seq<Moment>

    constructor (c: Config, d: Digest, options: Options, w: World, alts: nat, rangeUnsupported: bool, retries: nat)
      requires w.log == []
      ensures this.c == c && this.d == d && this.w == w && this.options == options && this.retries == retries
      ensures Ok() && pc.Start? && attempt == 1 && status.Pending?
    {
      this.c, this.d, this.options, this.w := c, d, options, w;
      status, url, this.alts, this.rangeUnsupported := Pending, false, alts, rangeUnsupported;
      this.retries, attempt, pc, history := retries, 1, Start, [];
      start := Task(Pending, false, alts, rangeUnsupported, 1, Start);
    }

    /** The machine's view of this goroutine. */
    ghost function View(): Task
      reads this
    {
      Task(status, url, alts, rangeUnsupported, attempt, pc)
    }

    /** The history is a path of the machine that ends in this state, and what it
        was told is all that was heard, but for the events at the end. */
    ghost predicate Owes(heard: seq<Event>)
      reads this, w`log
    {
      Replay(c, options, d, start, history) == Some(View()) && w.log == AllHeard(history) + heard
    }

    ghost predicate Ok()
      reads this, w`log
    {
      Owes([])
    }

    /** What was heard last makes this answer. */
    ghost predicate Says(heard: seq<Event>, a: Answer)
      reads this, w
    {
      Owes(heard) && Told(options, d, View(), w.env, w.cancelled, heard, a)
    }

    /** Records a move: the machine, asked with the answer that was heard about
        what was seen, makes exactly the change that was made. */
    ghost method Note(seen: Env, heard: seq<Event>, answer: Answer, before: Task, eff: Effect)
      requires Replay(c, options, d, start, history) == Some(before) && w.log == AllHeard(history) + heard
      requires Told(options, d, before, seen, w.cancelled, heard, answer)
      requires TaskStep(c, d, seen, before, w.cancelled, answer) == Some((eff, View()))
      requires w.env == Apply(seen, d, eff)
      modifies `history
      ensures Ok()
    {
      hide TaskStep, Apply, Told, Replay, AllHeard;
      var m := Moment(seen, w.cancelled, heard, answer, w.env);
      ReplayMore(c, options, d, start, history, m);
      history := history + [m];
      assert AllHeard(history) + [] == AllHeard(history);
    }

    /** A move for which nothing had to be heard. */
    ghost method Pass(seen: Env, answer: Answer, before: Task, eff: Effect)
      requires Replay(c, options, d, start, history) == Some(before) && w.log == AllHeard(history) + []
      requires Silent(before.pc)
      requires TaskStep(c, d, seen, before, w.cancelled, answer) == Some((eff, View()))
      requires w.env == Apply(seen, d, eff)
      modifies `history
      ensures Ok()
    {
      hide TaskStep, Apply, Told, Replay, AllHeard;
      SilentTold(options, d, before, seen, w.cancelled, answer);
      Note(seen, [], answer, before, eff);
    }

    lemma WatchSays(heard: seq<Event>, a: Answer)
      requires Owes(heard) && pc.Wait?
      requires ToldWatch(rangeUnsupported || w.env.blind, w.cancelled, heard, a)
      ensures Says(heard, a)
    {
      hide Replay, AllHeard, ToldWatch;
    }

    // --------------------------------------------------------- verifyAndCommit

    /** Time passes: the context stays cancelled and polls are not given back. */
    twostate predicate Later()
      reads w
    {
      (old(w.cancelled) ==> w.cancelled) && w.patience <= old(w.patience)
    }

    /** Removes the .part and nothing else; was is the directory it found. */
    method Remove() returns (ghost was: Disk)
      requires Ok() && (pc.PreRmPart? || pc.DiscardRmPart? || pc.BadRmPart?)
      modifies w, `pc, `history
      ensures Ok() && pc == AfterRemove(old(pc)) && Later()
      ensures w.env.disk.part == was.part - {d} && w.env.disk.ctl == was.ctl && w.env.disk.blob == was.blob
    {
      hide LoopStep, FindStep, ResolveStep, AddStep, PollStep, AltStep, CommitStep, Replay, AllHeard;
      w.Interfere();
      ghost var before, seen := View(), w.env;
      was := w.env.disk;
      w.env := w.env.(disk := w.env.disk.RemovePart(d));
      pc := AfterRemove(pc);
      Pass(seen, Go, before, RmPart);
    }

    /** Removes the control file and nothing else. */
    method RemoveCtl() returns (ghost was: Disk)
      requires Ok() && (pc.PreRmCtl? || pc.DiscardRmCtl? || pc.BadRmCtl? || pc.CommitRmCtl?)
      modifies w, `pc, `history
      ensures Ok() && pc == AfterRemoveCtl(old(pc)) && Later()
      ensures w.env.disk.part == was.part && w.env.disk.ctl == was.ctl - {d} && w.env.disk.blob == was.blob
    {
      hide LoopStep, FindStep, ResolveStep, AddStep, PollStep, AltStep, Replay, AllHeard;
      w.Interfere();
      ghost var before, seen := View(), w.env;
      was := w.env.disk;
      w.env := w.env.(disk := w.env.disk.RemoveCtl(d));
      pc := AfterRemoveCtl(pc);
      Pass(seen, Go, before, RmCtl);
    }

    /** The verdict depends on the .part and on whether reading it fails. */
    method VerifyPart() returns (good: bool, ghost told: bool)
      requires Ok() && pc.Verify?
      modifies w, `pc, `history
      ensures Ok() && pc == (if good then Commit else BadRmPart) && Later()
      ensures w.log == old(w.log) + [Reading(told)]
      ensures good <==> !told && d in w.env.disk.part && c.Good(d, w.env.disk.part[d])
      ensures good <==>
              && !told && d in w.env.disk.part && |w.env.disk.part[d]| == c.size(d)
              && (d.algorithm == "sha256" || d.algorithm == "sha512")
              && c.hash(d.algorithm, w.env.disk.part[d]) == d.hex
    {
      hide Replay, AllHeard;
      hide LoopStep, PrecheckStep, FindStep, ResolveStep, DiscardStep, AddStep, PollStep, AltStep, CommitStep;
      w.Interfere();
      var disk := w.env.disk;
      var fails := w.ReadError();
      var err := Verify.Blob(c.hash, if d in disk.part then Some(disk.part[d]) else None, d, c.size(d), fails);
      good, told := err.None?, fails;
      ghost var before := View();
      pc := if good then Commit else BadRmPart;
      Note(w.env, [Reading(fails)], if fails then ReadFails else Go, before, Nothing);
    }

    method Rename() returns (ok: bool, ghost granted: bool, ghost was: Env)
      requires Ok() && pc.Commit?
      modifies w, `pc, `history
      ensures Ok() && pc == (if ok then CommitRmCtl else Backoff) && Later()
      ensures w.log == old(w.log) + [Renaming(granted)] && (ok <==> granted && d in was.disk.part)
      ensures !ok ==> w.env == was
      ensures ok ==>
                && w.env.live == was.live && w.env.disk.ctl == was.disk.ctl
                && w.env.disk.part == was.disk.part - {d} && w.env.disk.blob == was.disk.blob[d := was.disk.part[d]]
    {
      hide Replay, AllHeard, Told;
      hide LoopStep, PrecheckStep, FindStep, ResolveStep, DiscardStep, AddStep, PollStep, AltStep, VerifyStep;
      w.Interfere();
      ghost var before, seen := View(), w.env;
      var may := w.MayRename();
      granted, was := may, seen;
      CommitTold(options, d, before, seen, w.cancelled, granted);
      ok := may && d in w.env.disk.part;
      if ok {
        w.env := w.env.(disk := w.env.disk.Promote(d));
        pc := CommitRmCtl;
        Note(seen, [Renaming(granted)], Go, before, Promote);
      } else {
        pc := Backoff;
        Note(seen, [Renaming(granted)], RenameFails, before, Nothing);
      }
    }

    method MarkCommitted()
      requires Ok() && pc.CommitMark?
      modifies w, this
      ensures Ok() && pc == Sent(Outcome.Ok) && status.Committed? && retries == old(retries) && attempt == old(attempt)
      ensures Later()
    {
      hide LoopStep, PrecheckStep, FindStep, ResolveStep, DiscardStep, AddStep, PollStep, AltStep, VerifyStep;
      w.Interfere();
      ghost var before := View();
      status, pc := Committed, Sent(Outcome.Ok);
      Pass(w.env, Go, before, Nothing);
    }

    method VerifyAndCommit() returns (r: Return)
      requires Ok() && pc.Verify?
      modifies w, this
      ensures Ok() && pc == Landing(r) && (r.Nil? || r.RetryableErr?)
      ensures r.Nil? ==> status.Committed?
      ensures retries == old(retries) && attempt == old(attempt)
      ensures Later()
    {
      hide TaskStep, Ok;
      var good;
      ghost var told;
      good, told := VerifyPart();
      if !good {
        var _ := Remove();
        var _ := RemoveCtl();
        return RetryableErr;
      }
      var ok;
      ghost var granted, was;
      ok, granted, was := Rename();
      if !ok { return RetryableErr; }
      var _ := RemoveCtl();
      MarkCommitted();
      return Nil;
    }

    // ---------------------------------------------------------------- precheck

    method StatWhole() returns (whole: bool)
      requires Ok() && pc.Start?
      modifies w, `pc, `history
      ensures Ok() && pc == (if whole then Verify else PreSize) && Later()
      ensures whole <==> d in w.env.disk.part && |w.env.disk.part[d]| == c.size(d)
    {
      hide LoopStep, FindStep, ResolveStep, DiscardStep, AddStep, PollStep, AltStep, VerifyStep, CommitStep;
      w.Interfere();
      whole := d in w.env.disk.part && |w.env.disk.part[d]| == c.size(d);
      ghost var before := View();
      pc := if whole then Verify else PreSize;
      Pass(w.env, Go, before, Nothing);
    }

    method StatOversized() returns (oversized: bool)
      requires Ok() && pc.PreSize?
      modifies w, `pc, `history
      ensures Ok() && pc == (if oversized then PreRmPart else PreExists) && Later()
      ensures oversized <==> d in w.env.disk.part && |w.env.disk.part[d]| > c.size(d)
    {
      hide LoopStep, FindStep, ResolveStep, DiscardStep, AddStep, PollStep, AltStep, VerifyStep, CommitStep;
      w.Interfere();
      oversized := d in w.env.disk.part && |w.env.disk.part[d]| > c.size(d);
      ghost var before := View();
      pc := if oversized then PreRmPart else PreExists;
      Pass(w.env, Go, before, Nothing);
    }

    method StatMissing() returns (missing: bool)
      requires Ok() && pc.PreExists?
      modifies w, `pc, `history
      ensures Ok() && pc == (if missing then PreRmCtl else Find) && Later()
      ensures missing <==> d !in w.env.disk.part
    {
      hide LoopStep, FindStep, ResolveStep, DiscardStep, AddStep, PollStep, AltStep, VerifyStep, CommitStep;
      w.Interfere();
      missing := d !in w.env.disk.part;
      ghost var before := View();
      pc := if missing then PreRmCtl else Find;
      Pass(w.env, Go, before, Nothing);
    }

    /** Two tests of the directory, as first and second. A .part that was too large is
        removed with its control file, one that was missing loses only that; after
        any other the directory is as the second test saw it. PrecheckAlone says
        what this comes to when nobody interferes. */
    method Precheck() returns (ghost first: Disk, ghost second: Disk)
      requires Ok() && pc.PreSize?
      modifies w, `pc, `history
      ensures Ok() && pc.Find? && Later()
      ensures var large := d in first.part && |first.part[d]| > c.size(d);
              if large || d !in second.part then d !in w.env.disk.ctl else w.env.disk == second
    {
      hide Ok, TaskStep;
      var oversized := StatOversized();
      first, second := w.env.disk, w.env.disk;
      if oversized {
        var _ := Remove();
        var _ := RemoveCtl();
        return;
      }
      var missing := StatMissing();
      second := w.env.disk;
      if missing { var _ := RemoveCtl(); }
    }

    // -------------------------------------------------------- findExistingTask

    /** Leaves downloadObject's inner part on a failed remote call. */
    method Breaks(how: Failing, ghost heard: seq<Event>) returns (r: Return)
      requires Says(heard, Fails(how))
      requires (pc.Find? || pc.Resolve? || pc.Add? || pc.Wait?) && (how.Interrupted? ==> w.cancelled)
      modifies `pc, `history
      ensures r == Broke(how) && Ok() && pc == Landing(r)
      ensures how.Retryable? ==> pc == Backoff
      ensures how.TimedOut? ==> pc == Sent(Deadline)
      ensures how.Interrupted? ==> pc == Sent(Canceled)
    {
      hide Replay, AllHeard, Told;
      ghost var before := View();
      r := Broke(how);
      pc := Landing(r);
      Note(w.env, heard, Fails(how), before, Nothing);
    }

    /** The gid is that of the first listed task on this .part, and none is
        returned only when no live task has it. */
    method FindExistingTask() returns (gid: Option<Gid>, r: Return)
      requires Ok() && pc.Find?
      modifies w, `pc, `history
      ensures Ok() && pc == (if r.Nil? then Resolve(gid) else Landing(r)) && !r.NonRetryable?
      ensures r.Nil? && gid.Some? ==> gid.value in w.env.live && w.env.live[gid.value] == d
      ensures r.Nil? && gid.None? ==> d !in w.env.live.Values
      ensures Later()
    {
      hide Replay, AllHeard;
      hide LoopStep, PrecheckStep, ResolveStep, DiscardStep, AddStep, PollStep, AltStep, VerifyStep, CommitStep;
      w.Interfere();
      var listing := w.List();
      if listing.Failure? {
        gid := None;
        r := Breaks(listing.error, [Listing(listing)]);
        return;
      }
      gid := ScanListing(listing.value);
      ghost var before := View();
      pc, r := Resolve(gid), Nil;
      Note(w.env, [Listing(listing)], FromListing(d, listing), before, Nothing);
    }

    method ScanListing(listing: seq<(Gid, Digest)>) returns (gid: Option<Gid>)
      requires forall g, x :: (g, x) in listing <==> g in w.env.live && w.env.live[g] == x
      ensures gid == FirstFor(listing, d)
      ensures gid.Some? ==>
                exists i :: 0 <= i < |listing| && listing[i] == (gid.value, d) &&
                  forall k :: 0 <= k < i ==> listing[k].1 != d
      ensures if gid.Some? then gid.value in w.env.live && w.env.live[gid.value] == d else d !in w.env.live.Values
    {
      for i := 0 to |listing|
        invariant FirstFor(listing, d) == FirstFor(listing[i..], d)
        invariant forall k :: 0 <= k < i ==> listing[k].1 != d
      {
        if listing[i].1 == d {
          assert listing[i] in listing;
          return Some(listing[i].0);
        }
      }
      NotInListing(listing);
      return None;
    }

    lemma NotInListing(listing: seq<(Gid, Digest)>)
      requires forall k :: 0 <= k < |listing| ==> listing[k].1 != d
      requires forall g, x :: (g, x) in listing <==> g in w.env.live && w.env.live[g] == x
      ensures d !in w.env.live.Values
    {
      forall g | g in w.env.live
        ensures w.env.live[g] != d
      {
        assert (g, w.env.live[g]) in listing;
      }
    }

    // ----------------------------------------------------------- resolving a URL

    method UseRemembered(found: Option<Gid>) returns (used: bool, ghost heard: seq<Event>)
      requires Ok() && pc == Resolve(found)
      modifies w, `pc, `history
      ensures Later() && pc == if used then Watch(found) else Resolve(found)
      ensures used ==> url && w.log == old(w.log) + [Clock(false)]
      ensures !used ==> w.log == old(w.log) + if url then [Clock(true)] else []
      ensures if used then Ok() else Owes(heard) && heard == if url then [Clock(true)] else []
    {
      hide Replay, AllHeard;
      hide LoopStep, PrecheckStep, FindStep, DiscardStep, AddStep, PollStep, AltStep, VerifyStep, CommitStep;
      used, heard := false, [];
      w.Interfere();
      if url {
        var expired := w.Expired();
        used, heard := !expired, [Clock(expired)];
      }
      if used {
        ghost var before := View();
        pc := Watch(found);
        Note(w.env, heard, Fresh, before, Nothing);
      }
    }

    /** The registry answered with a URL; it may have shown that it ignores Range. */
    method TakeURL(found: Option<Gid>, full200: bool, ghost heard: seq<Event>)
      requires Says(heard, Resolved(full200)) && pc == Resolve(found)
      modifies w`env, `status, `url, `rangeUnsupported, `pc, `history
      ensures Ok() && pc == Watch(found)
      ensures rangeUnsupported == (old(rangeUnsupported) || old(w.env.blind) || full200)
      ensures status.Downloading? && url && w.env.blind == (old(w.env.blind) || full200)
      ensures w.env.disk == old(w.env.disk) && w.env.live == old(w.env.live)
    {
      hide Replay, AllHeard, Told;
      hide LoopStep, PrecheckStep, FindStep, DiscardStep, AddStep, PollStep, AltStep, VerifyStep, CommitStep;
      ghost var before, seen := View(), w.env;
      w.env := w.env.(blind := w.env.blind || full200, answered200 := w.env.answered200 || full200);
      if w.env.blind { rangeUnsupported := true; }
      status, url, pc := Downloading, true, Watch(found);
      Note(seen, heard, Resolved(full200), before, Heard(full200, true));
    }

    /** The blob is nowhere: the next alternate URL, or the first MarkFailed. */
    method TakeAlternate(found: Option<Gid>, ghost heard: seq<Event>) returns (alternate: bool)
      requires Says(heard, Missing) && pc == Resolve(found)
      modifies this
      ensures Ok() && attempt == old(attempt) && alternate == (old(alts) > 0)
      ensures pc == (if alternate then AltWait else Doomed)
      ensures alts == old(alts) - (if alternate then 1 else 0) && rangeUnsupported == old(rangeUnsupported)
      ensures if alternate then status.Downloading? && url else status.Failed? && url == old(url)
      ensures retries == old(retries) + if alternate then 0 else 1
    {
      hide Replay, AllHeard, Told;
      hide LoopStep, PrecheckStep, FindStep, DiscardStep, AddStep, PollStep, AltStep, VerifyStep, CommitStep;
      ghost var before := View();
      alternate := alts > 0;
      if alternate {
        alts, url, status, pc := alts - 1, true, Downloading, AltWait;
      } else {
        status, retries, pc := Failed, retries + 1, Doomed;
      }
      Note(w.env, heard, Missing, before, Nothing);
    }

    /** The URL part of attempt; found is what findExistingTask returned. */
    method ResolveURL(found: Option<Gid>) returns (r: Return, alternate: bool)
      requires Ok() && pc == Resolve(found)
      modifies w, this
      ensures Ok() && Later() && attempt == old(attempt)
      ensures pc == if !r.Nil? then Landing(r) else if alternate then AltWait else Watch(found)
      ensures retries == old(retries) + if r.NonRetryable? then 1 else 0
      ensures r.NonRetryable? ==> w.log != [] && Last(w.log) == Lookup(NotFound)
    {
      hide Replay, AllHeard, Told, TaskStep;
      r, alternate := Nil, false;
      var used;
      ghost var heard;
      used, heard := UseRemembered(found);
      if used { return; }
      w.Interfere();
      var res := w.ResolveBlobURL();
      heard := heard + [Lookup(res)];
      assert Owes(heard);
      UrlTold(options, d, View(), w.env, w.cancelled, heard, FromLookup(res));
      r, alternate := Settle(found, res, heard);
    }

    /** The lookup decides: an error, an alternate URL or a failure mark, or a URL. */
    method Settle(found: Option<Gid>, res: Resolution, ghost heard: seq<Event>) returns (r: Return, alternate: bool)
      requires Says(heard, FromLookup(res)) && pc == Resolve(found) && (res == Unreachable(Interrupted) ==> w.cancelled)
      modifies w`env, this
      ensures Ok() && attempt == old(attempt)
      ensures pc == if !r.Nil? then Landing(r) else if alternate then AltWait else Watch(found)
      ensures retries == old(retries) + if r.NonRetryable? then 1 else 0
      ensures r.NonRetryable? ==> res.NotFound?
    {
      hide Replay, AllHeard, Told, TaskStep;
      r, alternate := Nil, false;
      match res
      case Unreachable(how) =>
        r := Breaks(how, heard);
      case NotFound =>
        alternate := TakeAlternate(found, heard);
        if !alternate { r := NonRetryable; }
      case Found(full200) =>
        TakeURL(found, full200, heard);
    }

    // ---------------------------------------------------------------- submitting

    method TestRangeFlags() returns (marked: bool)
      requires Ok() && pc.Submit?
      modifies w, `pc, `history
      ensures Ok() && pc == (if marked then Pc.Discard else Add(false)) && Later()
      ensures marked <==> rangeUnsupported || w.env.blind
    {
      hide LoopStep, PrecheckStep, FindStep, ResolveStep, AddStep, PollStep, AltStep, VerifyStep, CommitStep;
      w.Interfere();
      ghost var before := View();
      marked := rangeUnsupported || w.env.blind;
      pc := if marked then Pc.Discard else Add(false);
      Pass(w.env, Go, before, Nothing);
    }

    method StatEmpty() returns (empty: bool)
      requires Ok() && pc.Discard?
      modifies w, `pc, `history
      ensures Ok() && pc == (if empty then Add(true) else DiscardRmPart) && Later()
      ensures empty <==> d !in w.env.disk.part || w.env.disk.part[d] == []
    {
      hide LoopStep, PrecheckStep, FindStep, ResolveStep, AddStep, PollStep, AltStep, VerifyStep, CommitStep;
      w.Interfere();
      ghost var before := View();
      empty := d !in w.env.disk.part || |w.env.disk.part[d]| == 0;
      pc := if empty then Add(true) else DiscardRmPart;
      Pass(w.env, Go, before, Nothing);
    }

    method DiscardUnresumablePart()
      requires Ok() && pc.Discard?
      modifies w, `pc, `history
      ensures Ok() && pc == Add(true) && Later()
    {
      var empty := StatEmpty();
      if !empty {
        var _ := Remove();
        var _ := RemoveCtl();
      }
    }

    /** aria2 answered with a gid. */
    method Accept(gid: Gid, ghost seen: Env, ghost heard: seq<Event>)
      requires Owes(heard) && Told(options, d, View(), seen, w.cancelled, heard, Created(gid))
      requires pc.Add? && gid !in seen.live && w.env == Apply(seen, d, Launch(gid))
      modifies `status, `url, `pc, `history
      ensures Ok() && pc == Wait(gid) && status.Downloading? && url
    {
      hide Replay, AllHeard, Told;
      hide LoopStep, PrecheckStep, FindStep, ResolveStep, DiscardStep, PollStep, AltStep, VerifyStep, CommitStep;
      ghost var before := View();
      status, url, pc := Downloading, true, Wait(gid);
      Note(seen, heard, Created(gid), before, Launch(gid));
    }

    /** aria2 carried the call out, but its answer was lost. */
    method Lose(gid: Gid, how: Failing, ghost seen: Env, ghost heard: seq<Event>) returns (r: Return)
      requires Owes(heard) && Told(options, d, View(), seen, w.cancelled, heard, Lost(gid, how))
      requires pc.Add? && gid !in seen.live && w.env == Apply(seen, d, Launch(gid))
      requires how.Interrupted? ==> w.cancelled
      modifies `pc, `history
      ensures Ok() && r == Broke(how) && pc == Landing(r)
      ensures pc == if how.Retryable? then Backoff else Sent(if how.TimedOut? then Deadline else Canceled)
    {
      hide Replay, AllHeard, Told;
      hide LoopStep, PrecheckStep, FindStep, ResolveStep, DiscardStep, PollStep, AltStep, VerifyStep, CommitStep;
      ghost var before := View();
      r := Broke(how);
      pc := Landing(r);
      Note(seen, heard, Lost(gid, how), before, Launch(gid));
    }

    /** One addUri call, after others that were refused for their options. A
        complaint about options leaves everything as it is. */
    method AddOnce(opts: Options, ghost heard: seq<Event>)
      returns (gid: Gid, r: Return, rejected: bool, option: bool)
      requires Owes(heard) && pc.Add? && Refused(options, heard) && opts == options - Dropped(|heard|)
      modifies w, `status, `url, `pc, `history
      ensures Later() && !r.NonRetryable?
      ensures rejected ==> pc == old(pc) && Owes(heard + [Addition(opts, Rejected(option))])
      ensures |w.log| == |old(w.log)| + 1 && old(w.log) <= w.log
      ensures Last(w.log).Addition? && Last(w.log).options == opts
      ensures rejected ==> Last(w.log).reply == Rejected(option)
      ensures !rejected ==> !Last(w.log).reply.Rejected? && (r.Nil? <==> Last(w.log).reply == AddReply.Gid(gid))
      ensures !rejected ==> Ok() && pc == if r.Nil? then Wait(gid) else Landing(r)
    {
      hide Replay, AllHeard, Told, Refused, TaskStep;
      w.Interfere();
      ghost var seen := w.env;
      gid, r, rejected, option := 0, Nil, false, false;
      var reply := w.AddUri(d, opts);
      ghost var all := heard + [Addition(opts, reply)];
      assert Owes(all);
      if !reply.Rejected? { ToldReply(options, d, View(), seen, w.cancelled, heard, opts, reply); }
      match reply
      case Gid(g) =>
        gid := g;
        Accept(g, seen, all);
      case Unanswered(g, how) =>
        r := Lose(g, how, seen, all);
      case Unsent(how) =>
        r := Breaks(how, all);
      case Rejected(o) =>
        rejected, option := true, o;
    }

    /** One call and what its reply means: again asks for another one without more
        options, and anything else ends the submission. */
    method AddOrStop(opts: Options, ghost heard: seq<Event>, drop: nat) returns (gid: Gid, r: Return, again: bool)
      requires Owes(heard) && pc.Add? && Refused(options, heard) && opts == options - Dropped(|heard|)
      requires drop == |heard| <= 3
      modifies w, `status, `url, `pc, `history
      ensures Later() && !r.NonRetryable?
      ensures |w.log| == |old(w.log)| + 1 && old(w.log) <= w.log
      ensures Last(w.log).Addition? && Last(w.log).options == opts
      ensures again ==> pc == old(pc) && Owes(heard + [Last(w.log)])
      ensures again <==> Last(w.log).reply == Rejected(true) && drop < 3
      ensures !again ==> Ok() && pc == if r.Nil? then Wait(gid) else Landing(r)
      ensures !again ==> (r.Nil? <==> Last(w.log).reply == AddReply.Gid(gid))
      ensures !again && Last(w.log).reply.Rejected? ==> r.RetryableErr?
    {
      hide TaskStep, Replay, AllHeard, Told, Refused, Dropped;
      var rejected, option;
      gid, r, rejected, option := AddOnce(opts, heard);
      again := rejected && option && drop < 3;
      if rejected && !again {
        ToldReply(options, d, View(), w.env, w.cancelled, heard, opts, Rejected(option));
        r := Breaks(Retryable, heard + [Addition(opts, Rejected(option))]);
      }
    }

    /** Calls addUri until it is accepted or fails for good, at most four times,
        leaving out one more class of options after each complaint about options. */
    method SubmitTask() returns (gid: Gid, r: Return, ghost sent: seq<Event>)
      requires Ok() && pc.Add?
      modifies w, `status, `url, `pc, `history
      ensures Ok() && Later() && !r.NonRetryable?
      ensures pc == if r.Nil? then Wait(gid) else Landing(r)
      ensures w.log == old(w.log) + sent && Simplifies(options, sent)
      ensures r.Nil? <==> sent[|sent| - 1].reply == AddReply.Gid(gid)
      ensures sent[|sent| - 1].reply.Rejected? ==> r.RetryableErr? && (sent[|sent| - 1].reply.option ==> |sent| == 4)
    {
      hide TaskStep, Replay, AllHeard, Refused, Simplifies;
      ghost var heard := [];
      var opts := options;
      var drop := 0;
      NothingRefused(options);
      while true
        invariant Owes(heard) && pc == old(pc) && Later() && drop <= 3 && |heard| == drop
        invariant opts == options - Dropped(drop) && Refused(options, heard)
        invariant w.log == old(w.log) + heard
        decreases 4 - drop
      {
        hide Dropped, Owes;
        var again;
        gid, r, again := AddOrStop(opts, heard, drop);
        sent := heard + [Last(w.log)];
        assert w.log == old(w.log) + sent;
        RefusedSimplifies(options, heard, Last(w.log));
        if !again { return; }
        RefusedMore(options, heard, opts);
        DroppedMore(options, drop);
        heard := sent;
        opts := opts - {CHECKSUM};
        if drop >= 1 { opts := opts - {HEADER}; }
        if drop >= 2 { opts := opts - {ALL_PROXY}; }
        drop := drop + 1;
      }
    }

    // ------------------------------------------------------------------- waiting

    /** The cancelled exit of waitTask: forceRemove is tried, and may fail. */
    method StopTask(gid: Gid, ghost polls: seq<Event>)
      requires Owes(polls) && Streak(polls).Some? && pc == Wait(gid) && w.cancelled
      modifies w`env, w`log, `pc, `history
      ensures Ok() && pc == Sent(Canceled)
      ensures exists done ::
                && w.log == old(w.log) + [Removal(done)]
                && w.env == if done then old(w.env).(live := old(w.env.live) - {gid}) else old(w.env)
    {
      hide Replay, AllHeard, Told, Streak;
      hide LoopStep, PrecheckStep, FindStep, ResolveStep, DiscardStep, AddStep, AltStep, VerifyStep, CommitStep;
      ghost var before, seen := View(), w.env;
      var done := w.ForceRemove(gid);
      ghost var heard := polls + [Removal(done)];
      assert Front(heard) == polls;
      WatchTold(options, d, before, seen, w.cancelled, heard, Stop(done));
      pc := Sent(Canceled);
      Note(seen, heard, Stop(done), before, if done then Unlist(gid) else Nothing);
    }

    /** The context ends during the pause after a failed poll. */
    method Interrupt(gid: Gid, ghost polls: seq<Event>)
      requires Says(polls, Stop(false)) && pc == Wait(gid) && w.cancelled
      modifies `pc, `history
      ensures Ok() && pc == Sent(Canceled)
    {
      hide Replay, AllHeard, Told;
      hide LoopStep, PrecheckStep, FindStep, ResolveStep, DiscardStep, AddStep, AltStep, VerifyStep, CommitStep;
      ghost var before := View();
      pc := Sent(Canceled);
      Note(w.env, polls, Stop(false), before, Nothing);
    }

    method Completed(gid: Gid, ghost heard: seq<Event>) returns (r: Return)
      requires Says(heard, Complete) && pc == Wait(gid) && gid !in w.env.live
      modifies `pc, `history
      ensures Ok() && pc == (if r.Nil? then Verify else Landing(r)) && (r.Nil? || r.RetryableErr?)
      ensures r.Nil? <==> d in w.env.disk.part && |w.env.disk.part[d]| == c.size(d)
    {
      hide Replay, AllHeard, Told;
      hide LoopStep, PrecheckStep, FindStep, ResolveStep, DiscardStep, AddStep, AltStep, VerifyStep, CommitStep;
      ghost var before := View();
      if d in w.env.disk.part && |w.env.disk.part[d]| == c.size(d) {
        pc, r := Verify, Nil;
      } else {
        pc, r := Backoff, RetryableErr;
      }
      Note(w.env, heard, Complete, before, Nothing);
    }

    /** Forgets the URL, and marks the object when its source ignores Range. */
    method ForgetUrl(gid: Gid, full200: bool, ghost heard: seq<Event>) returns (r: Return)
      requires Says(heard, Error8(full200)) && pc == Wait(gid) && gid !in w.env.live
      modifies w`env, `url, `rangeUnsupported, `pc, `history
      ensures Ok() && r.RetryableErr? && pc == Landing(r) && !url
      ensures rangeUnsupported == (old(rangeUnsupported) || old(w.env.blind) || full200)
      ensures w.env == old(w.env).(answered200 := old(w.env.answered200) || full200)
    {
      hide Replay, AllHeard, Told, TaskStep, Apply;
      ForgetStep(c, d, w.env, View(), w.cancelled, full200);
      ghost var before, seen := View(), w.env;
      w.env := w.env.(answered200 := w.env.answered200 || full200);
      if w.env.blind || full200 { rangeUnsupported := true; }
      url, pc, r := false, Backoff, RetryableErr;
      Note(seen, heard, Error8(full200), before, Heard(full200, false));
    }

    /** Error 8: unless already known, one probe tells whether Range is ignored. */
    method NoURI(gid: Gid, message: string, ghost polls: seq<Event>) returns (r: Return)
      requires Owes(polls + [Poll(Success(Errored("8", message)))]) && Streak(polls).Some?
      requires pc == Wait(gid) && gid !in w.env.live
      modifies w`env, w`log, `url, `rangeUnsupported, `pc, `history
      ensures Ok() && r.RetryableErr? && pc == Landing(r) && !url
      ensures old(rangeUnsupported) || old(w.env.blind) ==> rangeUnsupported && w.log == old(w.log)
      ensures !old(rangeUnsupported) && !old(w.env.blind) ==> w.log == old(w.log) + [Probe(rangeUnsupported)]
    {
      hide Replay, AllHeard, Told, Streak, FatalCode, TaskStep;
      ghost var heard := polls + [Poll(Success(Errored("8", message)))];
      assert Front(heard) == polls;
      var full200 := false;
      if !rangeUnsupported && !w.env.blind {
        full200 := w.ProbeRangeBlind();
        ghost var all := heard + [Probe(full200)];
        assert Front(all) == heard && Owes(all);
        heard := all;
      }
      WatchSays(heard, Error8(full200));
      r := ForgetUrl(gid, full200, heard);
    }

    /** The other reported ends: a fatal code, any other code, a removal. */
    method Broken(gid: Gid, ghost heard: seq<Event>, ghost answer: Answer, fatal: bool) returns (r: Return)
      requires Says(heard, answer) && pc == Wait(gid) && (gid !in w.env.live || answer.Vanished?)
      requires if fatal then answer.ErrorFatal? else answer.ErrorOther? || answer.Vanished?
      modifies `pc, `history
      ensures Ok() && r == (if fatal then NonRetryable else RetryableErr) && pc == Landing(r)
    {
      hide Replay, AllHeard, Told;
      hide LoopStep, PrecheckStep, FindStep, ResolveStep, DiscardStep, AddStep, AltStep, VerifyStep, CommitStep;
      ghost var before := View();
      r := if fatal then NonRetryable else RetryableErr;
      pc := Landing(r);
      Note(w.env, heard, answer, before, Nothing);
    }

    /** aria2 reports an error: code 8 asks the registry first, the others are
        final or not by their class alone. */
    method Conclude(gid: Gid, code: string, message: string, ghost polls: seq<Event>) returns (r: Return)
      requires Owes(polls + [Poll(Success(Errored(code, message)))]) && Streak(polls).Some?
      requires pc == Wait(gid) && gid !in w.env.live
      modifies w`env, w`log, `url, `rangeUnsupported, `pc, `history
      ensures Ok() && pc == Landing(r) && r == if FatalCode(code, message) then NonRetryable else RetryableErr
      ensures r.NonRetryable? <==> code in {"3", "9", "10", "15", "16", "20", "21", "23"}
      ensures r.NonRetryable? ==> w.log == old(w.log)
    {
      Retry.ClassifiedOnce(code, message, Retry.Class.NonRetryable, Retry.Class.NonRetryable);
      hide Retry.Classify, Retry.As, Replay, AllHeard;
      ghost var heard := polls + [Poll(Success(Errored(code, message)))];
      assert Front(heard) == polls;
      if code == "8" {
        r := NoURI(gid, message, polls);
      } else if FatalCode(code, message) {
        r := Broken(gid, heard, ErrorFatal, true);
      } else {
        r := Broken(gid, heard, ErrorOther, false);
      }
    }

    /** A poll that failed: the eleventh in a row ends the watch, and so may a
        cancellation during the pause. */
    method PollFailed(gid: Gid, how: Failing, pollErrs: nat, ghost polls: seq<Event>) returns (ended: bool, r: Return)
      requires Owes(polls + [Poll(Failure(how))]) && Streak(polls) == Some(pollErrs) && pollErrs <= 10
      requires pc == Wait(gid) && (how.Interrupted? ==> w.cancelled)
      modifies w, `pc, `history
      ensures (old(w.cancelled) ==> w.cancelled) && !r.NonRetryable?
      ensures ended ==> Ok() && Later() && !r.Nil? && pc == Landing(r)
      ensures !ended ==>
                && pc == old(pc) && pollErrs < 10 && Owes(polls + [Poll(Failure(how))])
                && (w.patience < old(w.patience) || (w.patience == old(w.patience) && w.cancelled))
    {
      hide Replay, AllHeard, Told, TaskStep, Streak;
      ghost var heard := polls + [Poll(Failure(how))];
      assert Front(heard) == polls;
      if pollErrs + 1 > 10 {
        WatchSays(heard, Fails(how));
        r := Breaks(how, heard);
        return true, r;
      }
      w.Tick();
      var during: bool := *;
      if w.cancelled && during {
        StreakMore(polls, Failure(how));
        WatchSays(heard, Stop(false));
        Interrupt(gid, heard);
        return true, CtxErr;
      }
      return false, RetryableErr;
    }

    /** A poll that reported an end. */
    method PollEnded(gid: Gid, progress: Progress, ghost polls: seq<Event>) returns (r: Return)
      requires Owes(polls + [Poll(Success(progress))]) && Streak(polls).Some? && !progress.Transferring?
      requires pc == Wait(gid) && (progress.Gone? || gid !in w.env.live)
      modifies w`env, w`log, `url, `rangeUnsupported, `pc, `history
      ensures Ok() && pc == if r.Nil? then Verify else Landing(r)
      ensures r == if progress.Finished? && d in w.env.disk.part && |w.env.disk.part[d]| == c.size(d) then Nil
                   else if FatalPoll(Poll(Success(progress))) then NonRetryable else RetryableErr
      ensures r.NonRetryable? ==> w.log == old(w.log)
    {
      hide Replay, AllHeard, Told, TaskStep, Streak, FatalCode;
      ghost var heard := polls + [Poll(Success(progress))];
      assert Front(heard) == polls;
      match progress
      case Finished =>
        WatchSays(heard, Complete);
        r := Completed(gid, heard);
      case Errored(code, message) =>
        r := Conclude(gid, code, message, polls);
      case Gone =>
        WatchSays(heard, Vanished);
        r := Broken(gid, heard, Vanished, false);
    }

    /** waitTask with a gid; Nil means the .part is to be verified. */
    method WaitTask(gid: Gid) returns (r: Return)
      requires Ok() && pc == Wait(gid)
      modifies w, `url, `rangeUnsupported, `pc, `history
      ensures Ok() && Later()
      ensures pc == if r.Nil? then Verify else Landing(r)
      ensures r.NonRetryable? ==> w.log != [] && FatalPoll(Last(w.log))
    {
      hide Replay, AllHeard, Told, TaskStep, Streak;
      ghost var polls: seq<Event> := [];
      var pollErrs := 0;
      NoStreak();
      while true
        invariant Owes(polls) && Streak(polls) == Some(pollErrs) && pollErrs <= 10
        invariant pc == Wait(gid) && Later()
        decreases w.patience, !w.cancelled
      {
        if w.cancelled {
          StopTask(gid, polls);
          return CtxErr;
        }
        var st := w.TellStatus(gid);
        assert Owes(polls + [Poll(st)]);
        StreakMore(polls, st);
        if st.Failure? {
          var ended;
          ended, r := PollFailed(gid, st.error, pollErrs, polls);
          if ended { return; }
          pollErrs := pollErrs + 1;
        } else if st.value.Transferring? {
          pollErrs := 0;
          w.Tick();
        } else {
          r := PollEnded(gid, st.value, polls);
          return;
        }
        polls := polls + [Poll(st)];
      }
    }

    /** waitTask without a gid polls the file alone. */
    method WaitForFile() returns (r: Return)
      requires Ok() && pc.AltWait?
      modifies w, `pc, `history
      ensures Ok() && Later()
      ensures pc == (if r.Nil? then Verify else Landing(r)) && (r.Nil? || r.CtxErr?)
      ensures if r.Nil? then d in w.env.disk.part && |w.env.disk.part[d]| == c.size(d) else w.cancelled
    {
      hide LoopStep, PrecheckStep, FindStep, ResolveStep, DiscardStep, AddStep, PollStep, VerifyStep, CommitStep;
      while true
        invariant Ok() && pc.AltWait? && Later()
        decreases w.patience, !w.cancelled
      {
        w.Tick();
        ghost var before := View();
        if w.cancelled {
          pc := Sent(Canceled);
          Pass(w.env, Abort, before, Nothing);
          return CtxErr;
        }
        if d in w.env.disk.part && |w.env.disk.part[d]| == c.size(d) {
          pc := Verify;
          Pass(w.env, Go, before, Nothing);
          return Nil;
        }
      }
    }

    method SubmitAndWatch(found: Option<Gid>) returns (r: Return)
      requires Ok() && pc == Watch(found)
      modifies w, `status, `url, `rangeUnsupported, `pc, `history
      ensures Ok() && Later()
      ensures pc == if r.Nil? then Verify else Landing(r)
      ensures r.NonRetryable? ==> w.log != [] && FatalPoll(Last(w.log))
    {
      hide TaskStep;
      var gid: Gid;
      if found.Some? {
        gid := found.value;
      } else {
        var marked := TestRangeFlags();
        if marked { DiscardUnresumablePart(); }
        ghost var sent;
        gid, r, sent := SubmitTask();
        if !r.Nil? { return; }
      }
      r := WaitTask(gid);
    }

    // --------------------------------------------------------- attempts and retries

    /** One full try. A blob that is nowhere to be found has been marked failed
        once when this returns. */
    method Attempt() returns (r: Return, ghost notFound: bool)
      requires Ok() && pc.Start?
      modifies w, this
      ensures Ok() && Later() && attempt == old(attempt) && pc == Landing(r)
      ensures r.Nil? ==> status.Committed?
      ensures notFound ==> r.NonRetryable?
      ensures r.NonRetryable? ==>
                w.log != [] && if notFound then Last(w.log) == Lookup(NotFound) else FatalPoll(Last(w.log))
      ensures retries == old(retries) + if notFound then 1 else 0
    {
      hide Ok;
      hide TaskStep;
      notFound := false;
      var whole := StatWhole();
      if !whole {
        ghost var first, second;
        first, second := Precheck();
        var found;
        found, r := FindExistingTask();
        if !r.Nil? { return; }
        var alternate;
        r, alternate := ResolveURL(found);
        notFound := r.NonRetryable?;
        if !r.Nil? { return; }
        if alternate {
          r := WaitForFile();
        } else {
          r := SubmitAndWatch(found);
        }
        if !r.Nil? { return; }
      }
      r := VerifyAndCommit();
    }

    /** The context check and MarkRetry before attempt n. */
    method MarkRetry(n: nat) returns (cancelled: bool)
      requires Ok() && pc.Backoff? && n == attempt + 1 <= c.maxRetries
      modifies w, this
      ensures Ok() && Later() && (cancelled <==> w.cancelled)
      ensures if cancelled then pc == Sent(Canceled) && attempt == old(attempt) && retries == old(retries)
              else pc.Sleep? && attempt == n && retries == old(retries) + 1 && status.Pending?
    {
      hide Replay;
      hide PrecheckStep, FindStep, ResolveStep, DiscardStep, AddStep, PollStep, AltStep, VerifyStep, CommitStep;
      w.Interfere();
      ghost var before := View();
      cancelled := w.cancelled;
      if cancelled {
        pc := Sent(Canceled);
        Pass(w.env, Abort, before, Nothing);
      } else {
        retries, status, attempt, pc := retries + 1, Pending, n, Sleep;
        Pass(w.env, Go, before, Nothing);
      }
    }

    /** waitBackoff before attempt n: the delay it drew, unless it was cut short. */
    method WaitBackoff(n: nat) returns (cancelled: bool, slept: int)
      requires Ok() && pc.Sleep?
      modifies w, `pc, `history
      ensures Ok() && Later() && pc == if cancelled then Sent(Canceled) else Start
      ensures Retry.Drawn(n, slept) && (cancelled ==> w.cancelled)
    {
      hide PrecheckStep, FindStep, ResolveStep, DiscardStep, AddStep, PollStep, AltStep, VerifyStep, CommitStep;
      slept := Retry.BackoffDelay(n);
      hide Retry.Drawn;
      w.Interfere();
      ghost var before := View();
      cancelled := w.cancelled;
      if cancelled {
        pc := Sent(Canceled);
        Pass(w.env, Abort, before, Nothing);
      } else {
        pc := Start;
        Pass(w.env, Go, before, Nothing);
      }
    }

    /** MarkFailed at the end of downloadObject. */
    method GiveUp()
      requires Ok() && (pc.Doomed? || (pc.Backoff? && attempt >= c.maxRetries))
      modifies w, this
      ensures Ok() && Later() && attempt == old(attempt) && retries == old(retries) + 1
      ensures w.log == old(w.log)
      ensures status.Failed? && pc == Sent(if old(pc).Doomed? then Fatal else Exhausted)
    {
      hide Replay;
      hide PrecheckStep, FindStep, ResolveStep, DiscardStep, AddStep, PollStep, AltStep, VerifyStep, CommitStep;
      w.Interfere();
      ghost var before := View();
      status, retries, pc := Failed, retries + 1, Sent(if pc.Doomed? then Fatal else Exhausted);
      Pass(w.env, Go, before, Nothing);
    }

    /** The attempt/retry loop. Its history is a path of the machine from Start
        to the outcome it returns; at most maxRetries attempts begin, the retry
        counter grows by exactly what the outcome says, and the waits between
        the attempts are drawn for attempts 2, 3, and so on. */
    method DownloadObject() returns (r: Outcome, ghost notFound: bool, ghost waits: seq<int>)
      requires Ok() && pc.Start? && attempt == 1 <= c.maxRetries
      modifies w, this
      ensures Ok() && pc == Sent(r) && 1 <= attempt <= c.maxRetries
      ensures r.Ok? ==> status.Committed? && retries == old(retries) + attempt - 1
      ensures r.Exhausted? ==> status.Failed? && attempt == c.maxRetries && retries == old(retries) + c.maxRetries
      ensures r.Fatal? ==> status.Failed? && retries == old(retries) + attempt + if notFound then 1 else 0
      ensures r.Fatal? ==> w.log != [] && if notFound then Last(w.log) == Lookup(NotFound) else FatalPoll(Last(w.log))
      ensures r.Canceled? || r.Deadline? ==> retries == old(retries) + attempt - 1
      ensures Retry.Waits(waits) && (if r.Canceled? then |waits| <= attempt - 1 else |waits| == attempt - 1)
    {
      hide Ok, Retry.Drawn;
      notFound, waits := false, [];
      for n := 1 to c.maxRetries + 1
        invariant Ok() && 1 <= attempt <= c.maxRetries && retries == old(retries) + attempt - 1
        invariant if n == 1 then pc.Start? && attempt == 1 else pc.Backoff? && attempt == n - 1
        invariant Retry.Waits(waits) && |waits| == attempt - 1
      {
        if n > 1 {
          var cancelled := MarkRetry(n);
          if cancelled { return Canceled, false, waits; }
          var slept;
          cancelled, slept := WaitBackoff(n);
          if cancelled { return Canceled, false, waits; }
          waits := waits + [slept];
        }
        var e;
        e, notFound := Attempt();
        match e
        case Nil => return Outcome.Ok, false, waits;
        case CtxErr => return Canceled, false, waits;
        case DeadlineErr => return Deadline, false, waits;
        case NonRetryable =>
          GiveUp();
          return Fatal, notFound, waits;
        case RetryableErr =>
      }
      GiveUp();
      return Exhausted, false, waits;
    }
  }
}
