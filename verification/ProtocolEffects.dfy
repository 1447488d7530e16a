/**
  What a goroutine that is left alone does to the directory and to its task,
  stretch by stretch between two answers from outside.
 */
module ProtocolEffects {
  import opened Basics
  import opened Storage
  import opened Protocol

  /** The goroutine of d makes n moves, with nothing in between and no answer from outside. */
  function Alone(c: Config, d: Digest, e: Env, t: Task, n: nat): Option<(Env, Task)>
    decreases n
  {
    if n == 0 then Some((e, t))
    else
      match TaskStep(c, d, e, t, false, Go)
      case None => None
      case Some((eff, t')) => Alone(c, d, Apply(e, d, eff), t', n - 1)
  }

  /** The files of d under tmp/ are gone. */
  function Cleared(e: Env, d: Digest): Env {
    e.(disk := Disk(map x | x in e.disk.part && x != d :: e.disk.part[x], e.disk.ctl - {d}, e.disk.blob))
  }

  lemma Moves(c: Config, d: Digest, e: Env, t: Task, n: nat, eff: Effect, t': Task)
    requires n > 0 && TaskStep(c, d, e, t, false, Go) == Some((eff, t'))
    ensures Alone(c, d, e, t, n) == Alone(c, d, Apply(e, d, eff), t', n - 1)
  {
    hide TaskStep, Apply;
  }

  lemma Stays(c: Config, d: Digest)
    ensures forall e, t :: Alone(c, d, e, t, 0) == Some((e, t))
  {
  }

  /** Two removals and what follows them. */
  lemma RemovesBoth(c: Config, d: Digest, e: Env, t: Task, mid: Pc, end: Pc)
    requires TaskStep(c, d, e, t, false, Go) == Some((RmPart, t.(pc := mid)))
    requires TaskStep(c, d, Apply(e, d, RmPart), t.(pc := mid), false, Go) == Some((RmCtl, t.(pc := end)))
    ensures Alone(c, d, e, t, 2) == Some((Cleared(e, d), t.(pc := end)))
  {
    hide TaskStep;
    var e1 := Apply(e, d, RmPart);
    Moves(c, d, e, t, 2, RmPart, t.(pc := mid));
    Moves(c, d, e1, t.(pc := mid), 1, RmCtl, t.(pc := end));
    assert Apply(e1, d, RmCtl).disk.part == Cleared(e, d).disk.part;
  }

  /** The head of an attempt: a .part of the listed size goes to its verification; of
      a larger one nothing stays; of a missing one not the control file; and a
      shorter one keeps both its files. */
  lemma PrecheckAlone(c: Config, d: Digest, e: Env, t: Task)
    requires t.pc.Start?
    ensures var part, find := e.disk.part, t.(pc := Find);
            if d !in part then Alone(c, d, e, t, 4) == Some((e.(disk := e.disk.(ctl := e.disk.ctl - {d})), find))
            else if |part[d]| == c.size(d) then Alone(c, d, e, t, 1) == Some((e, t.(pc := Verify)))
            else if |part[d]| > c.size(d) then Alone(c, d, e, t, 4) == Some((Cleared(e, d), find))
            else Alone(c, d, e, t, 3) == Some((e, find))
  {
    hide LoopStep, FindStep, ResolveStep, DiscardStep, AddStep, PollStep, AltStep, VerifyStep, CommitStep, Alone;
    var part, size := e.disk.part, t.(pc := PreSize);
    if d in part && |part[d]| == c.size(d) {
      Moves(c, d, e, t, 1, Nothing, t.(pc := Verify));
    } else {
      var n := if d !in part || |part[d]| > c.size(d) then 4 else 3;
      Moves(c, d, e, t, n, Nothing, size);
      if d in part && |part[d]| > c.size(d) {
        Moves(c, d, e, size, 3, Nothing, t.(pc := PreRmPart));
        RemovesBoth(c, d, e, t.(pc := PreRmPart), PreRmCtl, Find);
      } else {
        Moves(c, d, e, size, n - 1, Nothing, t.(pc := PreExists));
        if d in part {
          Moves(c, d, e, t.(pc := PreExists), 1, Nothing, t.(pc := Find));
        } else {
          Moves(c, d, e, t.(pc := PreExists), 2, Nothing, t.(pc := PreRmCtl));
          Moves(c, d, e, t.(pc := PreRmCtl), 1, RmCtl, t.(pc := Find));
        }
      }
    }
    Stays(c, d);
  }

  /** From the test of the range flags to addUri: an object that is marked, or whose
      client is latched, loses a .part that holds anything, with its control file;
      any other keeps both. */
  lemma DiscardAlone(c: Config, d: Digest, e: Env, t: Task)
    requires t.pc.Submit?
    ensures var part := e.disk.part;
            if !t.rangeUnsupported && !e.blind then Alone(c, d, e, t, 1) == Some((e, t.(pc := Add(false))))
            else if d !in part || part[d] == [] then Alone(c, d, e, t, 2) == Some((e, t.(pc := Add(true))))
            else Alone(c, d, e, t, 4) == Some((Cleared(e, d), t.(pc := Add(true))))
  {
    hide LoopStep, PrecheckStep, FindStep, ResolveStep, AddStep, PollStep, AltStep, VerifyStep, CommitStep, Alone;
    var discard := t.(pc := Discard);
    if !t.rangeUnsupported && !e.blind {
      Moves(c, d, e, t, 1, Nothing, t.(pc := Add(false)));
    } else if d !in e.disk.part || e.disk.part[d] == [] {
      Moves(c, d, e, t, 2, Nothing, discard);
      Moves(c, d, e, discard, 1, Nothing, t.(pc := Add(true)));
    } else {
      Moves(c, d, e, t, 4, Nothing, discard);
      Moves(c, d, e, discard, 3, Nothing, t.(pc := DiscardRmPart));
      RemovesBoth(c, d, e, t.(pc := DiscardRmPart), DiscardRmCtl, Add(true));
    }
    Stays(c, d);
  }

  /** The bytes have the listed size and the digest. */
  predicate Right(c: Config, d: Digest, data: Bytes) {
    && |data| == c.size(d) && c.hash(d.algorithm, data) == d.hex
    && (d.algorithm == "sha256" || d.algorithm == "sha512")
  }

  /** The .part has become the blob and its control file is gone. */
  function Landed(e: Env, d: Digest): Env
    requires d in e.disk.part
  {
    Cleared(e, d).(disk := Cleared(e, d).disk.(blob := e.disk.blob[d := e.disk.part[d]]))
  }

  lemma PromoteLands(e: Env, d: Digest)
    requires d in e.disk.part
    ensures Apply(Apply(e, d, Promote), d, RmCtl) == Landed(e, d)
  {
    assert Apply(e, d, Promote).disk.part == Landed(e, d).disk.part;
  }

  lemma CommitAlone(c: Config, d: Digest, e: Env, t: Task)
    requires t.pc.Commit? && d in e.disk.part
    ensures Alone(c, d, e, t, 3) == Some((Landed(e, d), t.(status := Committed, pc := Sent(Ok))))
  {
    hide LoopStep, PrecheckStep, FindStep, ResolveStep, DiscardStep, AddStep, PollStep, AltStep, VerifyStep, Alone;
    hide Apply, Landed, Cleared;
    var e1, e2 := Apply(e, d, Promote), Landed(e, d);
    PromoteLands(e, d);
    Moves(c, d, e, t, 3, Promote, t.(pc := CommitRmCtl));
    Moves(c, d, e1, t.(pc := CommitRmCtl), 2, RmCtl, t.(pc := CommitMark));
    Moves(c, d, e2, t.(pc := CommitMark), 1, Nothing, t.(status := Committed, pc := Sent(Ok)));
    Idles(e2, d);
    Stays(c, d);
  }

  lemma Idles(e: Env, d: Digest)
    ensures Apply(e, d, Nothing) == e
  {
  }

  lemma RejectAlone(c: Config, d: Digest, e: Env, t: Task)
    requires t.pc.BadRmPart?
    ensures Alone(c, d, e, t, 2) == Some((Cleared(e, d), t.(pc := Backoff)))
  {
    hide LoopStep, PrecheckStep, FindStep, ResolveStep, DiscardStep, AddStep, PollStep, AltStep, CommitStep, Alone;
    RemovesBoth(c, d, e, t, BadRmCtl, Backoff);
  }

  /** The end of an attempt: a .part with the listed size and digest becomes the blob,
      its control file goes, and the object is committed; any other goes with its
      control file, and the attempt has failed. */
  lemma VerifyAlone(c: Config, d: Digest, e: Env, t: Task)
    requires t.pc.Verify?
    ensures if d in e.disk.part && Right(c, d, e.disk.part[d])
            then Alone(c, d, e, t, 4) == Some((Landed(e, d), t.(status := Committed, pc := Sent(Ok))))
            else Alone(c, d, e, t, 3) == Some((Cleared(e, d), t.(pc := Backoff)))
  {
    hide LoopStep, PrecheckStep, FindStep, ResolveStep, DiscardStep, AddStep, PollStep, AltStep, CommitStep;
    hide Alone, Landed, Cleared;
    if d in e.disk.part && Right(c, d, e.disk.part[d]) {
      Moves(c, d, e, t, 4, Nothing, t.(pc := Commit));
      CommitAlone(c, d, e, t.(pc := Commit));
    } else {
      Moves(c, d, e, t, 3, Nothing, t.(pc := BadRmPart));
      RejectAlone(c, d, e, t.(pc := BadRmPart));
    }
  }

  /** A .part that cannot be read is treated like a bad one; a rename that fails
      leaves everything to the next attempt. */
  lemma VerifyFailsAlone(c: Config, d: Digest, e: Env, t: Task)
    requires t.pc.Verify?
    ensures var bad := TaskStep(c, d, e, t, false, ReadFails);
            bad.Some? && bad.value.0 == Nothing &&
            Alone(c, d, e, bad.value.1, 2) == Some((Cleared(e, d), t.(pc := Backoff)))
    ensures TaskStep(c, d, e, t.(pc := Commit), false, RenameFails) == Some((Nothing, t.(pc := Backoff)))
  {
    hide LoopStep, PrecheckStep, FindStep, ResolveStep, DiscardStep, AddStep, PollStep, AltStep, Alone, Cleared;
    RejectAlone(c, d, e, t.(pc := BadRmPart));
  }

  /** After a failed attempt the next one begins, until maxRetries have; a failure that
      is final, and the last one, mark the task. No file is touched. */
  lemma RetryAlone(c: Config, d: Digest, e: Env, t: Task)
    ensures t.pc.Backoff? && t.attempt < c.maxRetries ==>
              Alone(c, d, e, t, 2) == Some((e, t.(status := Pending, attempt := t.attempt + 1, pc := Start)))
    ensures t.pc.Backoff? && t.attempt >= c.maxRetries ==>
              Alone(c, d, e, t, 1) == Some((e, t.(status := Failed, pc := Sent(Exhausted))))
    ensures t.pc.Doomed? ==> Alone(c, d, e, t, 1) == Some((e, t.(status := Failed, pc := Sent(Fatal))))
  {
    hide PrecheckStep, FindStep, ResolveStep, DiscardStep, AddStep, PollStep, AltStep, VerifyStep, CommitStep, Alone;
    if t.pc.Doomed? {
      Moves(c, d, e, t, 1, Nothing, t.(status := Failed, pc := Sent(Fatal)));
    } else if t.pc.Backoff? && t.attempt >= c.maxRetries {
      Moves(c, d, e, t, 1, Nothing, t.(status := Failed, pc := Sent(Exhausted)));
    } else if t.pc.Backoff? {
      var t1 := t.(status := Pending, attempt := t.attempt + 1, pc := Sleep);
      Moves(c, d, e, t, 2, Nothing, t1);
      Moves(c, d, e, t1, 1, Nothing, t1.(pc := Start));
    }
    Stays(c, d);
  }
}
