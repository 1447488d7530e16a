/**
  The blob URL resolver: HEAD probes followed hop by hop, a ranged GET as the
  fallback, and the two latches a client keeps for a registry. The servers'
  answers are arbitrary; the client records every probe it sends.
 */
module Resolver {
  import opened Basics

  /** A URL as far as the resolver looks at it. Hosts are compared without
      regard to case. */
  datatype Url = Url(host: string, rest: string)

  datatype Location = Absent | Malformed | To(url: Url)

  /** What a probe yields: no response, because the context is done or for any
      other reason, or a status with its Location. */
  datatype Reply = NoReply(contextDone: bool) | Reply(status: nat, location: Location)

  datatype Method = Head | RangedGet

  datatype Probe = Probe(method_: Method, url: Url, auth: string, reply: Reply)

  datatype Error = Unauthorized | BlobNotFound | ContextDone | Other

  datatype Resolved = Resolved(url: Url, headers: seq<string>)

  const MAX_HOPS := 6
  const MAX_RESOLVES := 3

  predicate Redirects(status: nat) { 300 <= status < 400 }

  predicate Serves(status: nat) { status == 200 || status == 206 }

  predicate Refuses(status: nat) { status == 401 || status == 403 }

  predicate Denies(status: nat) { status == 404 || status == 400 }

  predicate NoSuchMethod(status: nat) { status == 405 || status == 501 }

  function AuthHeader(auth: string): seq<string> {
    if auth == "" then [] else ["Authorization: " + auth]
  }

  predicate SameHost(a: string, b: string) { Lower(a) == Lower(b) }

  function Count(log: seq<Probe>, m: Method): nat {
    if log == [] then 0 else Count(log[..|log| - 1], m) + if log[|log| - 1].method_ == m then 1 else 0
  }

  lemma {:induction false} CountAppend(a: seq<Probe>, b: seq<Probe>, m: Method)
    ensures Count(a + b, m) == Count(a, m) + Count(b, m)
  {
    if b == [] {
      assert a + b == a;
    } else {
      assert (a + b)[..|a + b| - 1] == a + b[..|b| - 1];
      CountAppend(a, b[..|b| - 1], m);
    }
  }

  /** A result with headers stays on the registry's host; another host gets none. */
  predicate Sealed(host: string, r: Resolved) {
    SameHost(r.url.host, host) || r.headers == []
  }

  // ---------------------------------------------- what the answers decide

  /** What the answer to the ranged GET makes of a round. */
  function FromRange(base: Url, auth: string, reply: Reply): Result<Resolved, Error> {
    if reply.NoReply? then Failure(if reply.contextDone then ContextDone else Other)
    else if Redirects(reply.status) then
      match reply.location
      case Absent | Malformed => Failure(Other)
      case To(next) =>
        Success(Resolved(next, if SameHost(next.host, base.host) then ["Authorization: " + auth] else []))
    else if Serves(reply.status) then Success(Resolved(base, AuthHeader(auth)))
    else if Refuses(reply.status) then Failure(Unauthorized)
    else if Denies(reply.status) then Failure(BlobNotFound)
    else Failure(Other)
  }

  /** A HEAD that proves nothing: the ranged GET decides. */
  predicate FallsBack(reply: Reply) {
    if reply.NoReply? then !reply.contextDone
    else !Redirects(reply.status) && !Serves(reply.status) && !Refuses(reply.status)
  }

  /** A redirect that stays on the host it came from. */
  predicate Follows(p: Probe) {
    && p.reply.Reply? && Redirects(p.reply.status) && p.reply.location.To?
    && SameHost(p.reply.location.url.host, p.url.host)
  }

  /** What a HEAD decides by itself, as the last of its round. */
  function FromHead(p: Probe): Result<Resolved, Error> {
    if p.reply.NoReply? then Failure(ContextDone)
    else if Redirects(p.reply.status) then
      if p.reply.location.To? && !Follows(p) then Success(Resolved(p.reply.location.url, [])) else Failure(Other)
    else if Serves(p.reply.status) then Success(Resolved(p.url, AuthHeader(p.auth)))
    else Failure(Unauthorized)
  }

  /** Where a chase is after these HEADs, if each followed the one before it. */
  function Target(base: Url, auth: string, heads: seq<Probe>): Option<Url> {
    if heads == [] then Some(base)
    else
      var p := heads[|heads| - 1];
      match Target(base, auth, heads[..|heads| - 1])
      case None => None
      case Some(url) =>
        if p.method_.Head? && p.url == url && p.auth == auth && Follows(p) then Some(p.reply.location.url) else None
  }

  /** p is the HEAD that a chase sends after these. */
  predicate NextHead(base: Url, auth: string, heads: seq<Probe>, p: Probe) {
    p.method_.Head? && p.auth == auth && Target(base, auth, heads) == Some(p.url)
  }

  /** The probes of one round and its result: one ranged GET when HEAD is skipped;
      else HEADs, each at the redirect of the one before, until one decides or
      leaves it to a ranged GET, or the sixth still redirects. */
  predicate Decided(base: Url, auth: string, skip: bool, mine: seq<Probe>, r: Result<Resolved, Error>) {
    && mine != []
    && var p, heads := mine[|mine| - 1], mine[..|mine| - 1];
       if p.method_.RangedGet? then
         && p.url == base && p.auth == auth && r == FromRange(base, auth, p.reply)
         && if skip then heads == []
            else 1 <= |heads| <= MAX_HOPS && NextHead(base, auth, heads[..|heads| - 1], heads[|heads| - 1]) &&
                 FallsBack(heads[|heads| - 1].reply)
       else
         !skip && NextHead(base, auth, heads, p) && !FallsBack(p.reply) && r == FromHead(p) &&
         |mine| <= MAX_HOPS && (Follows(p) ==> |mine| == MAX_HOPS)
  }

  /** A HEAD that proves HEAD useless here: it hung, or there is no such method. */
  predicate Useless(p: Probe) {
    p.method_.Head? && if p.reply.NoReply? then !p.reply.contextDone else NoSuchMethod(p.reply.status)
  }

  /** Whether a round sets skipHead: its ranged GET followed a useless HEAD, or one
      that was denied while the GET was served. */
  predicate LatchesSkip(mine: seq<Probe>, r: Result<Resolved, Error>) {
    && |mine| >= 2 && mine[|mine| - 1].method_.RangedGet?
    && var head := mine[|mine| - 2];
       Useless(head) || (head.reply.Reply? && Denies(head.reply.status) && r.Success?)
  }

  /** Whether a round sets rangeBlind: its ranged GET got a full body. */
  predicate LatchesBlind(mine: seq<Probe>) {
    mine != [] && FullBody(mine[|mine| - 1])
  }

  predicate FullBody(p: Probe) { p.method_.RangedGet? && p.reply.Reply? && p.reply.status == 200 }

  /** One call of resolveBlobURLOnce: the header it got, whether it found skipHead
      set, its probes, its result. */
  datatype Round = Round(auth: Result<string, Error>, skip: bool, probes: seq<Probe>, result: Result<Resolved, Error>)

  predicate Honest(base: Url, round: Round) {
    match round.auth
    case Failure(e) => round.probes == [] && round.result == Failure(e)
    case Success(auth) => Decided(base, auth, round.skip, round.probes, round.result)
  }

  predicate AnySkip(rounds: seq<Round>) {
    rounds != [] &&
    (AnySkip(rounds[..|rounds| - 1]) || LatchesSkip(rounds[|rounds| - 1].probes, rounds[|rounds| - 1].result))
  }

  predicate AnyBlind(rounds: seq<Round>) {
    rounds != [] && (AnyBlind(rounds[..|rounds| - 1]) || LatchesBlind(rounds[|rounds| - 1].probes))
  }

  /** Each round skips HEAD if the latch was set before the resolve, by a round
      before it, or by another resolve of the same client. */
  ghost predicate SkipsFollow(skip: bool, others: bool, rounds: seq<Round>) {
    forall k :: 0 <= k < |rounds| ==>
      && (skip || AnySkip(rounds[..k]) ==> rounds[k].skip)
      && (rounds[k].skip ==> skip || AnySkip(rounds[..k]) || others)
  }

  function Probes(rounds: seq<Round>): seq<Probe> {
    if rounds == [] then [] else Probes(rounds[..|rounds| - 1]) + rounds[|rounds| - 1].probes
  }

  function NotFounds(rounds: seq<Round>): nat {
    if rounds == [] then 0
    else NotFounds(rounds[..|rounds| - 1]) + if rounds[|rounds| - 1].result == Failure(BlobNotFound) then 1 else 0
  }

  ghost predicate AllMissing(rounds: seq<Round>) {
    forall round <- rounds :: round.result == Failure(BlobNotFound)
  }

  lemma {:induction false} CountMissing(rounds: seq<Round>)
    requires AllMissing(rounds)
    ensures NotFounds(rounds) == |rounds| && (rounds != [] ==> rounds[|rounds| - 1].result == Failure(BlobNotFound))
  {
    if rounds != [] { CountMissing(rounds[..|rounds| - 1]); }
  }

  /** Whether a pause follows the last of these rounds: not before a retry with
      fresh credentials, and not after a third verdict that the blob is missing. */
  predicate Pauses(hasAuth: bool, rounds: seq<Round>) {
    && rounds != []
    && var r := rounds[|rounds| - 1].result;
       && r.Failure? && !r.error.ContextDone? && !(r.error.Unauthorized? && hasAuth)
       && !(r.error.BlobNotFound? && NotFounds(rounds) >= 3)
  }

  /** After these rounds another is due, unless the context ends in the pause. */
  predicate GoesOn(rounds: seq<Round>) {
    rounds != [] ==>
      var r := rounds[|rounds| - 1].result;
      r.Failure? && !r.error.ContextDone? && |rounds| < MAX_RESOLVES
  }

  /** Credentials travel to the registry's own host only. */
  ghost predicate Discreet(host: string, probes: seq<Probe>) {
    forall k :: 0 <= k < |probes| ==> SameHost(probes[k].url.host, host)
  }

  // ----------------------------------------------- what every round guarantees

  lemma {:induction false} TargetStays(base: Url, auth: string, heads: seq<Probe>)
    requires Target(base, auth, heads).Some?
    ensures SameHost(Target(base, auth, heads).value.host, base.host)
    ensures forall k :: 0 <= k < |heads| ==> heads[k].method_.Head? && SameHost(heads[k].url.host, base.host)
  {
    if heads != [] {
      var front := heads[..|heads| - 1];
      TargetStays(base, auth, front);
      assert forall k :: 0 <= k < |front| ==> front[k] == heads[k];
    }
  }

  lemma SentHead(base: Url, auth: string, heads: seq<Probe>, p: Probe)
    requires p.method_.Head? && p.auth == auth && Target(base, auth, heads) == Some(p.url)
    ensures NextHead(base, auth, heads, p)
    ensures Target(base, auth, heads + [p]) == if Follows(p) then Some(p.reply.location.url) else None
  {
    TargetAppend(base, auth, heads, p);
  }

  lemma LatchOf(mine: seq<Probe>, r: Result<Resolved, Error>, p: Probe)
    requires |mine| >= 2 && mine[|mine| - 2] == p && mine[|mine| - 1].method_.RangedGet? && p.reply.NoReply?
    ensures LatchesSkip(mine, r) <==> Useless(p)
  {
  }

  /** A round that its last HEAD decides, or leaves undecided as the sixth. */
  lemma DecidedByHead(base: Url, auth: string, heads: seq<Probe>, p: Probe)
    requires NextHead(base, auth, heads, p) && |heads| < MAX_HOPS && !FallsBack(p.reply)
    requires Follows(p) ==> |heads| + 1 == MAX_HOPS
    ensures var r := FromHead(p);
            && Decided(base, auth, false, heads + [p], r)
            && !LatchesSkip(heads + [p], r) && !LatchesBlind(heads + [p])
  {
    assert (heads + [p])[..|heads|] == heads;
  }

  /** A result with headers is on the registry's own host; any other has none. */
  lemma HeadersStayHome(base: Url, auth: string, skip: bool, mine: seq<Probe>, r: Result<Resolved, Error>)
    requires Decided(base, auth, skip, mine, r) && r.Success?
    ensures Sealed(base.host, r.value)
  {
    var p, heads := mine[|mine| - 1], mine[..|mine| - 1];
    if p.method_.Head? { TargetStays(base, auth, heads); }
  }

  /** A blob is reported missing only by a ranged GET answered with 404 or 400. */
  lemma MissingNeedsRangedGet(base: Url, auth: string, skip: bool, mine: seq<Probe>, r: Result<Resolved, Error>)
    requires Decided(base, auth, skip, mine, r)
    ensures r == Failure(BlobNotFound) <==>
            var p := mine[|mine| - 1]; p.method_.RangedGet? && p.reply.Reply? && Denies(p.reply.status)
  {
  }

  /** What a successful round returns, by its last probe: the place that one was
      redirected to, without credentials unless a ranged GET stays on the host; or
      its own URL, with the credentials if there are any. */
  ghost predicate Gives(base: Url, auth: string, p: Probe, v: Resolved) {
    && p.reply.Reply?
    && if 300 <= p.reply.status < 400
       then && p.reply.location.To? && v.url == p.reply.location.url
            && v.headers == if p.method_.RangedGet? && Lower(v.url.host) == Lower(base.host)
                            then ["Authorization: " + auth] else []
       else && (p.reply.status == 200 || p.reply.status == 206) && v.url == p.url
            && v.headers == if auth == "" then [] else ["Authorization: " + auth]
  }

  /** What the last answer of a round makes of it. A redirect that a HEAD meets on
      the registry's own host ends the round only as the sixth. */
  lemma RoundResult(base: Url, auth: string, skip: bool, mine: seq<Probe>, r: Result<Resolved, Error>)
    requires Decided(base, auth, skip, mine, r)
    ensures r.Success? ==> Gives(base, auth, mine[|mine| - 1], r.value)
    ensures r.Success? <==>
            var p := mine[|mine| - 1];
            && p.reply.Reply?
            && (p.reply.status == 200 || p.reply.status == 206 ||
                (300 <= p.reply.status < 400 && p.reply.location.To? &&
                 (p.method_.RangedGet? || Lower(p.reply.location.url.host) != Lower(base.host))))
    ensures r == Failure(ContextDone) <==> mine[|mine| - 1].reply == NoReply(true)
    ensures r == Failure(Unauthorized) <==>
            var p := mine[|mine| - 1]; p.reply.Reply? && (p.reply.status == 401 || p.reply.status == 403)
    ensures r == Failure(BlobNotFound) <==>
            var p := mine[|mine| - 1];
            p.method_.RangedGet? && p.reply.Reply? && (p.reply.status == 404 || p.reply.status == 400)
  {
    var p, heads := mine[|mine| - 1], mine[..|mine| - 1];
    if p.method_.Head? { TargetStays(base, auth, heads); }
  }

  /** HEADs of which each goes where the one before was redirected, on one host. */
  ghost predicate Hops(base: Url, auth: string, heads: seq<Probe>) {
    && (heads != [] ==> heads[0].url == base)
    && (forall k :: 0 <= k < |heads| ==> heads[k].method_.Head? && heads[k].auth == auth)
    && forall k :: 1 <= k < |heads| ==>
         var reply := heads[k - 1].reply;
         && reply.Reply? && 300 <= reply.status < 400 && reply.location == To(heads[k].url)
         && Lower(heads[k].url.host) == Lower(heads[k - 1].url.host)
  }

  lemma {:induction false} TargetHops(base: Url, auth: string, heads: seq<Probe>, p: Probe)
    requires NextHead(base, auth, heads, p)
    ensures Hops(base, auth, heads + [p])
  {
    hide SameHost, Lower;
    if heads != [] {
      var front, q := heads[..|heads| - 1], heads[|heads| - 1];
      TargetHops(base, auth, front, q);
      assert heads == front + [q];
      HopsMore(base, auth, front, q, p);
    }
  }

  lemma HopsMore(base: Url, auth: string, front: seq<Probe>, q: Probe, p: Probe)
    requires Hops(base, auth, front + [q]) && p.method_.Head? && p.auth == auth && Follows(q)
    requires p.url == q.reply.location.url
    ensures Hops(base, auth, front + [q] + [p])
  {
    hide Lower;
    var heads, all := front + [q], front + [q] + [p];
    assert all[|heads|] == p && all[|heads| - 1] == q && Lower(p.url.host) == Lower(q.url.host);
    assert all[0] == heads[0];
    forall k | 1 <= k < |all|
      ensures var reply := all[k - 1].reply;
              && reply.Reply? && 300 <= reply.status < 400 && reply.location == To(all[k].url)
              && Lower(all[k].url.host) == Lower(all[k - 1].url.host)
    {
      if k < |heads| { assert all[k] == heads[k] && all[k - 1] == heads[k - 1]; }
    }
  }

  lemma NoHops(base: Url, auth: string)
    ensures Hops(base, auth, [])
  {
  }

  /** A redirect that stays on its host ends a round exactly as the sixth. */
  lemma SixthRedirect(base: Url, auth: string, skip: bool, mine: seq<Probe>, r: Result<Resolved, Error>, k: nat)
    requires Decided(base, auth, skip, mine, r) && k < |mine| && mine[k].method_.Head?
    ensures var reply := mine[k].reply;
            reply.Reply? && 300 <= reply.status < 400 && reply.location.To? &&
            Lower(reply.location.url.host) == Lower(mine[k].url.host) ==>
              (k + 1 == |mine| <==> k == 5) && (k == 5 ==> r == Failure(Other))
  {
    RoundShape(base, auth, skip, mine, r);
    FallBackExactly(base, auth, skip, mine, r, k);
    hide Target, FromRange, Hops, NextHead;
  }

  /** Which probes a round sends: a ranged GET alone where HEAD is skipped; else up
      to six HEADs along the redirects, and a ranged GET after them or not. */
  lemma RoundShape(base: Url, auth: string, skip: bool, mine: seq<Probe>, r: Result<Resolved, Error>)
    requires Decided(base, auth, skip, mine, r)
    ensures var n, g := |mine| - 1, mine[|mine| - 1];
            if g.method_.Head? then !skip && n < 6 && Hops(base, auth, mine)
            else g.url == base && g.auth == auth && n <= 6 && (skip <==> n == 0) && Hops(base, auth, mine[..n])
  {
    hide Target, FromRange, FromHead, FallsBack, Follows, NextHead, Hops;
    var n, p, heads := |mine| - 1, mine[|mine| - 1], mine[..|mine| - 1];
    if p.method_.Head? {
      TargetHops(base, auth, heads, p);
      assert mine == heads + [p];
    } else if n > 0 {
      TargetHops(base, auth, heads[..n - 1], heads[n - 1]);
      assert heads == heads[..n - 1] + [heads[n - 1]];
    } else {
      NoHops(base, auth);
    }
  }

  /** The ranged GET follows exactly the HEADs that hung or were neither redirected
      nor served nor refused. */
  lemma FallBackExactly(base: Url, auth: string, skip: bool, mine: seq<Probe>, r: Result<Resolved, Error>, k: nat)
    requires Decided(base, auth, skip, mine, r) && k < |mine| && mine[k].method_.Head?
    ensures k + 1 < |mine| && mine[k + 1].method_.RangedGet? <==>
            var reply := mine[k].reply;
            if reply.NoReply? then !reply.contextDone
            else !(300 <= reply.status < 400) && reply.status !in {200, 206, 401, 403}
  {
    RoundShape(base, auth, skip, mine, r);
    hide Target, FromRange, FromHead, NextHead;
    var n := |mine| - 1;
    assert mine[n].method_.RangedGet? && n > 0 ==> mine[..n][n - 1] == mine[n - 1];
    if k + 1 < n { assert mine[..n][k + 1] == mine[k + 1]; }
  }

  lemma {:induction false} HeadsOnly(heads: seq<Probe>)
    requires forall k :: 0 <= k < |heads| ==> heads[k].method_.Head?
    ensures Count(heads, Head) == |heads| && Count(heads, RangedGet) == 0
  {
    if heads != [] { HeadsOnly(heads[..|heads| - 1]); }
  }

  lemma {:induction false} TargetAppend(base: Url, auth: string, heads: seq<Probe>, p: Probe)
    requires NextHead(base, auth, heads, p)
    ensures Target(base, auth, heads + [p]) == if Follows(p) then Some(p.reply.location.url) else None
  {
    assert (heads + [p])[..|heads|] == heads;
  }

  lemma ChaseBounds(base: Url, auth: string, heads: seq<Probe>, p: Probe)
    requires NextHead(base, auth, heads, p)
    ensures Count(heads + [p], Head) == |heads| + 1 && Count(heads + [p], RangedGet) == 0
    ensures Discreet(base.host, heads + [p])
  {
    TargetStays(base, auth, heads);
    HeadsOnly(heads + [p]);
  }

  lemma CountOne(p: Probe)
    ensures Count([p], Head) == (if p.method_.Head? then 1 else 0)
    ensures Count([p], RangedGet) == if p.method_.RangedGet? then 1 else 0
  {
    assert [p][..0] == [];
  }

  lemma RangedBounds(base: Url, auth: string, heads: seq<Probe>, p: Probe)
    requires p.method_.RangedGet? && p.url == base && |heads| <= MAX_HOPS
    requires heads != [] ==> NextHead(base, auth, heads[..|heads| - 1], heads[|heads| - 1])
    ensures Count(heads + [p], Head) == |heads| && Count(heads + [p], RangedGet) == 1
    ensures Discreet(base.host, heads + [p])
  {
    CountOne(p);
    CountAppend(heads, [p], Head);
    CountAppend(heads, [p], RangedGet);
    hide Count, NextHead;
    if heads != [] {
      assert heads == heads[..|heads| - 1] + [heads[|heads| - 1]];
      ChaseBounds(base, auth, heads[..|heads| - 1], heads[|heads| - 1]);
    } else {
      CountNone();
    }
  }

  /** The probes of a round: at most six HEADs and one ranged GET, no HEAD where it
      is skipped, and none to another host. */
  lemma RoundBounds(base: Url, auth: string, skip: bool, mine: seq<Probe>, r: Result<Resolved, Error>)
    requires Decided(base, auth, skip, mine, r)
    ensures Count(mine, Head) <= MAX_HOPS && Count(mine, RangedGet) <= 1 && (skip ==> Count(mine, Head) == 0)
    ensures Discreet(base.host, mine)
  {
    hide FromRange, FromHead, Count, NextHead, Follows, FallsBack, Discreet;
    var p, heads := mine[|mine| - 1], mine[..|mine| - 1];
    assert mine == heads + [p];
    if p.method_.Head? {
      ChaseBounds(base, auth, heads, p);
    } else {
      RangedBounds(base, auth, heads, p);
    }
  }

  /** A HEAD that hung, or was answered 405 or 501, or was answered 404 or 400 where
      the ranged GET after it succeeded. */
  ghost predicate SeesUseless(round: Round) {
    && |round.probes| >= 2 && round.probes[|round.probes| - 1].method_.RangedGet?
    && var h := round.probes[|round.probes| - 2];
       || (h.method_.Head? && h.reply == NoReply(false))
       || (h.method_.Head? && h.reply.Reply? && (h.reply.status == 405 || h.reply.status == 501))
       || (h.reply.Reply? && (h.reply.status == 404 || h.reply.status == 400) && round.result.Success?)
  }

  /** A ranged GET answered with a full body. */
  ghost predicate SeesBlind(round: Round) {
    exists p <- round.probes :: p.method_.RangedGet? && p.reply.Reply? && p.reply.status == 200
  }

  lemma SkipExactly(round: Round)
    ensures LatchesSkip(round.probes, round.result) <==> SeesUseless(round)
  {
    if |round.probes| >= 2 {
      var h := round.probes[|round.probes| - 2];
      assert h.reply == NoReply(false) <==> h.reply.NoReply? && !h.reply.contextDone;
    }
  }

  lemma {:induction false} AnySkipExactly(rounds: seq<Round>)
    ensures AnySkip(rounds) <==> exists round <- rounds :: SeesUseless(round)
  {
    if rounds != [] {
      var front, round := rounds[..|rounds| - 1], rounds[|rounds| - 1];
      SkipExactly(round);
      hide LatchesSkip, SeesUseless;
      AnySkipExactly(front);
      assert rounds == front + [round];
    }
  }

  lemma BlindExactly(base: Url, round: Round)
    requires Honest(base, round)
    ensures LatchesBlind(round.probes) <==> SeesBlind(round)
  {
    if round.auth.Success? {
      RoundShape(base, round.auth.value, round.skip, round.probes, round.result);
      var n := |round.probes| - 1;
      hide Decided;
      assert round.probes[..n] + [round.probes[n]] == round.probes;
      assert forall k :: 0 <= k < n ==> round.probes[..n][k] == round.probes[k];
    }
  }

  lemma {:induction false} AnyBlindExactly(base: Url, rounds: seq<Round>)
    requires forall k :: 0 <= k < |rounds| ==> Honest(base, rounds[k])
    ensures AnyBlind(rounds) <==> exists round <- rounds :: SeesBlind(round)
  {
    if rounds != [] {
      var front, round := rounds[..|rounds| - 1], rounds[|rounds| - 1];
      BlindExactly(base, round);
      hide Honest, SeesBlind, LatchesBlind;
      assert forall k :: 0 <= k < |front| ==> front[k] == rounds[k];
      AnyBlindExactly(base, front);
      assert rounds == front + [round];
    }
  }

  lemma CountNone()
    ensures Count([], Head) == 0 && Count([], RangedGet) == 0
  {
  }

  lemma RoundsMore(rounds: seq<Round>, round: Round)
    ensures var more := rounds + [round];
            && more[..|rounds|] == rounds && more[|rounds|] == round
            && Probes(more) == Probes(rounds) + round.probes
            && (AnySkip(more) <==> AnySkip(rounds) || LatchesSkip(round.probes, round.result))
            && (AnyBlind(more) <==> AnyBlind(rounds) || LatchesBlind(round.probes))
            && NotFounds(more) == NotFounds(rounds) + if round.result == Failure(BlobNotFound) then 1 else 0
  {
    hide LatchesSkip, LatchesBlind;
    assert (rounds + [round])[..|rounds|] == rounds;
  }

  lemma SkipsMore(skip: bool, others: bool, others': bool, rounds: seq<Round>, round: Round)
    requires SkipsFollow(skip, others, rounds) && (others ==> others')
    requires skip || AnySkip(rounds) ==> round.skip
    requires round.skip ==> skip || AnySkip(rounds) || others'
    ensures SkipsFollow(skip, others', rounds + [round])
  {
    hide AnySkip;
    var more := rounds + [round];
    assert more[..|rounds|] == rounds;
    assert forall k :: 0 <= k < |rounds| ==> more[k] == rounds[k] && more[..k] == rounds[..k];
  }

  /** All rounds of a resolve together. */
  lemma {:induction false} ProbesBounds(base: Url, rounds: seq<Round>)
    requires forall k :: 0 <= k < |rounds| ==> Honest(base, rounds[k])
    ensures var mine := Probes(rounds);
            && Count(mine, Head) <= MAX_HOPS * |rounds| && Count(mine, RangedGet) <= |rounds|
            && Discreet(base.host, mine)
            && ((forall k :: 0 <= k < |rounds| ==> rounds[k].skip) ==> Count(mine, Head) == 0)
  {
    if rounds != [] {
      var front, round := rounds[..|rounds| - 1], rounds[|rounds| - 1];
      ProbesBounds(base, front);
      CountAppend(Probes(front), round.probes, Head);
      CountAppend(Probes(front), round.probes, RangedGet);
      if round.auth.Success? {
        RoundBounds(base, round.auth.value, round.skip, round.probes, round.result);
      } else {
        CountNone();
      }
      hide Honest;
      assert forall k :: 0 <= k < |front| ==> front[k] == rounds[k];
    }
  }

  // ------------------------------------------------------------------ the client

  class Client {
    const base: Url
    var skipHead: bool
    var rangeBlind: bool
    ghost var log: seq<Probe>        // the probes of the resolve at hand
    ghost var othersSkip: bool       // another resolve of this client has set skipHead
    ghost var othersBlind: bool      // or rangeBlind

    constructor (base: Url)
      ensures this.base == base && !skipHead && !rangeBlind && log == [] && Noted()
    {
      this.base, skipHead, rangeBlind, log := base, false, false, [];
      othersSkip, othersBlind := false, false;
    }

    ghost predicate Noted()
      reads this
    {
      (othersSkip ==> skipHead) && (othersBlind ==> rangeBlind)
    }

    /** The latches are set that were set before, that this resolve sets, and that
        others set. */
    twostate predicate Latched(skip: bool, blind: bool)
      reads this
    {
      && Noted() && (old(othersSkip) ==> othersSkip) && (old(othersBlind) ==> othersBlind)
      && skipHead == (old(skipHead) || skip || othersSkip) && rangeBlind == (old(rangeBlind) || blind || othersBlind)
    }

    /** Other resolves of the client may set its latches at any time. */
    method Others()
      requires Noted()
      modifies `skipHead, `rangeBlind, `othersSkip, `othersBlind
      ensures Latched(false, false)
    {
      if * { skipHead, othersSkip := true, true; }
      if * { rangeBlind, othersBlind := true, true; }
    }

    /** One request, answered by whoever serves that URL. */
    method Send(m: Method, url: Url, auth: string) returns (reply: Reply)
      requires Noted()
      modifies this
      ensures Latched(false, false) && log == old(log) + [Probe(m, url, auth, reply)]
    {
      Others();
      reply := *;
      log := log + [Probe(m, url, auth, reply)];
    }

    method ResolveViaRangeGet(auth: string) returns (r: Result<Resolved, Error>, ghost p: Probe)
      requires Noted()
      modifies this
      ensures log == old(log) + [p] && p.method_.RangedGet? && p.url == base && p.auth == auth
      ensures r == FromRange(base, auth, p.reply) && Latched(false, p.reply.Reply? && p.reply.status == 200)
      ensures r.Success? <==>
              p.reply.Reply? && (p.reply.status == 200 || p.reply.status == 206 ||
                                 (300 <= p.reply.status < 400 && p.reply.location.To?))
      ensures r.Success? ==> Gives(base, auth, p, r.value)
      ensures r == Failure(Unauthorized) <==> p.reply.Reply? && (p.reply.status == 401 || p.reply.status == 403)
      ensures r == Failure(BlobNotFound) <==> p.reply.Reply? && (p.reply.status == 404 || p.reply.status == 400)
      ensures r == Failure(ContextDone) <==> p.reply == NoReply(true)
    {
      var reply := Send(RangedGet, base, auth);
      p := Probe(RangedGet, base, auth, reply);
      if reply.NoReply? { return Failure(if reply.contextDone then ContextDone else Other), p; }
      var status := reply.status;
      if Redirects(status) {
        match reply.location
        case Absent | Malformed => return Failure(Other), p;
        case To(next) =>
          if SameHost(next.host, base.host) { return Success(Resolved(next, ["Authorization: " + auth])), p; }
          return Success(Resolved(next, [])), p;
      } else if Serves(status) {
        if status == 200 { rangeBlind := true; }
        return Success(Resolved(base, AuthHeader(auth))), p;
      } else if Refuses(status) {
        return Failure(Unauthorized), p;
      } else if Denies(status) {
        return Failure(BlobNotFound), p;
      }
      return Failure(Other), p;
    }

    /** p is the last of the probes since before, a HEAD that the chase led to. */
    ghost predicate Ending(auth: string, before: seq<Probe>, p: Probe)
      reads this
    {
      && before <= log
      && var mine := log[|before|..];
         1 <= |mine| <= MAX_HOPS && mine[|mine| - 1] == p && NextHead(base, auth, mine[..|mine| - 1], p)
    }

    /** The ranged GET that ends a chase, latching skipHead first or not. */
    method FallBack(auth: string, latch: bool, ghost before: seq<Probe>, ghost p: Probe)
      returns (r: Result<Resolved, Error>)
      requires Noted() && Ending(auth, before, p) && FallsBack(p.reply) && latch == Useless(p)
      modifies this
      ensures before <= log && Decided(base, auth, false, log[|before|..], r)
      ensures var mine := log[|before|..];
              |mine| >= 2 && mine[|mine| - 2] == p && mine[|mine| - 1].method_.RangedGet? &&
              Latched(Useless(p), LatchesBlind(mine))
    {
      hide Target, FromRange, Follows, NextHead, Gives, Lower, AuthHeader;
      ghost var mine := log[|before|..];
      if latch { skipHead := true; }
      ghost var g;
      r, g := ResolveViaRangeGet(auth);
      assert log[|before|..] == mine + [g] && (mine + [g])[..|mine|] == mine;
    }

    /** A HEAD that was not redirected: its status ends the chase. */
    method Judge(status: nat, url: Url, auth: string, ghost before: seq<Probe>, ghost p: Probe)
      returns (r: Result<Resolved, Error>)
      requires Noted() && Ending(auth, before, p) && p.url == url
      requires p.reply.Reply? && p.reply.status == status && !Redirects(status)
      modifies this
      ensures before <= log && Decided(base, auth, false, log[|before|..], r)
      ensures Latched(LatchesSkip(log[|before|..], r), LatchesBlind(log[|before|..]))
    {
      hide Target;
      if Serves(status) {
        return Success(Resolved(url, AuthHeader(auth)));
      } else if Refuses(status) {
        return Failure(Unauthorized);
      }
      r := FallBack(auth, NoSuchMethod(status), before, p);
      if Denies(status) && r.Success? { skipHead := true; }
    }

    /** One HEAD. A redirect that stays on the registry's host is followed with
        the same credentials; any other answer ends the chase. */
    method Hop(url: Url, auth: string, ghost before: seq<Probe>, ghost h: nat)
      returns (next: Option<Url>, r: Result<Resolved, Error>)
      requires Noted() && before <= log && h < MAX_HOPS
      requires |log| == |before| + h && Target(base, auth, log[|before|..]) == Some(url)
      modifies this
      ensures before <= log
      ensures next.Some? ==>
                && Latched(false, false) && |log| == |before| + h + 1
                && Target(base, auth, log[|before|..]) == Some(next.value)
                && (h + 1 == MAX_HOPS ==>
                      Decided(base, auth, false, log[|before|..], Failure(Other)) && !LatchesBlind(log[|before|..]) &&
                      !LatchesSkip(log[|before|..], Failure(Other)))
      ensures next.None? ==>
                && Decided(base, auth, false, log[|before|..], r)
                && Latched(LatchesSkip(log[|before|..], r), LatchesBlind(log[|before|..]))
    {
      hide FromRange, FromHead, Target, Decided, LatchesSkip, LatchesBlind, NextHead, Follows, FullBody;
      ghost var mine := log[|before|..];
      var reply := Send(Head, url, auth);
      ghost var p := Probe(Head, url, auth, reply);
      assert log[|before|..] == mine + [p] && (mine + [p])[..|mine|] == mine;
      SentHead(base, auth, mine, p);
      next := None;
      if reply.NoReply? && !reply.contextDone {
        r := FallBack(auth, true, before, p);
        LatchOf(log[|before|..], r, p);
      } else if reply.Reply? && !Redirects(reply.status) {
        r := Judge(reply.status, url, auth, before, p);
      } else {
        next, r := Redirected(url, reply, auth, mine, p);
      }
    }

    /** A redirect, or the end of the context: whether the chase goes on. */
    method Redirected(url: Url, reply: Reply, auth: string, ghost mine: seq<Probe>, ghost p: Probe)
      returns (next: Option<Url>, r: Result<Resolved, Error>)
      requires url == p.url && reply == p.reply && !FallsBack(reply) && (reply.Reply? ==> Redirects(reply.status))
      requires NextHead(base, auth, mine, p) && |mine| < MAX_HOPS
      ensures next.Some? <==> Follows(p)
      ensures next.Some? ==> next.value == p.reply.location.url
      ensures next.Some? && |mine| + 1 == MAX_HOPS ==>
                && Decided(base, auth, false, mine + [p], Failure(Other))
                && !LatchesSkip(mine + [p], Failure(Other)) && !LatchesBlind(mine + [p])
      ensures next.None? ==>
                Decided(base, auth, false, mine + [p], r) && !LatchesSkip(mine + [p], r) && !LatchesBlind(mine + [p])
    {
      if !Follows(p) || |mine| + 1 == MAX_HOPS { DecidedByHead(base, auth, mine, p); }
      hide Decided, LatchesSkip, LatchesBlind, NextHead;
      next := None;
      if reply.NoReply? { return None, Failure(ContextDone); }
      if !reply.location.To? { return None, Failure(Other); }
      var to := reply.location.url;
      if !SameHost(to.host, url.host) { return None, Success(Resolved(to, [])); }
      return Some(to), Failure(Other);
    }

    method Chase(auth: string) returns (r: Result<Resolved, Error>)
      requires Noted()
      modifies this
      ensures old(log) <= log && Decided(base, auth, false, log[|old(log)|..], r)
      ensures Latched(LatchesSkip(log[|old(log)|..], r), LatchesBlind(log[|old(log)|..]))
    {
      hide Decided, LatchesSkip, LatchesBlind;
      var url := base;
      assert log[|old(log)|..] == [];
      for hop := 0 to MAX_HOPS
        invariant old(log) <= log && |log| == |old(log)| + hop && Latched(false, false)
        invariant Target(base, auth, log[|old(log)|..]) == Some(url)
        invariant hop == MAX_HOPS ==>
                    Decided(base, auth, false, log[|old(log)|..], Failure(Other)) &&
                    !LatchesBlind(log[|old(log)|..]) && !LatchesSkip(log[|old(log)|..], Failure(Other))
      {
        var next;
        next, r := Hop(url, auth, old(log), hop);
        if next.None? { return; }
        url := next.value;
      }
      return Failure(Other);
    }

    /** resolveBlobURLOnce; the authenticator yields a header value or fails. The
        latches are set exactly for the reasons its probes give, and by others. */
    method ResolveOnce(auth: Result<string, Error>) returns (r: Result<Resolved, Error>, ghost round: Round)
      requires Noted()
      modifies this
      ensures log == old(log) + round.probes && round.auth == auth && round.result == r && Honest(base, round)
      ensures (old(skipHead) ==> round.skip) && (round.skip ==> old(skipHead) || othersSkip)
      ensures Latched(LatchesSkip(round.probes, r), LatchesBlind(round.probes))
    {
      hide Target, FromRange, FromHead;
      Others();
      round := Round(auth, skipHead, [], Failure(Other));
      if auth.Failure? { return Failure(auth.error), round.(result := Failure(auth.error)); }
      ghost var before := log;
      if skipHead {
        ghost var p;
        r, p := ResolveViaRangeGet(auth.value);
        return r, round.(probes := [p], result := r);
      } else {
        r := Chase(auth.value);
        return r, round.(probes := log[|before|..], result := r);
      }
    }

    /** What the rounds of one resolve have done to the latches, given what they
        were when it began. */
    ghost predicate Through(skip: bool, blind: bool, auths: seq<Result<string, Error>>, rounds: seq<Round>)
      reads this
    {
      && Noted() && log == Probes(rounds) && |rounds| <= |auths|
      && (forall k :: 0 <= k < |rounds| ==> Honest(base, rounds[k]) && rounds[k].auth == auths[k])
      && SkipsFollow(skip, othersSkip, rounds)
      && skipHead == (skip || AnySkip(rounds) || othersSkip)
      && rangeBlind == (blind || AnyBlind(rounds) || othersBlind)
    }

    method NextRound(ghost skip: bool, ghost blind: bool, auths: seq<Result<string, Error>>, ghost rounds: seq<Round>,
                     attempt: nat)
      returns (r: Result<Resolved, Error>, ghost rounds': seq<Round>)
      requires Through(skip, blind, auths, rounds) && attempt == |rounds| < |auths|
      modifies this
      ensures |rounds'| == attempt + 1 && rounds'[..attempt] == rounds && rounds'[attempt].result == r
      ensures Through(skip, blind, auths, rounds')
      ensures NotFounds(rounds') == NotFounds(rounds) + if r == Failure(BlobNotFound) then 1 else 0
    {
      hide Honest, LatchesSkip, LatchesBlind, AnySkip, AnyBlind, Probes, NotFounds, SkipsFollow;
      ghost var before := othersSkip;
      ghost var round;
      r, round := ResolveOnce(auths[attempt]);
      rounds' := rounds + [round];
      RoundsMore(rounds, round);
      SkipsMore(skip, before, othersSkip, rounds, round);
    }

    /** ResolveBlobURL: at most three rounds, whatever the servers answer and other
        resolves of the client latch. Every probe belongs to a round, every round
        is decided by its answers, all but the last end in an error that is tried
        again, and the last gives the result. */
    method ResolveBlobURL(hasAuth: bool, auths: seq<Result<string, Error>>)
      returns (r: Result<Resolved, Error>, ghost rounds: seq<Round>)
      requires |auths| == MAX_RESOLVES
      modifies this
      ensures rounds != [] && Through(old(skipHead), old(rangeBlind), auths, rounds)
      ensures forall k :: 1 <= k < |rounds| ==> GoesOn(rounds[..k])
      ensures r == rounds[|rounds| - 1].result || (r == Failure(ContextDone) && Pauses(hasAuth, rounds))
      ensures GoesOn(rounds) ==> r == Failure(ContextDone) && Pauses(hasAuth, rounds)
      ensures |rounds| <= 3 && (|rounds| < 3 ==> r.Success? || r == Failure(ContextDone))
      ensures forall k :: 0 <= k < |rounds| - 1 ==>
                rounds[k].result.Failure? && rounds[k].result != Failure(ContextDone)
      ensures hasAuth && rounds[|rounds| - 1].result == Failure(Unauthorized) ==> r == Failure(Unauthorized)
      ensures |rounds| == 3 && AllMissing(rounds) ==> r == Failure(BlobNotFound)
      ensures r.Success? ==>
                var auth, mine := rounds[|rounds| - 1].auth, rounds[|rounds| - 1].probes;
                auth.Success? && mine != [] && Gives(base, auth.value, mine[|mine| - 1], r.value)
      ensures r.Success? ==> Sealed(base.host, r.value)
      ensures Discreet(base.host, log) && Count(log, Head) <= 18 && Count(log, RangedGet) <= 3
      ensures old(skipHead) ==> Count(log, Head) == 0
      ensures rangeBlind <==> old(rangeBlind) || othersBlind || exists round <- rounds :: SeesBlind(round)
      ensures skipHead <==> old(skipHead) || othersSkip || exists round <- rounds :: SeesUseless(round)
    {
      hide Through, NotFounds, Discreet, Count, Honest, AnySkip, AnyBlind;
      hide Gives, SeesBlind, SeesUseless, Sealed, AllMissing;
      log, othersSkip, othersBlind := [], false, false;
      rounds := NoneYet(auths);
      var notFound := 0;
      r := Failure(Other);
      for attempt := 0 to MAX_RESOLVES
        invariant |rounds| == attempt && Through(old(skipHead), old(rangeBlind), auths, rounds)
        invariant forall k :: 1 <= k < |rounds| ==> GoesOn(rounds[..k])
        invariant rounds != [] ==> r == rounds[|rounds| - 1].result && r.Failure? && !r.error.ContextDone?
        invariant notFound == NotFounds(rounds) && notFound <= attempt
      {
        ghost var earlier := rounds;
        r, rounds := NextRound(old(skipHead), old(rangeBlind), auths, rounds, attempt);
        assert forall k :: 0 <= k < attempt ==> rounds[..k] == earlier[..k];
        if r.Success? { break; }
        if r.error.Unauthorized? && hasAuth { continue; }
        if r.error.ContextDone? { break; }
        if r.error.BlobNotFound? {
          notFound := notFound + 1;
          if notFound >= 3 { break; }
        }
        if * {
          r := Failure(ContextDone);
          break;
        }
      }
      Guarantees(old(skipHead), old(rangeBlind), auths, rounds);
      LastRound(old(skipHead), old(rangeBlind), auths, rounds);
      EarlierRounds(rounds);
      if AllMissing(rounds) { CountMissing(rounds); }
    }

    lemma NoneYet(auths: seq<Result<string, Error>>) returns (rounds: seq<Round>)
      requires log == [] && !othersSkip && !othersBlind
      ensures rounds == [] && Through(skipHead, rangeBlind, auths, rounds) && NotFounds(rounds) == 0
    {
      rounds := [];
    }

    lemma LastRound(skip: bool, blind: bool, auths: seq<Result<string, Error>>, rounds: seq<Round>)
      requires Through(skip, blind, auths, rounds) && rounds != []
      ensures rangeBlind <==> blind || othersBlind || exists round <- rounds :: SeesBlind(round)
      ensures skipHead <==> skip || othersSkip || exists round <- rounds :: SeesUseless(round)
      ensures var round := rounds[|rounds| - 1];
              round.result.Success? ==>
                && round.auth.Success? && round.probes != []
                && Gives(base, round.auth.value, round.probes[|round.probes| - 1], round.result.value)
    {
      AnyBlindExactly(base, rounds);
      AnySkipExactly(rounds);
      var round := rounds[|rounds| - 1];
      assert Honest(base, round);
      if round.auth.Success? { RoundResult(base, round.auth.value, round.skip, round.probes, round.result); }
    }

    lemma EarlierRounds(rounds: seq<Round>)
      requires forall k :: 1 <= k < |rounds| ==> GoesOn(rounds[..k])
      ensures forall k :: 0 <= k < |rounds| - 1 ==>
                rounds[k].result.Failure? && rounds[k].result != Failure(ContextDone)
    {
      forall k | 0 <= k < |rounds| - 1
        ensures rounds[k].result.Failure? && rounds[k].result != Failure(ContextDone)
      {
        assert GoesOn(rounds[..k + 1]);
      }
    }

    lemma Guarantees(skip: bool, blind: bool, auths: seq<Result<string, Error>>, rounds: seq<Round>)
      requires Through(skip, blind, auths, rounds) && |auths| == MAX_RESOLVES && rounds != []
      ensures Discreet(base.host, log) && Count(log, Head) <= 18 && Count(log, RangedGet) <= 3
      ensures skip ==> Count(log, Head) == 0
      ensures var r := rounds[|rounds| - 1].result; r.Success? ==> Sealed(base.host, r.value)
    {
      ProbesBounds(base, rounds);
      var round := rounds[|rounds| - 1];
      assert Honest(base, round);
      if round.auth.Success? && round.result.Success? {
        HeadersStayHome(base, round.auth.value, round.skip, round.probes, round.result);
      }
    }
  }
}
