/**
  The retry vocabulary: which class an aria2 failure gets, and how long
  downloadObject waits before its next attempt (in nanoseconds).
 */
module Retry {
  import opened Basics

  // ------------------------------------------------------------ error classes

  datatype Class = Retryable | PartCleanup | AuthRetry | NonRetryable

  /** An error chain. The cleanup and auth errors embed a retryableError, so their
      promoted Unwrap yields what that one wraps, not the retryableError itself. */
  datatype Error = Plain | Wrapped(class_: Class, inner: Error)

  /** errors.As against one of the four error types. */
  predicate As(e: Error, c: Class) { e.Wrapped? && (e.class_ == c || As(e.inner, c)) }

  predicate Contains(s: string, sub: string) {
    sub <= s || (s != [] && Contains(s[1..], sub))
  }

  ghost predicate Occurs(s: string, sub: string) {
    exists i :: 0 <= i <= |s| && sub <= s[i..]
  }

  lemma {:induction false} ContainsExactly(s: string, sub: string)
    ensures Contains(s, sub) <==> Occurs(s, sub)
  {
    if sub <= s {
      assert s[0..] == s;
    } else if s != [] {
      ContainsExactly(s[1..], sub);
      OccursLater(s, sub);
    } else {
      assert s[0..] == s;
    }
  }

  lemma OccursLater(s: string, sub: string)
    requires s != [] && !(sub <= s)
    ensures Occurs(s, sub) <==> Occurs(s[1..], sub)
  {
    if i :| 0 <= i <= |s[1..]| && sub <= s[1..][i..] {
      assert s[1..][i..] == s[i + 1..];
    }
    if i :| 0 <= i <= |s| && sub <= s[i..] {
      assert i > 0 && s[1..][i - 1..] == s[i..];
    }
  }

  predicate Denied(message: string) {
    var msg := Lower(message);
    Contains(msg, "401") || Contains(msg, "403") || Contains(msg, "unauthorized") || Contains(msg, "forbidden")
  }

  /** classifyAria2Failure */
  function Classify(code: string, message: string): Error {
    if code == "3" then Wrapped(NonRetryable, Plain)
    else if code in ["9", "10", "23"] then Wrapped(NonRetryable, Plain)
    else if code in ["15", "16"] then Wrapped(NonRetryable, Plain)
    else if code in ["20", "21"] then Wrapped(NonRetryable, Plain)
    else if code in ["11", "12", "13", "17", "22", "25", "26"] then Wrapped(PartCleanup, Plain)
    else if code in ["14", "24"] then Wrapped(AuthRetry, Plain)
    else if Denied(message) then Wrapped(AuthRetry, Plain)
    else Wrapped(Retryable, Plain)
  }

  /** The classes exclude each other, so isRetryable does not hold of cleanup and
      auth errors; a failure is final, or of the cleanup class, exactly for these
      codes, whatever its message; only where no code decides does the message. */
  lemma ClassifiedOnce(code: string, message: string, c: Class, d: Class)
    ensures var e := Classify(code, message);
            && (As(e, c) && As(e, d) ==> c == d)
            && (As(e, NonRetryable) <==> code in {"3", "9", "10", "15", "16", "20", "21", "23"})
            && (As(e, PartCleanup) <==> code in {"11", "12", "13", "17", "22", "25", "26"})
            && (As(e, AuthRetry) <==>
                  || code in {"14", "24"}
                  || (&& code !in {"3", "9", "10", "15", "16", "20", "21", "23"}
                      && code !in {"11", "12", "13", "17", "22", "25", "26"}
                      && (Occurs(Lower(message), "401") || Occurs(Lower(message), "403") ||
                          Occurs(Lower(message), "unauthorized") || Occurs(Lower(message), "forbidden"))))
            && (As(e, NonRetryable) || As(e, PartCleanup) || As(e, AuthRetry) || As(e, Retryable))
  {
    var e := Classify(code, message);
    assert e.inner == Plain;
    ContainsExactly(Lower(message), "401");
    ContainsExactly(Lower(message), "403");
    ContainsExactly(Lower(message), "unauthorized");
    ContainsExactly(Lower(message), "forbidden");
  }

  // ------------------------------------------------------------------ delays

  const SECOND := 1_000_000_000

  function Shl(x: int, n: nat): int { if n == 0 then x else 2 * Shl(x, n - 1) }

  /** The delay before jitter. */
  function Base(attempt: int): int {
    var n := if attempt < 1 then 1 else attempt;
    var shift := if n - 1 > 4 then 4 else n - 1;
    var d := Shl(SECOND, shift);
    if d > 30 * SECOND then 30 * SECOND else d
  }

  function Jittered(d: int, jitter: int, tails: bool): int { if tails then d - jitter else d + jitter }

  /** A delay backoffDelay can return. */
  ghost predicate Drawn(attempt: int, delay: int) {
    exists jitter, tails :: 0 <= jitter < Base(attempt) / 4 && delay == Jittered(Base(attempt), jitter, tails)
  }

  /** backoffDelay */
  method BackoffDelay(attempt: int) returns (delay: int)
    ensures Drawn(attempt, delay)
  {
    Bases(attempt);
    var n := attempt;
    if n < 1 { n := 1; }
    var shift := n - 1;
    if shift > 4 { shift := 4; }
    var d := Shl(SECOND, shift);
    if d > 30 * SECOND { d := 30 * SECOND; }
    var jitter: int :| 0 <= jitter < d / 4;
    var tails: bool := *;
    if tails { delay := d - jitter; } else { delay := d + jitter; }
    assert delay == Jittered(Base(attempt), jitter, tails);
  }

  lemma Bases(n: int)
    ensures Base(n) == if n <= 1 then SECOND else if n == 2 then 2 * SECOND else if n == 3 then 4 * SECOND
                       else if n == 4 then 8 * SECOND else 16 * SECOND
  {
    assert Shl(SECOND, 1) == 2 * SECOND && Shl(SECOND, 2) == 4 * SECOND;
    assert Shl(SECOND, 3) == 8 * SECOND && Shl(SECOND, 4) == 16 * SECOND;
  }

  /** The delays are exactly those strictly within a quarter of the base, which is 1, 2,
      4, 8 and then always 16 seconds; the 30 s cap is out of reach. */
  lemma DelayExactly(n: int, delay: int)
    ensures Drawn(n, delay) <==> 3 * Base(n) < 4 * delay < 5 * Base(n)
    ensures Base(n) == if n <= 1 then 1_000_000_000 else if n == 2 then 2_000_000_000
                       else if n == 3 then 4_000_000_000 else if n == 4 then 8_000_000_000 else 16_000_000_000
    ensures Drawn(n, delay) ==> delay < 20_000_000_000
  {
    Bases(n);
    var jitter := if delay < Base(n) then Base(n) - delay else delay - Base(n);
    if 3 * Base(n) < 4 * delay < 5 * Base(n) {
      assert 0 <= jitter < Base(n) / 4 && delay == Jittered(Base(n), jitter, delay < Base(n));
    }
  }

  /** The later delay is longer under any jitter exactly up to attempt 5. */
  lemma IncreaseExactly(m: int, n: int)
    ensures (forall a, b :: Drawn(m, a) && Drawn(n, b) ==> a < b) <==> m < n && m < 5 && n > 1
  {
    Bases(m);
    Bases(n);
    forall a, b | Drawn(m, a) && Drawn(n, b) ensures m < n && m < 5 && n > 1 ==> a < b {
      DelayExactly(m, a);
      DelayExactly(n, b);
    }
    if Base(m) >= Base(n) {
      DelayExactly(m, Base(m));
      DelayExactly(n, Base(n));
    }
  }

  function Sum(xs: seq<int>): int {
    if xs == [] then 0 else Sum(xs[..|xs| - 1]) + xs[|xs| - 1]
  }

  /** The waits of one object: before attempt 2, 3, and so on. */
  ghost predicate Waits(xs: seq<int>) {
    forall i :: 0 <= i < |xs| ==> Drawn(i + 2, xs[i])
  }

  /** M attempts, M at least 4, sleep less than 1.25 * (14 + 16 * (M - 4)) seconds in all. */
  lemma {:induction false} TotalSleep(xs: seq<int>)
    requires Waits(xs) && |xs| >= 3
    ensures 3 * (14 + 16 * (|xs| - 3)) * SECOND < 4 * Sum(xs) < 5 * (14 + 16 * (|xs| - 3)) * SECOND
  {
    var k := |xs| - 1;
    DelayExactly(k + 2, xs[k]);
    Bases(k + 2);
    if |xs| > 3 {
      assert Waits(xs[..k]);
      TotalSleep(xs[..k]);
    } else {
      FirstThree(xs);
    }
  }

  lemma FirstThree(xs: seq<int>)
    requires Waits(xs) && |xs| == 3
    ensures 3 * 14 * SECOND < 4 * Sum(xs) < 5 * 14 * SECOND
  {
    var two, one := xs[..2], xs[..1];
    assert two[..1] == one && one[..0] == [];
    assert Sum(one) == xs[0] && Sum(two) == Sum(one) + xs[1] && Sum(xs) == Sum(two) + xs[2];
    DelayExactly(2, xs[0]);
    DelayExactly(3, xs[1]);
    DelayExactly(4, xs[2]);
    Bases(2);
    Bases(3);
    Bases(4);
  }
}
