/** Small shared vocabulary. */
module Basics {

  datatype Option<+T> = None | Some(value: T)

  datatype Result<+T, +E> = Success(value: T) | Failure(error: E)

  /** Every element of a sequence occurs once. */
  ghost predicate Distinct<T>(xs: seq<T>) {
    forall i, j :: 0 <= i < |xs| && 0 <= j < |xs| && xs[i] == xs[j] ==> i == j
  }

  /** Where an element first occurs, or the length. */
  function Find<T(==)>(s: seq<T>, x: T): (i: nat)
    ensures i <= |s| && (i < |s| ==> s[i] == x) && forall k :: 0 <= k < i ==> s[k] != x
  {
    if s == [] || s[0] == x then 0 else 1 + Find(s[1..], x)
  }

  lemma {:induction false} FindAfter<T>(a: seq<T>, x: T, rest: seq<T>)
    requires x !in a
    ensures Find(a + [x] + rest, x) == |a|
  {
    if a == [] {
      assert ([] + [x] + rest)[0] == x;
    } else {
      assert (a + [x] + rest)[1..] == a[1..] + [x] + rest;
      FindAfter(a[1..], x, rest);
    }
  }

  lemma FindNowhere<T>(a: seq<T>, x: T)
    requires x !in a
    ensures Find(a, x) == |a|
  {
  }

  function LowerChar(c: char): char {
    if 'A' <= c <= 'Z' then (c as int + 32) as char else c
  }

  /** strings.ToLower, on ASCII letters. */
  function Lower(s: string): string {
    if s == [] then [] else [LowerChar(s[0])] + Lower(s[1..])
  }

  /** Only A to Z change, each to its small letter. */
  lemma {:induction false} LowerExactly(s: string)
    ensures |Lower(s)| == |s|
    ensures forall k :: 0 <= k < |s| ==>
              Lower(s)[k] as int == if 65 <= s[k] as int <= 90 then s[k] as int + 32 else s[k] as int
  {
    if s != [] {
      LowerExactly(s[1..]);
      assert forall k :: 1 <= k < |s| ==> s[k] == s[1..][k - 1] && Lower(s)[k] == Lower(s[1..])[k - 1];
    }
  }
}
