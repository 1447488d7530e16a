/**
  The percent-encoder of the token request and the query string it builds
  (RFC 3986, sections 2.1 and 2.3). Strings are bytes.
 */
module Query {
  import opened Basics
  import opened Storage

  const PERCENT: byte := 37
  const AMP: byte := 38
  const EQUALS: byte := 61

  predicate Unreserved(b: byte) {
    || 97 <= b <= 122 || 65 <= b <= 90 || 48 <= b <= 57   // a-z A-Z 0-9
    || b == 45 || b == 95 || b == 46 || b == 126          // - _ . ~
  }

  /** "0123456789ABCDEF"[n] */
  function HexDigit(n: int): byte
    requires 0 <= n < 16
  {
    if n < 10 then (48 + n) as byte else (55 + n) as byte
  }

  function HexValue(b: byte): Option<int> {
    if 48 <= b <= 57 then Some(b as int - 48)
    else if 65 <= b <= 70 then Some(b as int - 55)
    else None
  }

  function EscapeByte(b: byte): (r: Bytes) {
    if Unreserved(b) then [b] else [PERCENT, HexDigit(b as int / 16), HexDigit(b as int % 16)]
  }

  function Escape(s: Bytes): Bytes {
    if s == [] then [] else EscapeByte(s[0]) + Escape(s[1..])
  }

  /** Percent-decoding: unreserved bytes stand for themselves, %XX for its byte,
      and nothing else is accepted. */
  function Unescape(s: Bytes): Option<Bytes> {
    if s == [] then Some([])
    else if Unreserved(s[0]) then Prefix([s[0]], Unescape(s[1..]))
    else if s[0] == PERCENT && |s| >= 3 && HexValue(s[1]).Some? && HexValue(s[2]).Some?
    then Prefix([(HexValue(s[1]).value * 16 + HexValue(s[2]).value) as byte], Unescape(s[3..]))
    else None
  }

  function Prefix(b: Bytes, rest: Option<Bytes>): Option<Bytes> {
    if rest.Some? then Some(b + rest.value) else None
  }

  /** urlEscape. */
  method UrlEscape(s: Bytes) returns (out: Bytes)
    ensures out == Escape(s)
    ensures forall b :: b in out && b != 37 ==>
              65 <= b <= 90 || 97 <= b <= 122 || 48 <= b <= 57 || b == 45 || b == 95 || b == 46 || b == 126
  {
    out := [];
    for i := 0 to |s|
      invariant out == Escape(s[..i])
    {
      var c := s[i];
      assert s[..i + 1] == s[..i] + [c];
      EscapeAppend(s[..i], c);
      if Unreserved(c) {
        out := out + [c];
      } else {
        out := out + [PERCENT, HexDigit(c as int / 16), HexDigit(c as int % 16)];
      }
    }
    assert s[..|s|] == s;
    EscapeAlphabet(s);
  }

  lemma {:induction false} EscapeAppend(s: Bytes, b: byte)
    ensures Escape(s + [b]) == Escape(s) + EscapeByte(b)
  {
    if s == [] {
      assert [b][1..] == [];
    } else {
      assert (s + [b])[1..] == s[1..] + [b];
      EscapeAppend(s[1..], b);
    }
  }

  /** Decoding what was encoded gives back every byte string. */
  lemma {:induction false} UnescapeEscape(s: Bytes)
    ensures Unescape(Escape(s)) == Some(s)
  {
    if s != [] {
      UnescapeEscape(s[1..]);
      var e, rest := EscapeByte(s[0]), Escape(s[1..]);
      assert (e + rest)[|e|..] == rest;
      assert s == [s[0]] + s[1..];
    }
  }

  lemma EscapeInjective(s: Bytes, t: Bytes)
    requires Escape(s) == Escape(t)
    ensures s == t
  {
    UnescapeEscape(s);
    UnescapeEscape(t);
  }

  /** A-Z, a-z, 0-9 and the four marks of section 2.3 stand for themselves; any
      other byte becomes a percent sign and two digits whose value it is. */
  lemma EscapedByte(s: Bytes, b: byte)
    ensures Escape(s) <= Escape(s + [b])
    ensures var more := Escape(s + [b])[|Escape(s)|..];
            if 65 <= b <= 90 || 97 <= b <= 122 || 48 <= b <= 57 || b == 45 || b == 95 || b == 46 || b == 126
            then more == [b]
            else |more| == 3 && more[0] == 37 &&
                 b as int == 16 * (if more[1] <= 57 then more[1] as int - 48 else more[1] as int - 55) +
                             (if more[2] <= 57 then more[2] as int - 48 else more[2] as int - 55)
  {
    EscapeAppend(s, b);
  }

  /** No byte comes out but these and the percent sign, so never & or =. */
  lemma {:induction false} EscapeAlphabet(s: Bytes)
    ensures forall b :: b in Escape(s) && b != 37 ==>
              65 <= b <= 90 || 97 <= b <= 122 || 48 <= b <= 57 || b == 45 || b == 95 || b == 46 || b == 126
  {
    if s != [] { EscapeAlphabet(s[1..]); }
  }

  /** Every percent sign is followed by two of 0-9 and A-F. */
  lemma {:induction false} PercentPairs(s: Bytes, k: nat)
    requires k < |Escape(s)| && Escape(s)[k] == 37
    ensures var e := Escape(s);
            && k + 2 < |e|
            && (48 <= e[k + 1] <= 57 || 65 <= e[k + 1] <= 70) && (48 <= e[k + 2] <= 57 || 65 <= e[k + 2] <= 70)
  {
    var one := EscapeByte(s[0]);
    if k >= |one| { PercentPairs(s[1..], k - |one|); }
  }

  // ------------------------------------------------------------- whole queries

  datatype Param = Param(key: Bytes, value: Bytes)

  function Pair(p: Param): Bytes { Escape(p.key) + [EQUALS] + Escape(p.value) }

  /** Pairs joined with &, in the order given. */
  function Encode(ps: seq<Param>): Bytes {
    if ps == [] then [] else if |ps| == 1 then Pair(ps[0]) else Pair(ps[0]) + [AMP] + Encode(ps[1..])
  }

  function MapOf(ps: seq<Param>): map<Bytes, Bytes> {
    if ps == [] then map[] else MapOf(ps[1..])[ps[0].key := ps[0].value]
  }

  /** Splitting on & and =, then percent-decoding both sides. */
  function DecodePair(s: Bytes): Option<Param> {
    var eq := Find(s, EQUALS);
    if eq == |s| then None
    else
      match (Unescape(s[..eq]), Unescape(s[eq + 1..]))
      case (Some(k), Some(v)) => Some(Param(k, v))
      case _ => None
  }

  function Decode(s: Bytes): Option<seq<Param>>
    decreases |s|
  {
    if s == [] then Some([])
    else
      var amp := Find(s, AMP);
      if amp == |s| then Cons(DecodePair(s), Some([]))
      else if amp + 1 == |s| then None
      else Cons(DecodePair(s[..amp]), Decode(s[amp + 1..]))
  }

  function Cons(p: Option<Param>, rest: Option<seq<Param>>): Option<seq<Param>> {
    if p.Some? && rest.Some? then Some([p.value] + rest.value) else None
  }

  lemma PairDecodes(p: Param)
    ensures DecodePair(Pair(p)) == Some(p)
  {
    EscapeAlphabet(p.key);
    var k, v := Escape(p.key), Escape(p.value);
    assert EQUALS !in k;
    FindAfter(k, EQUALS, v);
    assert (k + [EQUALS] + v)[..|k|] == k && (k + [EQUALS] + v)[|k| + 1..] == v;
    UnescapeEscape(p.key);
    UnescapeEscape(p.value);
  }

  lemma PairAlphabet(p: Param)
    ensures AMP !in Pair(p) && Pair(p) != []
  {
    EscapeAlphabet(p.key);
    EscapeAlphabet(p.value);
  }

  /** Splitting and decoding restores the pairs in order. */
  lemma {:induction false} QueryRoundTrip(ps: seq<Param>)
    ensures Decode(Encode(ps)) == Some(ps)
  {
    hide DecodePair, Pair;
    if |ps| == 1 {
      PairDecodes(ps[0]);
      PairAlphabet(ps[0]);
      FindNowhere(Pair(ps[0]), AMP);
      assert ps == [ps[0]] + [];
    } else if |ps| > 1 {
      PairDecodes(ps[0]);
      PairAlphabet(ps[0]);
      PairAlphabet(ps[1]);
      QueryRoundTrip(ps[1..]);
      var a, rest := Pair(ps[0]), Encode(ps[1..]);
      FindAfter(a, AMP, rest);
      var s := a + [AMP] + rest;
      assert s[..|a|] == a && s[|a| + 1..] == rest;
      assert ps == [ps[0]] + ps[1..];
    }
  }

  lemma PairMarks(p: Param)
    ensures multiset(Pair(p))[61] == 1 && multiset(Pair(p))[38] == 0
  {
    EscapeAlphabet(p.key);
    EscapeAlphabet(p.value);
    var k, v := Escape(p.key), Escape(p.value);
    assert (61 as byte) !in k && (61 as byte) !in v && (38 as byte) !in k && (38 as byte) !in v;
    assert multiset(Pair(p)) == multiset(k) + multiset{61 as byte} + multiset(v);
  }

  /** In a whole query "=" occurs once per pair, after its key, and "&" between pairs,
      and nowhere else. */
  lemma {:induction false} Separators(ps: seq<Param>)
    ensures multiset(Encode(ps))[61] == |ps| && multiset(Encode(ps))[38] == if ps == [] then 0 else |ps| - 1
    ensures ps != [] ==> Escape(ps[0].key) + [61] + Escape(ps[0].value) <= Encode(ps)
  {
    if ps != [] {
      PairMarks(ps[0]);
      hide Pair;
      if |ps| > 1 {
        Separators(ps[1..]);
        var a, rest := Pair(ps[0]), Encode(ps[1..]);
        assert multiset(Encode(ps)) == multiset(a) + multiset{38 as byte} + multiset(rest);
      }
    }
  }

  /** encodeQuery visits the map in some order, which the caller does not choose. */
  method EncodeQuery(q: map<Bytes, Bytes>) returns (out: Bytes, ghost order: seq<Param>)
    ensures out == Encode(order) && MapOf(order) == q && |order| == |q|
    ensures Decode(out).Some? && MapOf(Decode(out).value) == q
  {
    out, order := [], [];
    var first, rest := true, q.Keys;
    while rest != {}
      invariant rest <= q.Keys && first == (order == [])
      invariant out == Encode(order) && |order| + |rest| == |q|
      invariant Visited(q, rest, order)
    {
      var k :| k in rest;
      out := WritePair(out, first, Param(k, q[k]), order);
      Visit(q, rest, order, k);
      first, order, rest := false, order + [Param(k, q[k])], rest - {k};
    }
    QueryRoundTrip(order);
  }

  /** One iteration of the loop: the separator unless it is the first, then key=value. */
  method WritePair(sb: Bytes, first: bool, p: Param, ghost order: seq<Param>) returns (out: Bytes)
    requires first == (order == []) && sb == Encode(order)
    ensures out == Encode(order + [p])
  {
    out := sb;
    if !first { out := out + [AMP]; }
    var key := UrlEscape(p.key);
    var value := UrlEscape(p.value);
    out := out + (key + [EQUALS] + value);
    EncodeAppend(order, p);
  }

  /** What has been written of q while the keys in rest are still to come. */
  ghost predicate Visited(q: map<Bytes, Bytes>, rest: set<Bytes>, order: seq<Param>) {
    MapOf(order) == map k | k in q && k !in rest :: q[k]
  }

  lemma Visit(q: map<Bytes, Bytes>, rest: set<Bytes>, order: seq<Param>, k: Bytes)
    requires Visited(q, rest, order) && k in rest && k in q
    ensures Visited(q, rest - {k}, order + [Param(k, q[k])])
  {
    MapAppend(order, Param(k, q[k]));
  }

  lemma {:induction false} EncodeAppend(ps: seq<Param>, p: Param)
    ensures Encode(ps + [p]) == if ps == [] then Pair(p) else Encode(ps) + [AMP] + Pair(p)
  {
    if |ps| >= 1 {
      assert (ps + [p])[1..] == ps[1..] + [p];
      EncodeAppend(ps[1..], p);
    }
  }

  lemma {:induction false} MapAppend(ps: seq<Param>, p: Param)
    requires p.key !in MapOf(ps)
    ensures MapOf(ps + [p]) == MapOf(ps)[p.key := p.value]
  {
    if ps != [] {
      assert (ps + [p])[1..] == ps[1..] + [p];
      MapAppend(ps[1..], p);
    }
  }
}
