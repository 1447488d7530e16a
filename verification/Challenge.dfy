/**
  The WWW-Authenticate parser: a scheme, then key="value" pairs with commas
  tolerated inside quoted values. Letter case is that of ASCII.
 */
module Challenge {
  import opened Basics

  datatype Challenge = Challenge(scheme: string, params: map<string, string>)

  datatype Malformed = EmptyChallenge | UnclosedQuote

  const QUOTE := 34 as char
  const BACKSLASH := 92 as char

  /** unicode.IsSpace */
  predicate Space(c: char) {
    var n := c as int;
    || n == 32 || 9 <= n <= 13 || n == 0x85 || n == 0xA0 || n == 0x1680
    || 0x2000 <= n <= 0x200A || 0x2028 <= n <= 0x2029 || n == 0x202F || n == 0x205F || n == 0x3000
  }

  function TrimLeft(s: string): string {
    if s != [] && Space(s[0]) then TrimLeft(s[1..]) else s
  }

  function TrimRight(s: string): string {
    if s != [] && Space(s[|s| - 1]) then TrimRight(s[..|s| - 1]) else s
  }

  /** strings.TrimSpace */
  function Trim(s: string): string { TrimRight(TrimLeft(s)) }

  /** strings.IndexAny(s, " \t"), or the length. */
  function FirstBlank(s: string): (i: nat)
    ensures i <= |s| && (i < |s| ==> s[i] == ' ' || s[i] == '\t')
    ensures forall k :: 0 <= k < i ==> s[k] != ' ' && s[k] != '\t'
  {
    if s == [] || s[0] == ' ' || s[0] == '\t' then 0 else 1 + FirstBlank(s[1..])
  }

  /** strings.ReplaceAll(s, `\"`, `"`) */
  function Unquote(s: string): string {
    if s == [] then []
    else if |s| >= 2 && s[0] == BACKSLASH && s[1] == QUOTE then [QUOTE] + Unquote(s[2..])
    else [s[0]] + Unquote(s[1..])
  }

  /** A position where a quoted value that began at 0 ends. */
  predicate Closes(s: string, j: int) {
    1 <= j < |s| && s[j] == QUOTE && s[j - 1] != BACKSLASH
  }

  /** One value, and what is left to scan after it and its comma. */
  datatype Piece = Piece(value: string, rest: string)

  /** The quoted value whose closing quote is at j. */
  function QuotedPiece(s: string, j: int): Piece
    requires Closes(s, j)
  {
    var after := s[j + 1..];
    Piece(Unquote(s[1..j]), if after != [] && after[0] == ',' then after[1..] else after)
  }

  function BarePiece(s: string): Piece {
    var j := Find(s, ',');
    Piece(Trim(s[..j]), if j == |s| then [] else s[j + 1..])
  }

  /** The first position from j on where the quoted value ends. */
  function Close(s: string, j: nat): (r: Option<int>)
    requires 1 <= j
    ensures r.Some? ==> j <= r.value && Closes(s, r.value) && forall k :: j <= k < r.value ==> !Closes(s, k)
    ensures r.None? ==> forall k :: j <= k ==> !Closes(s, k)
    decreases |s| - j
  {
    if j >= |s| then None else if Closes(s, j) then Some(j) else Close(s, j + 1)
  }

  function Value(s: string): (r: Option<Piece>)
    ensures r.Some? ==> |r.value.rest| <= |s|
  {
    if s != [] && s[0] == QUOTE then
      match Close(s, 1)
      case None => None
      case Some(j) => Some(QuotedPiece(s, j))
    else Some(BarePiece(s))
  }

  function Put(params: map<string, string>, key: string, value: string): map<string, string> {
    if key == "" then params else params[Lower(key) := value]
  }

  /** Scanning the rest of a challenge, pair by pair. */
  function Scan(rest: string, params: map<string, string>): Result<map<string, string>, Malformed>
    decreases |rest|
  {
    var eq := Find(rest, '=');
    if eq == |rest| then Success(params)
    else
      match Value(rest[eq + 1..])
      case None => Failure(UnclosedQuote)
      case Some(piece) => Scan(piece.rest, Put(params, Trim(rest[..eq]), piece.value))
  }

  function WithScheme(scheme: string, r: Result<map<string, string>, Malformed>): Result<Challenge, Malformed> {
    match r
    case Success(params) => Success(Challenge(scheme, params))
    case Failure(e) => Failure(e)
  }

  /** What parseChallenge returns. */
  function Parse(header: string): Result<Challenge, Malformed> {
    var v := Trim(header);
    var i := FirstBlank(v);
    if v == "" then Failure(EmptyChallenge)
    else if i == |v| then Success(Challenge(v, map[]))
    else WithScheme(v[..i], Scan(v[i + 1..], map[]))
  }

  // -------------------------------------------------------------- the parser

  /** The scan for the closing quote: its position, or at least the length. */
  method FindClose(rest: string) returns (j: nat)
    requires |rest| > 0
    ensures j < |rest| ==> Close(rest, 1) == Some(j)
    ensures j >= |rest| ==> Close(rest, 1).None?
    ensures j < |rest| ==> j >= 1 && rest[j] == '\"' && rest[j - 1] != '\\'
    ensures forall k :: 1 <= k < j && k < |rest| && rest[k] == '\"' ==> rest[k - 1] == '\\'
  {
    j := 1;
    while j < |rest|
      invariant 1 <= j <= |rest| && Close(rest, 1) == Close(rest, j)
      invariant forall k :: 1 <= k < j && rest[k] == '\"' ==> rest[k - 1] == '\\'
    {
      if rest[j] == QUOTE && rest[j - 1] != BACKSLASH { break; }
      j := j + 1;
    }
  }

  /** One turn of the loop after the key: the value and the shortened remainder. */
  method NextValue(s: string) returns (ok: bool, value: string, rest: string)
    ensures ok == Value(s).Some?
    ensures ok ==> Value(s) == Some(Piece(value, rest))
  {
    ok, value, rest := true, "", s;
    if |rest| > 0 && rest[0] == QUOTE {
      var j := FindClose(rest);
      if j >= |rest| {
        ok := false;
        return;
      }
      value := Unquote(rest[1..j]);
      rest := rest[j + 1..];
      if |rest| > 0 && rest[0] == ',' { rest := rest[1..]; }
    } else {
      var j := Find(rest, ',');
      if j == |rest| {
        value, rest := rest, "";
      } else {
        value, rest := rest[..j], rest[j + 1..];
      }
      value := Trim(value);
      assert s[..|s|] == s;
    }
  }

  /** parseChallenge */
  method ParseChallenge(header: string) returns (r: Result<Challenge, Malformed>)
    ensures r == Parse(header)
  {
    hide Trim, Value, FirstBlank, Lower, Find;
    var v := Trim(header);
    if v == "" { return Failure(EmptyChallenge); }
    var i := FirstBlank(v);
    if i == |v| { return Success(Challenge(v, map[])); }
    var scheme, params: map<string, string> := v[..i], map[];
    var rest := v[i + 1..];
    while |rest| > 0
      invariant Scan(v[i + 1..], map[]) == Scan(rest, params)
      decreases |rest|
    {
      var eq := Find(rest, '=');
      if eq == |rest| { break; }
      var key := Trim(rest[..eq]);
      var ok, value, left := NextValue(rest[eq + 1..]);
      if !ok { return Failure(UnclosedQuote); }
      rest := left;
      if key != "" { params := params[Lower(key) := value]; }
    }
    r := Success(Challenge(scheme, params));
  }

  // ------------------------------------------------- challenges as RFC 9110 writes them

  /** tchar, section 5.6.2 of RFC 9110. */
  predicate TokenChar(c: char) {
    || 'a' <= c <= 'z' || 'A' <= c <= 'Z' || '0' <= c <= '9'
    || c in "!#$%&'*+-.^_`|~"
  }

  predicate Token(s: string) { s != "" && forall c :: c in s ==> TokenChar(c) }

  predicate Blank(s: string) { forall c :: c in s ==> Space(c) }

  lemma TokenEnds(s: string)
    requires Token(s)
    ensures !Space(s[0]) && !Space(s[|s| - 1]) && s[0] != QUOTE
    ensures '=' !in s && ',' !in s && QUOTE !in s && ' ' !in s && '\t' !in s
  {
    assert s[0] in s && s[|s| - 1] in s;
  }

  /** auth-param, section 11.2: the key with optional white space around it, and its
      value as a quoted string, or as a token with optional white space around it. */
  datatype Param = Param(pad: string, key: string, gap: string, lead: string, value: string, trail: string,
                         quoted: bool)

  /** The key is a token, and so is the value unless it is quoted. */
  predicate Tidy(p: Param) {
    && Blank(p.pad) && Token(p.key) && Blank(p.gap)
    && (p.quoted || (Blank(p.lead) && Token(p.value) && Blank(p.trail)))
  }

  predicate Readable(p: Param) {
    Tidy(p) && (p.quoted ==> BACKSLASH !in p.value)
  }

  /** As Readable, but backslashes may be anywhere except at the end of a value. */
  predicate Closing(p: Param) {
    Tidy(p) && (p.quoted ==> !EndsInBackslash(p.value))
  }

  /** White space after the last value is not part of it. */
  predicate Ends(ps: seq<Param>) {
    ps != [] ==> ps[|ps| - 1].quoted || ps[|ps| - 1].trail == ""
  }

  /** White space around the whole challenge, and the character after the scheme. */
  datatype Frame = Frame(front: string, sep: char, back: string)
  {
    predicate Fits() { Blank(front) && Blank(back) && (sep == ' ' || sep == '\t') }
  }

  /** quoted-pair, section 5.6.4: quotes and backslashes get a backslash. */
  function Quote(s: string): string {
    if s == [] then []
    else if s[0] == QUOTE || s[0] == BACKSLASH then [BACKSLASH, s[0]] + Quote(s[1..])
    else [s[0]] + Quote(s[1..])
  }

  function Written(p: Param): string {
    if p.quoted then [QUOTE] + Quote(p.value) + [QUOTE] else p.lead + p.value + p.trail
  }

  function Text(p: Param): string { p.pad + p.key + p.gap + ['='] + Written(p) }

  function Tail(ps: seq<Param>): string
    decreases |ps|, 1
  {
    if ps == [] then "" else [','] + Params(ps)
  }

  function Params(ps: seq<Param>): string
    decreases |ps|, 0
  {
    if ps == [] then "" else Text(ps[0]) + Tail(ps[1..])
  }

  function Header(f: Frame, scheme: string, ps: seq<Param>): string {
    f.front + (scheme + [f.sep] + Params(ps)) + f.back
  }

  /** The parameters as a map: keys in lower case, the last of several wins. */
  function MapOf(ps: seq<Param>, params: map<string, string>): map<string, string> {
    if ps == [] then params else MapOf(ps[1..], params[Lower(ps[0].key) := ps[0].value])
  }

  // ------------------------------------------------------------- quoted values

  function Doubled(s: string): string {
    if s == [] then []
    else if s[0] == BACKSLASH then [BACKSLASH, BACKSLASH] + Doubled(s[1..])
    else [s[0]] + Doubled(s[1..])
  }

  predicate EndsInBackslash(s: string) { s != "" && s[|s| - 1] == BACKSLASH }

  /** The parser undoes escaped quotes only: backslashes stay doubled. */
  lemma {:induction false} UnquoteQuote(v: string)
    ensures Unquote(Quote(v)) == Doubled(v)
  {
    if v != [] {
      UnquoteQuote(v[1..]);
      var q := Quote(v[1..]);
      if v[0] == QUOTE || v[0] == BACKSLASH {
        assert ([BACKSLASH, v[0]] + q)[2..] == q;
        assert ([BACKSLASH, v[0]] + q)[1..] == [v[0]] + q;
      }
      assert ([v[0]] + q)[1..] == q;
    }
  }

  lemma {:induction false} DoubledExactly(v: string)
    ensures |Doubled(v)| >= |v| && (Doubled(v) == v <==> BACKSLASH !in v)
  {
    if v != [] {
      DoubledExactly(v[1..]);
      assert v == [v[0]] + v[1..];
      if v[0] != BACKSLASH { assert Doubled(v)[1..] == Doubled(v[1..]); }
    }
  }

  /** Inside a quoted string every quote follows a backslash. */
  lemma {:induction false} QuoteGuards(v: string, j: int)
    requires 0 <= j < |Quote(v)| && Quote(v)[j] == QUOTE
    ensures j > 0 && Quote(v)[j - 1] == BACKSLASH
  {
    var q := Quote(v[1..]);
    if v[0] == QUOTE || v[0] == BACKSLASH {
      if j >= 2 { QuoteGuards(v[1..], j - 2); }
    } else if j >= 1 {
      QuoteGuards(v[1..], j - 1);
    }
  }

  lemma {:induction false} QuoteEnds(v: string)
    ensures Quote(v) == "" <==> v == ""
    ensures EndsInBackslash(Quote(v)) <==> EndsInBackslash(v)
  {
    if v != [] { QuoteEnds(v[1..]); }
  }

  lemma QuotedCloses(v: string, tail: string)
    ensures var s := [QUOTE] + Quote(v) + [QUOTE] + tail;
            && (!EndsInBackslash(v) ==> Close(s, 1) == Some(|Quote(v)| + 1))
            && (EndsInBackslash(v) && QUOTE !in tail ==> Close(s, 1).None?)
  {
    var q := Quote(v);
    var s := [QUOTE] + q + [QUOTE] + tail;
    QuoteEnds(v);
    forall k | 1 <= k <= |q| ensures !Closes(s, k) {
      assert s[k] == q[k - 1];
      if q[k - 1] == QUOTE { QuoteGuards(v, k - 1); }
    }
    assert s[|q| + 1] == QUOTE;
    assert s[|q|] == if q == "" then QUOTE else q[|q| - 1];
    if EndsInBackslash(v) {
      assert forall k :: |q| + 2 <= k < |s| ==> s[k] == tail[k - |q| - 2];
    } else {
      assert Closes(s, |q| + 1);
    }
  }

  lemma QuotedValue(v: string, tail: string)
    requires !EndsInBackslash(v)
    ensures Value([QUOTE] + Quote(v) + [QUOTE] + tail)
         == Some(Piece(Doubled(v), if tail != [] && tail[0] == ',' then tail[1..] else tail))
  {
    var q := Quote(v);
    var s := [QUOTE] + q + [QUOTE] + tail;
    QuotedCloses(v, tail);
    UnquoteQuote(v);
    assert s[1..|q| + 1] == q && s[|q| + 2..] == tail;
  }

  lemma TrimPlain(s: string)
    requires s != "" ==> !Space(s[0]) && !Space(s[|s| - 1])
    ensures Trim(s) == s
  {
  }

  lemma {:induction false} TrimBefore(pad: string, s: string)
    requires Blank(pad)
    ensures Trim(pad + s) == Trim(s)
  {
    if pad == "" {
      assert pad + s == s;
    } else {
      assert pad[0] in pad && (pad + s)[1..] == pad[1..] + s;
      TrimBefore(pad[1..], s);
    }
  }

  lemma {:induction false} TrimAfter(s: string, pad: string)
    requires Blank(pad) && s != "" && !Space(s[0]) && !Space(s[|s| - 1])
    ensures Trim(s + pad) == s
  {
    if pad == "" {
      assert s + pad == s;
      TrimPlain(s);
    } else {
      var n := |pad| - 1;
      assert pad[n] in pad && (s + pad)[..|s + pad| - 1] == s + pad[..n];
      TrimAfter(s, pad[..n]);
      assert TrimLeft(s + pad) == s + pad && TrimLeft(s + pad[..n]) == s + pad[..n];
    }
  }

  lemma TrimAround(pad: string, s: string, end: string)
    requires Blank(pad) && Blank(end) && s != "" && !Space(s[0]) && !Space(s[|s| - 1])
    ensures Trim(pad + s + end) == s
  {
    assert pad + s + end == pad + (s + end);
    TrimBefore(pad, s + end);
    TrimAfter(s, end);
  }

  /** The code points that count as white space. */
  const WHITE: set<int> :=
    {9, 10, 11, 12, 13, 32, 0x85, 0xA0, 0x1680, 0x2000, 0x2001, 0x2002, 0x2003, 0x2004, 0x2005, 0x2006,
     0x2007, 0x2008, 0x2009, 0x200A, 0x2028, 0x2029, 0x202F, 0x205F, 0x3000}

  ghost predicate AllWhite(s: string) { forall c :: c in s ==> c as int in WHITE }

  lemma OneWhite(c: char)
    requires Space(c)
    ensures AllWhite([c])
  {
  }

  lemma WhiteBoth(a: string, b: string)
    requires AllWhite(a) && AllWhite(b)
    ensures AllWhite(a + b)
  {
  }

  lemma TrimLeftExactly(s: string) returns (i: nat)
    ensures i <= |s| && TrimLeft(s) == s[i..] && AllWhite(s[..i]) && (i < |s| ==> s[i] as int !in WHITE)
  {
    i := 0;
    if s != "" && Space(s[0]) {
      i := TrimLeftExactly(s[1..]);
      assert s[..i + 1] == [s[0]] + s[1..][..i] && s[1..][i..] == s[i + 1..];
      i := i + 1;
    } else {
      assert s[0..] == s;
    }
  }

  lemma TrimRightExactly(s: string) returns (j: nat)
    ensures j <= |s| && TrimRight(s) == s[..j] && AllWhite(s[j..]) && (j > 0 ==> s[j - 1] as int !in WHITE)
  {
    j := |s|;
    if s != "" && Space(s[|s| - 1]) {
      var n := |s| - 1;
      j := TrimRightExactly(s[..n]);
      hide TrimRight, AllWhite;
      assert s[j..] == s[..n][j..] + [s[n]] && s[..n][..j] == s[..j];
      assert AllWhite([s[n]]) by { OneWhite(s[n]); }
      WhiteBoth(s[..n][j..], [s[n]]);
    } else {
      assert s[..|s|] == s;
    }
  }

  /** Trimming cuts white space from both ends, all of it and nothing else. */
  lemma TrimExactly(s: string) returns (i: nat, j: nat)
    ensures i <= j <= |s| && Trim(s) == s[i..j] && AllWhite(s[..i]) && AllWhite(s[j..])
    ensures i < j ==> s[i] as int !in WHITE && s[j - 1] as int !in WHITE
    ensures i == j ==> AllWhite(s)
  {
    i := TrimLeftExactly(s);
    var k := TrimRightExactly(s[i..]);
    hide AllWhite, TrimLeft, TrimRight;
    j := i + k;
    assert s[i..][..k] == s[i..j] && s[i..][k..] == s[j..];
    if i == j {
      assert s == s[..i] + s[j..];
      WhiteBoth(s[..i], s[j..]);
    }
  }

  lemma BlankEnds(s: string)
    requires Blank(s)
    ensures '=' !in s && ',' !in s && QUOTE !in s
  {
  }

  /** A value that does not begin with its quote is the text up to the next comma,
      trimmed; so a quoted string after white space keeps its quotes. */
  lemma BareText(lead: string, v: string, trail: string, tail: string)
    requires Blank(lead) && Blank(trail) && (tail != "" ==> tail[0] == ',')
    requires v != "" && !Space(v[0]) && !Space(v[|v| - 1]) && ',' !in v && (v[0] == QUOTE ==> lead != "")
    ensures Value(lead + v + trail + tail) == Some(Piece(v, if tail == "" then "" else tail[1..]))
  {
    BlankEnds(lead);
    BlankEnds(trail);
    TrimAround(lead, v, trail);
    hide Space, Trim, Blank;
    var w := lead + v + trail;
    assert (w + tail)[0] == (if lead == "" then v else lead)[0];
    assert lead != "" ==> lead[0] in lead;
    if tail == "" {
      assert w + tail == w;
      FindNowhere(w, ',');
      assert w[..|w|] == w;
    } else {
      assert w + tail == w + [','] + tail[1..];
      FindAfter(w, ',', tail[1..]);
      assert (w + tail)[..|w|] == w && (w + tail)[|w| + 1..] == tail[1..];
    }
  }

  lemma BareValue(lead: string, v: string, trail: string, tail: string)
    requires Blank(lead) && Token(v) && Blank(trail) && (tail != "" ==> tail[0] == ',')
    ensures Value(lead + v + trail + tail) == Some(Piece(v, if tail == "" then "" else tail[1..]))
  {
    TokenEnds(v);
    BareText(lead, v, trail, tail);
  }

  /** What a parameter comes back as. */
  function Back(p: Param): Param { p.(value := if p.quoted then Doubled(p.value) else p.value) }

  function Backs(ps: seq<Param>): seq<Param> {
    if ps == [] then [] else [Back(ps[0])] + Backs(ps[1..])
  }

  lemma WrittenValue(p: Param, ps: seq<Param>)
    requires Closing(p)
    ensures Value(Written(p) + Tail(ps)) == Some(Piece(Back(p).value, Params(ps)))
  {
    var t := Tail(ps);
    assert t != "" ==> t[1..] == Params(ps);
    if p.quoted {
      QuotedValue(p.value, t);
      assert [QUOTE] + Quote(p.value) + [QUOTE] + t == Written(p) + t;
    } else {
      BareValue(p.lead, p.value, p.trail, t);
    }
  }

  // --------------------------------------------------------------- whole headers

  lemma ScanPair(p: Param, text: string, params: map<string, string>)
    requires Blank(p.pad) && Token(p.key) && Blank(p.gap)
    ensures Scan(p.pad + p.key + p.gap + ['='] + text, params)
         == match Value(text)
            case None => Failure(UnclosedQuote)
            case Some(piece) => Scan(piece.rest, params[Lower(p.key) := piece.value])
  {
    TokenEnds(p.key);
    BlankEnds(p.pad);
    BlankEnds(p.gap);
    TrimAround(p.pad, p.key, p.gap);
    hide Token, Blank, Space, Trim, Value;
    var a := p.pad + p.key + p.gap;
    FindAfter(a, '=', text);
    assert (a + ['='] + text)[..|a|] == a && (a + ['='] + text)[|a| + 1..] == text;
  }

  /** A value without a key is dropped. */
  lemma NamelessSkipped(pad: string, text: string, params: map<string, string>)
    requires Blank(pad)
    ensures Scan(pad + ['='] + text, params)
         == match Value(text)
            case None => Failure(UnclosedQuote)
            case Some(piece) => Scan(piece.rest, params)
  {
    BlankEnds(pad);
    TrimBefore(pad, "");
    assert pad + "" == pad && Trim("") == "";
    hide Blank, Space, Trim, Value;
    FindAfter(pad, '=', text);
    assert (pad + ['='] + text)[..|pad|] == pad && (pad + ['='] + text)[|pad| + 1..] == text;
  }

  /** Text without "=" after the scheme or after a comma is dropped. */
  lemma RemainderDropped(text: string, params: map<string, string>)
    requires '=' !in text
    ensures Scan(text, params) == Success(params)
  {
    FindNowhere(text, '=');
  }

  lemma EmptyTrim(s: string)
    ensures Trim(s) == "" <==> AllWhite(s)
  {
    var i, j := TrimExactly(s);
    hide Trim;
    if i < j { assert s[i] in s; }
  }

  /** Nothing but white space is no challenge, and nothing else is refused as empty. */
  lemma EmptyExactly(header: string)
    ensures Parse(header) == Failure(EmptyChallenge) <==> AllWhite(header)
  {
    EmptyTrim(header);
    hide Trim, AllWhite, FirstBlank, Scan;
    var v := Trim(header);
    if FirstBlank(v) < |v| { ScanNeverEmpty(v[FirstBlank(v) + 1..], map[]); }
  }

  lemma {:induction false} ScanNeverEmpty(rest: string, params: map<string, string>)
    ensures Scan(rest, params) != Failure(EmptyChallenge)
    decreases |rest|
  {
    var eq := Find(rest, '=');
    if eq < |rest| && Value(rest[eq + 1..]).Some? {
      var piece := Value(rest[eq + 1..]).value;
      ScanNeverEmpty(piece.rest, Put(params, Trim(rest[..eq]), piece.value));
    }
  }

  /** A scheme alone is a challenge without parameters, whatever it is made of. */
  lemma SchemeAlone(front: string, scheme: string, back: string)
    requires Blank(front) && Blank(back) && ' ' !in scheme && '\t' !in scheme
    requires scheme != "" && !Space(scheme[0]) && !Space(scheme[|scheme| - 1])
    ensures Parse(front + scheme + back) == Success(Challenge(scheme, map[]))
  {
    TrimAround(front, scheme, back);
    NoBlank(scheme, "");
    assert scheme + "" == scheme;
  }

  lemma ScanParam(p: Param, ps: seq<Param>, params: map<string, string>)
    requires Closing(p)
    ensures Scan(Params([p] + ps), params) == Scan(Params(ps), params[Lower(p.key) := Back(p).value])
  {
    assert ([p] + ps)[1..] == ps;
    var text := Written(p) + Tail(ps);
    assert Params([p] + ps) == p.pad + p.key + p.gap + ['='] + text;
    ScanPair(p, text, params);
    WrittenValue(p, ps);
  }

  lemma {:induction false} ScanParams(ps: seq<Param>, last: seq<Param>, params: map<string, string>)
    requires forall p :: p in ps ==> Closing(p)
    ensures Scan(Params(ps + last), params) == Scan(Params(last), MapOf(Backs(ps), params))
  {
    if ps == [] {
      assert ps + last == last;
    } else {
      assert ps + last == [ps[0]] + (ps[1..] + last);
      ScanParam(ps[0], ps[1..] + last, params);
      ScanParams(ps[1..], last, params[Lower(ps[0].key) := Back(ps[0]).value]);
      assert Backs(ps)[1..] == Backs(ps[1..]);
    }
  }

  lemma WrittenEnd(p: Param)
    requires Tidy(p) && Ends([p])
    ensures Written(p) != "" && !Space(Written(p)[|Written(p)| - 1])
  {
    if !p.quoted { TokenEnds(p.value); }
  }

  lemma {:induction false} ParamsEnd(ps: seq<Param>)
    requires ps != [] && (forall p :: p in ps ==> Tidy(p)) && Ends(ps)
    ensures Params(ps) != "" && !Space(Params(ps)[|Params(ps)| - 1])
  {
    assert ps[0] in ps;
    hide Written, Space, Tidy;
    if |ps| > 1 {
      ParamsEnd(ps[1..]);
    } else {
      WrittenEnd(ps[0]);
      assert Text(ps[0])[|Text(ps[0])| - 1] == Written(ps[0])[|Written(ps[0])| - 1];
    }
  }

  lemma ParseHeader(f: Frame, scheme: string, ps: seq<Param>)
    requires f.Fits() && Token(scheme) && (forall p :: p in ps ==> Tidy(p)) && Ends(ps)
    ensures Parse(Header(f, scheme, ps)) == WithScheme(scheme, Scan(Params(ps), map[]))
  {
    TokenEnds(scheme);
    if ps == [] {
      BareHeader(f, scheme);
    } else {
      ParamsEnd(ps);
      FullHeader(f, scheme, Params(ps));
    }
  }

  lemma BareHeader(f: Frame, scheme: string)
    requires f.Fits() && Token(scheme)
    ensures Parse(f.front + (scheme + [f.sep] + "") + f.back) == WithScheme(scheme, Scan("", map[]))
  {
    TokenEnds(scheme);
    var back := [f.sep] + f.back;
    assert f.front + (scheme + [f.sep] + "") + f.back == f.front + scheme + back;
    TrimAround(f.front, scheme, back);
    NoBlank(scheme, "");
    assert scheme + "" == scheme;
  }

  lemma SplitAt(a: string, c: char, b: string)
    requires a != "" && b != ""
    ensures var h := a + [c] + b;
            && h == a + ([c] + b) && |h| == |a| + 1 + |b| && h[..|a|] == a && h[|a| + 1..] == b
            && h[0] == a[0] && h[|h| - 1] == b[|b| - 1]
  {
  }

  lemma FullHeader(f: Frame, scheme: string, text: string)
    requires f.Fits() && Token(scheme) && text != "" && !Space(text[|text| - 1])
    ensures Parse(f.front + (scheme + [f.sep] + text) + f.back) == WithScheme(scheme, Scan(text, map[]))
  {
    TokenEnds(scheme);
    SplitAt(scheme, f.sep, text);
    TrimAround(f.front, scheme + [f.sep] + text, f.back);
    NoBlank(scheme, [f.sep] + text);
    ParseTrimmed(f.front + (scheme + [f.sep] + text) + f.back, scheme + [f.sep] + text);
  }

  lemma ParseTrimmed(header: string, h: string)
    requires h != "" && Trim(header) == h && FirstBlank(h) < |h|
    ensures Parse(header) == WithScheme(h[..FirstBlank(h)], Scan(h[FirstBlank(h) + 1..], map[]))
  {
  }

  lemma {:induction false} NoBlank(scheme: string, tail: string)
    requires ' ' !in scheme && '\t' !in scheme && (tail != "" ==> tail[0] == ' ' || tail[0] == '\t')
    ensures FirstBlank(scheme + tail) == |scheme|
  {
    if scheme == "" {
      assert scheme + tail == tail;
    } else {
      assert scheme[0] in scheme;
      assert (scheme + tail)[1..] == scheme[1..] + tail;
      NoBlank(scheme[1..], tail);
    }
  }

  /** Any challenge RFC 9110 can write without a quoted value that ends in a
      backslash is read: every quoted value comes back with its backslashes doubled. */
  lemma ChallengeComesBack(f: Frame, scheme: string, ps: seq<Param>)
    requires f.Fits() && Token(scheme) && (forall p :: p in ps ==> Closing(p)) && Ends(ps)
    ensures Parse(Header(f, scheme, ps)) == Success(Challenge(scheme, MapOf(Backs(ps), map[])))
  {
    ParseHeader(f, scheme, ps);
    ScanParams(ps, [], map[]);
    assert ps + [] == ps;
  }

  lemma {:induction false} ReadableBacks(ps: seq<Param>)
    requires forall p :: p in ps ==> Readable(p)
    ensures Backs(ps) == ps && forall p :: p in ps ==> Closing(p)
  {
    if ps != [] {
      var p := ps[0];
      ReadableBacks(ps[1..]);
      DoubledExactly(p.value);
      assert p in ps && (p.value != "" ==> p.value[|p.value| - 1] in p.value);
      assert Back(p) == p && Closing(p);
      assert ps == [p] + ps[1..];
    }
  }

  /** Without any backslash it is read back as it was: the scheme and the
      parameters, keys in lower case, the last of several equal keys winning. */
  lemma ChallengeRoundTrip(f: Frame, scheme: string, ps: seq<Param>)
    requires f.Fits() && Token(scheme) && (forall p :: p in ps ==> Readable(p)) && Ends(ps)
    ensures Parse(Header(f, scheme, ps)) == Success(Challenge(scheme, MapOf(ps, map[])))
  {
    ReadableBacks(ps);
    ChallengeComesBack(f, scheme, ps);
  }

  lemma {:induction false} NoQuoteAhead(ps: seq<Param>)
    requires forall p :: p in ps ==> Tidy(p) && !p.quoted
    ensures QUOTE !in Tail(ps)
  {
    if ps != [] {
      var p := ps[0];
      assert p in ps;
      TokenEnds(p.key);
      TokenEnds(p.value);
      BlankEnds(p.pad);
      BlankEnds(p.gap);
      BlankEnds(p.lead);
      BlankEnds(p.trail);
      hide TokenChar, Space;
      NoQuoteAhead(ps[1..]);
    }
  }

  lemma TextAppend(p: Param, tail: string)
    ensures Text(p) + tail == p.pad + p.key + p.gap + ['='] + (Written(p) + tail)
    ensures p.quoted ==> Written(p) + tail == [QUOTE] + Quote(p.value) + [QUOTE] + tail
  {
  }

  lemma ValueUnclosed(v: string, tail: string)
    requires EndsInBackslash(v) && QUOTE !in tail
    ensures Value([QUOTE] + Quote(v) + [QUOTE] + tail) == None
  {
    QuotedCloses(v, tail);
  }

  lemma ScanUnclosed(p: Param, rest: seq<Param>, params: map<string, string>)
    requires Tidy(p) && p.quoted && EndsInBackslash(p.value) && QUOTE !in Tail(rest)
    ensures Scan(Params([p] + rest), params) == Failure(UnclosedQuote)
  {
    assert ([p] + rest)[1..] == rest;
    TextAppend(p, Tail(rest));
    ValueUnclosed(p.value, Tail(rest));
    hide Token, Blank, Quote, Tail, Text, Written, Value, Scan, EndsInBackslash;
    ScanPair(p, Written(p) + Tail(rest), params);
  }

  /** A quoted value that ends in a backslash misses its closing quote: with no
      other quote ahead, the challenge is malformed. */
  lemma EndingBackslash(f: Frame, scheme: string, ps: seq<Param>, p: Param, rest: seq<Param>)
    requires f.Fits() && Token(scheme) && forall q :: q in ps ==> Closing(q)
    requires Tidy(p) && p.quoted && EndsInBackslash(p.value)
    requires (forall q :: q in rest ==> Tidy(q) && !q.quoted) && Ends([p] + rest)
    ensures Parse(Header(f, scheme, ps + ([p] + rest))) == Failure(UnclosedQuote)
  {
    ParseHeader(f, scheme, ps + ([p] + rest));
    ScanParams(ps, [p] + rest, map[]);
    NoQuoteAhead(rest);
    ScanUnclosed(p, rest, MapOf(Backs(ps), map[]));
  }

  // ------------------------------------------------------------ which values survive

  /** The parameter whose value a key gets: the last one with this key, or -1. */
  function Winner(ps: seq<Param>, key: string): (j: int)
    ensures -1 <= j < |ps| && (j >= 0 ==> Lower(ps[j].key) == key)
  {
    if ps == [] then -1
    else if Lower(ps[|ps| - 1].key) == key then |ps| - 1
    else Winner(ps[..|ps| - 1], key)
  }

  lemma {:induction false} MapOfWinner(ps: seq<Param>, key: string)
    ensures var m, j := MapOf(ps, map[]), Winner(ps, key);
            (key in m <==> j >= 0) && (j >= 0 ==> m[key] == ps[j].value)
  {
    if ps != [] {
      var front, p := ps[..|ps| - 1], ps[|ps| - 1];
      assert ps == front + [p];
      MapOfAppend(front, p, map[]);
      MapOfWinner(front, key);
    }
  }

  lemma {:induction false} BacksAt(ps: seq<Param>, j: nat)
    requires j < |ps|
    ensures |Backs(ps)| == |ps| && Backs(ps)[j] == Back(ps[j])
  {
    if j > 0 {
      BacksAt(ps[1..], j - 1);
    } else if |ps| > 1 {
      BacksAt(ps[1..], 0);
    }
  }

  lemma {:induction false} BacksAppend(ps: seq<Param>, p: Param)
    ensures Backs(ps + [p]) == Backs(ps) + [Back(p)]
  {
    if ps == [] {
      assert [] + [p] == [p];
    } else {
      assert (ps + [p])[1..] == ps[1..] + [p];
      BacksAppend(ps[1..], p);
    }
  }

  lemma {:induction false} BacksWinner(ps: seq<Param>, key: string)
    ensures Winner(Backs(ps), key) == Winner(ps, key)
  {
    if ps != [] {
      var front, p := ps[..|ps| - 1], ps[|ps| - 1];
      assert ps == front + [p];
      BacksAppend(front, p);
      BacksWinner(front, key);
      BacksAt(ps, 0);
      assert Backs(ps)[..|ps| - 1] == Backs(front);
    }
  }

  /** The values that count hold no backslash where they are quoted. */
  predicate WinnersPlain(ps: seq<Param>) {
    forall j :: 0 <= j < |ps| && Winner(ps, Lower(ps[j].key)) == j && ps[j].quoted ==> BACKSLASH !in ps[j].value
  }

  lemma KeySurvives(ps: seq<Param>, key: string)
    ensures var m, m', j := MapOf(ps, map[]), MapOf(Backs(ps), map[]), Winner(ps, key);
            && (key in m <==> key in m') && (key in m <==> j >= 0)
            && (j >= 0 ==> (m[key] == m'[key] <==> (ps[j].quoted ==> BACKSLASH !in ps[j].value)))
  {
    MapOfWinner(ps, key);
    MapOfWinner(Backs(ps), key);
    BacksWinner(ps, key);
    var j := Winner(ps, key);
    if j >= 0 {
      BacksAt(ps, j);
      DoubledExactly(ps[j].value);
    }
  }

  /** Exactly the challenges come back whose winning quoted values hold no backslash. */
  lemma RoundTripExactly(f: Frame, scheme: string, ps: seq<Param>)
    requires f.Fits() && Token(scheme) && (forall p :: p in ps ==> Closing(p)) && Ends(ps)
    ensures Parse(Header(f, scheme, ps)) == Success(Challenge(scheme, MapOf(ps, map[]))) <==> WinnersPlain(ps)
  {
    ChallengeComesBack(f, scheme, ps);
    var m, m' := MapOf(ps, map[]), MapOf(Backs(ps), map[]);
    if WinnersPlain(ps) {
      forall key | key in m || key in m' ensures key in m && key in m' && m[key] == m'[key] {
        KeySurvives(ps, key);
      }
      assert m == m';
    } else {
      var j :| 0 <= j < |ps| && Winner(ps, Lower(ps[j].key)) == j && ps[j].quoted && BACKSLASH in ps[j].value;
      KeySurvives(ps, Lower(ps[j].key));
    }
  }

  lemma {:induction false} MapOfAppend(ps: seq<Param>, p: Param, params: map<string, string>)
    ensures MapOf(ps + [p], params) == MapOf(ps, params)[Lower(p.key) := p.value]
  {
    if ps == [] {
      assert [] + [p] == [p];
    } else {
      assert (ps + [p])[1..] == ps[1..] + [p];
      MapOfAppend(ps[1..], p, params[Lower(ps[0].key) := ps[0].value]);
    }
  }
}
