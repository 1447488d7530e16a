/**
  The argv rewriter: short flags become long ones, then flags and positional
  arguments are told apart.
 */
module Args {
  import opened Basics

  /** valueFlags */
  predicate TakesValue(long: string) {
    long in ["platform", "output", "aria2-rpc", "aria2-secret", "concurrency",
             "max-retries", "export", "username", "password", "proxy"]
  }

  /** shortFlags */
  function Long(c: char): Option<string> {
    match c
    case 'h' => Some("help")
    case 'v' => Some("version")
    case 'p' => Some("platform")
    case 'o' => Some("output")
    case 'r' => Some("aria2-rpc")
    case 's' => Some("aria2-secret")
    case 'c' => Some("concurrency")
    case 'R' => Some("max-retries")
    case 'e' => Some("export")
    case 'u' => Some("username")
    case 'P' => Some("password")
    case 'k' => Some("insecure")
    case 'V' => Some("verify")
    case 'x' => Some("proxy")
    case _ => None
  }

  predicate Dashed(s: string) { s != "" && s[0] == '-' }

  /** strings.TrimPrefix(s, "=") */
  function DropEquals(s: string): string { if s != "" && s[0] == '=' then s[1..] else s }

  /** strings.TrimLeft(s, "-") */
  function DropDashes(s: string): string { if Dashed(s) then DropDashes(s[1..]) else s }

  // ------------------------------------------------------------- expandShortFlags

  /** A value is attached: joined by = or, for a value flag, anything at all. */
  predicate Attached(long: string, rest: string) {
    rest != "" && (rest[0] == '=' || TakesValue(long))
  }

  function ExpandBody(body: string): seq<string> {
    if body == "" then []
    else
      match Long(body[0])
      case None => ["-" + body]
      case Some(long) =>
        if Attached(long, body[1..]) then ["--" + long, DropEquals(body[1..])]
        else ["--" + long] + ExpandBody(body[1..])
  }

  /** A single dash and at least one letter. */
  predicate IsShort(a: string) { |a| >= 2 && a[0] == '-' && a[1] != '-' }

  function ExpandWord(a: string): seq<string> {
    if IsShort(a) then ExpandBody(a[1..]) else [a]
  }

  /** Everything from -- on stays as it is. */
  function Expand(args: seq<string>): seq<string> {
    if args == [] then []
    else if args[0] == "--" then args
    else ExpandWord(args[0]) + Expand(args[1..])
  }

  /** The inner loop of expandShortFlags. */
  method ExpandCluster(a: string, before: seq<string>) returns (out: seq<string>)
    requires IsShort(a)
    ensures out == before + ExpandWord(a)
  {
    out := before;
    var body := a[1..];
    while |body| > 0
      invariant out + ExpandBody(body) == before + ExpandWord(a)
      decreases |body|
    {
      var rest := body[1..];
      match Long(body[0])
      case None =>
        out := out + ["-" + body];
        return;
      case Some(long) =>
        if Attached(long, rest) {
          out := out + ["--" + long, DropEquals(rest)];
          return;
        }
        assert out + (["--" + long] + ExpandBody(rest)) == out + ["--" + long] + ExpandBody(rest);
        out := out + ["--" + long];
        body := rest;
    }
  }

  /** What the loop has produced from the first i arguments. */
  function Done(args: seq<string>, i: nat): seq<string>
    requires i <= |args|
  {
    if i == 0 then []
    else Done(args, i - 1) + if "--" in args[..i] then [args[i - 1]] else ExpandWord(args[i - 1])
  }

  /** expandShortFlags */
  method ExpandShortFlags(args: seq<string>) returns (out: seq<string>)
    ensures out == Expand(args)
  {
    out := [];
    var terminator := false;
    for i := 0 to |args|
      invariant out == Done(args, i) && terminator == ("--" in args[..i])
    {
      var a := args[i];
      assert args[..i + 1] == args[..i] + [a];
      if a == "--" { terminator := true; }
      if terminator || !IsShort(a) {
        out := out + [a];
      } else {
        out := ExpandCluster(a, out);
      }
    }
    DoneIsExpand(args);
  }

  lemma {:induction false} DoneIsExpand(args: seq<string>)
    ensures Done(args, |args|) == Expand(args)
  {
    if args != [] {
      var a, tail := args[0], args[1..];
      if a == "--" {
        DoneAfter(args, |args|);
        assert args[..|args|] == args;
      } else {
        DoneTail(args, |tail|);
        DoneIsExpand(tail);
      }
    }
  }

  lemma {:induction false} DoneAfter(args: seq<string>, i: nat)
    requires i <= |args| && args != [] && args[0] == "--"
    ensures Done(args, i) == args[..i]
  {
    if i > 0 {
      DoneAfter(args, i - 1);
      assert args[..i][0] == "--";
      assert args[..i] == args[..i - 1] + [args[i - 1]];
    }
  }

  lemma {:induction false} DoneTail(args: seq<string>, i: nat)
    requires i < |args| && args[0] != "--"
    ensures Done(args, i + 1) == ExpandWord(args[0]) + Done(args[1..], i)
  {
    hide ExpandWord;
    if i == 0 {
      assert args[..1] == [args[0]];
      assert Done(args, 0) == [];
    } else {
      DoneTail(args, i - 1);
      assert args[..i + 1] == [args[0]] + args[1..][..i];
      assert args[i] == args[1..][i - 1];
    }
  }

  // ------------------------------------------------------------- splitPositional

  datatype Parts = Parts(positional: seq<string>, rest: seq<string>)

  predicate IsFlag(a: string) { Dashed(a) && a != "-" }

  /** The argument after a value flag is its value unless it starts with a dash. */
  predicate ValueFollows(args: seq<string>) {
    |args| > 1 && TakesValue(DropDashes(args[0])) && !Dashed(args[1])
  }

  function Join(a: Parts, b: Parts): Parts { Parts(a.positional + b.positional, a.rest + b.rest) }

  /** How many arguments the first one stands for, with itself. */
  function Width(args: seq<string>): nat {
    if args != [] && IsFlag(args[0]) && ValueFollows(args) then 2 else 1
  }

  function First(args: seq<string>): Parts
    requires args != []
  {
    if IsFlag(args[0]) then Parts([], args[..Width(args)]) else Parts([args[0]], [])
  }

  function Split(args: seq<string>): Parts {
    if args == [] then Parts([], [])
    else if args[0] == "--" then Parts([], args)
    else Join(First(args), Split(args[Width(args)..]))
  }

  lemma JoinAssociates(a: Parts, b: Parts, c: Parts)
    ensures Join(Join(a, b), c) == Join(a, Join(b, c))
  {
  }

  /** One turn of splitPositional's loop, on an argument other than --. */
  method SplitOne(args: seq<string>, i: nat, before: Parts)
    returns (next: nat, positional: seq<string>, rest: seq<string>)
    requires i < |args| && args[i] != "--"
    ensures next == i + Width(args[i..]) <= |args|
    ensures Parts(positional, rest) == Join(before, First(args[i..]))
  {
    hide TakesValue, DropDashes;
    ghost var left := args[i..];
    var a := args[i];
    next, positional, rest := i, before.positional, before.rest;
    if IsFlag(a) {
      var name := DropDashes(a);
      rest := rest + [a];
      if TakesValue(name) && next + 1 < |args| && !Dashed(args[next + 1]) {
        next := next + 1;
        rest := rest + [args[next]];
        assert left[..2] == [a, args[next]];
      } else {
        assert left[..1] == [a];
      }
    } else {
      positional := positional + [a];
    }
    next := next + 1;
  }

  /** splitPositional */
  method SplitPositional(args: seq<string>) returns (positional: seq<string>, rest: seq<string>)
    ensures Parts(positional, rest) == Split(args)
  {
    hide IsFlag, First, ValueFollows;
    positional, rest := [], [];
    var i := 0;
    while i < |args|
      invariant 0 <= i <= |args|
      invariant Join(Parts(positional, rest), Split(args[i..])) == Split(args)
    {
      ghost var before := Parts(positional, rest);
      if args[i] == "--" {
        rest := rest + args[i..];
        return;
      }
      var next;
      next, positional, rest := SplitOne(args, i, Parts(positional, rest));
      assert args[next..] == args[i..][Width(args[i..])..];
      JoinAssociates(before, First(args[i..]), Split(args[next..]));
      i := next;
    }
  }

  // ------------------------------------------------- argument by argument

  /** The flags that take a value, as they may be written. */
  ghost predicate NamesValueFlag(a: string) {
    exists n: nat :: n < |a| && (forall k :: 0 <= k < n ==> a[k] == '-') && n > 0 &&
      a[n..] in {"platform", "output", "aria2-rpc", "aria2-secret", "concurrency",
                 "max-retries", "export", "username", "password", "proxy"}
  }

  /** Argument i is positional: it is no flag, and no value of the flag before it. */
  ghost predicate StandsAlone(args: seq<string>, i: nat)
    requires i < |args|
  {
    if args[i] == "" || args[i][0] != '-' then i == 0 || !NamesValueFlag(args[i - 1])
    else args[i] == "-"
  }

  /** The arguments from i to j that do, or do not, stand alone, in order. */
  ghost function Those(args: seq<string>, alone: bool, i: nat, j: nat): seq<string>
    requires i <= j <= |args|
    decreases j - i
  {
    if i == j then []
    else (if StandsAlone(args, i) == alone then [args[i]] else []) + Those(args, alone, i + 1, j)
  }

  lemma {:induction false} DropDashesExactly(a: string)
    ensures |DropDashes(a)| <= |a| && a[|a| - |DropDashes(a)|..] == DropDashes(a) && !Dashed(DropDashes(a))
    ensures forall k :: 0 <= k < |a| - |DropDashes(a)| ==> a[k] == '-'
  {
    if Dashed(a) {
      DropDashesExactly(a[1..]);
      var n := |a| - |DropDashes(a)|;
      assert a[n..] == a[1..][n - 1..];
      assert forall k :: 1 <= k < n ==> a[k] == a[1..][k - 1];
    }
  }

  lemma {:induction false} DropDashesSkips(a: string, n: nat)
    requires n < |a| && a[n] != '-' && forall k :: 0 <= k < n ==> a[k] == '-'
    ensures DropDashes(a) == a[n..]
  {
    if n > 0 {
      DropDashesSkips(a[1..], n - 1);
      assert a[1..][n - 1..] == a[n..];
    } else {
      assert a[0..] == a;
    }
  }

  lemma ValueFlags(a: string)
    ensures Dashed(a) && TakesValue(DropDashes(a)) <==> NamesValueFlag(a)
  {
    if Dashed(a) && TakesValue(DropDashes(a)) { DropDashesExactly(a); }
    if NamesValueFlag(a) {
      var n: nat :| n < |a| && (forall k :: 0 <= k < n ==> a[k] == '-') && n > 0 &&
        a[n..] in {"platform", "output", "aria2-rpc", "aria2-secret", "concurrency",
                   "max-retries", "export", "username", "password", "proxy"};
      assert a[n] == a[n..][0] && a[0] == '-';
      DropDashesSkips(a, n);
    }
  }

  /** Argument i is not the value of the flag before it. */
  ghost predicate Opens(args: seq<string>, i: nat) {
    i < |args| ==> Dashed(args[i]) || i == 0 || !NamesValueFlag(args[i - 1])
  }

  lemma FirstExactly(args: seq<string>, i: nat)
    requires i < |args| && Opens(args, i) && args[i] != "--"
    ensures StandsAlone(args, i) <==> !IsFlag(args[i])
    ensures Width(args[i..]) == 2 <==> i + 1 < |args| && NamesValueFlag(args[i]) && !Dashed(args[i + 1])
    ensures Width(args[i..]) == 2 ==> IsFlag(args[i]) && !StandsAlone(args, i + 1) && args[i + 1] != "--"
    ensures Opens(args, i + Width(args[i..]))
  {
    ValueFlags(args[i]);
    if i + 1 < |args| { ValueFlags(args[i + 1]); }
    hide TakesValue, DropDashes;
  }

  lemma Group<T>(x: T, y: T, z: seq<T>)
    ensures [x] + ([y] + z) == [x, y] + z && [] + z == z
  {
  }

  lemma ThoseStep(args: seq<string>, i: nat, e: nat)
    requires i < e <= |args|
    ensures var yes, no := Those(args, true, i + 1, e), Those(args, false, i + 1, e);
            && Those(args, true, i, e) == (if StandsAlone(args, i) then [args[i]] + yes else yes)
            && Those(args, false, i, e) == if StandsAlone(args, i) then no else [args[i]] + no
  {
    hide StandsAlone;
    Group(args[i], args[i], Those(args, true, i + 1, e));
    Group(args[i], args[i], Those(args, false, i + 1, e));
  }

  lemma SplitStep(args: seq<string>, i: nat)
    requires i < |args| && args[i] != "--"
    ensures var left := args[i..];
            && i + Width(left) <= |args|
            && Split(left) == Join(First(left), Split(args[i + Width(left)..]))
            && First(left) == if !IsFlag(args[i]) then Parts([args[i]], [])
                              else Parts([], if Width(left) == 2 then [args[i], args[i + 1]] else [args[i]])
  {
    hide IsFlag, TakesValue, DropDashes, Dashed;
    assert args[i..][Width(args[i..])..] == args[i + Width(args[i..])..];
  }

  lemma JoinOne(a: string, yes: seq<string>, no: seq<string>, end: seq<string>)
    ensures Join(Parts([a], []), Parts(yes, no + end)) == Parts([a] + yes, no + end)
    ensures Join(Parts([], [a]), Parts(yes, no + end)) == Parts(yes, ([a] + no) + end)
  {
    Assoc([a], no, end);
    Group(a, a, yes);
    Group(a, a, no + end);
  }

  lemma JoinTwo(a: string, b: string, yes: seq<string>, no: seq<string>, end: seq<string>)
    ensures Join(Parts([], [a, b]), Parts(yes, no + end)) == Parts(yes, ([a] + ([b] + no)) + end)
  {
    Group(a, b, no);
    Assoc([a, b], no, end);
    Group(a, b, yes);
  }

  /** From i on, the first -- is at e. */
  ghost predicate Until(args: seq<string>, i: nat, e: nat) {
    i <= e <= |args| && (e < |args| ==> args[e] == "--") && forall k :: i <= k < e ==> args[k] != "--"
  }

  lemma UntilNext(args: seq<string>, i: nat, e: nat)
    requires Until(args, i, e) && i < e && Opens(args, i)
    ensures i < |args| && args[i] != "--" && i + Width(args[i..]) <= e && Until(args, i + Width(args[i..]), e)
  {
    FirstExactly(args, i);
    hide IsFlag, StandsAlone, NamesValueFlag, Opens, Dashed, Width;
  }

  lemma SplitEnd(args: seq<string>, e: nat)
    requires Until(args, e, e)
    ensures Split(args[e..]) == Parts([], [] + args[e..])
  {
    assert [] + args[e..] == args[e..];
  }

  lemma {:induction false} SplitFrom(args: seq<string>, i: nat, e: nat)
    requires Until(args, i, e) && Opens(args, i)
    ensures i <= e <= |args|
    ensures Split(args[i..]) == Parts(Those(args, true, i, e), Those(args, false, i, e) + args[e..])
    decreases e - i
  {
    if i < e {
      UntilNext(args, i, e);
      FirstExactly(args, i);
      SplitStep(args, i);
      hide Width, Opens, First, Split, Those, StandsAlone, NamesValueFlag, IsFlag, Dashed, Join, Until;
      var w := Width(args[i..]);
      SplitFrom(args, i + w, e);
      ThoseStep(args, i, e);
      if w == 2 {
        ThoseStep(args, i + 1, e);
        JoinTwo(args[i], args[i + 1], Those(args, true, i + 2, e), Those(args, false, i + 2, e), args[e..]);
      } else {
        JoinOne(args[i], Those(args, true, i + 1, e), Those(args, false, i + 1, e), args[e..]);
      }
    } else {
      SplitEnd(args, e);
      hide Split;
    }
  }

  /** Which argument goes where: those before -- that are no flag and no value of the
      flag before them are the positional ones, in order; all others, and everything
      from -- on, are handed through in order. */
  lemma SplitExactly(args: seq<string>)
    ensures var e := Find(args, "--");
            && Split(args).positional == Those(args, true, 0, e)
            && Split(args).rest == Those(args, false, 0, e) + args[e..]
  {
    assert args[0..] == args;
    SplitFrom(args, 0, Find(args, "--"));
  }

  /** One sequence is a shuffle of two others, each in its own order. */
  ghost predicate Shuffle(xs: seq<string>, a: seq<string>, b: seq<string>)
    decreases |xs|
  {
    if xs == [] then a == [] && b == []
    else
      || (a != [] && a[0] == xs[0] && Shuffle(xs[1..], a[1..], b))
      || (b != [] && b[0] == xs[0] && Shuffle(xs[1..], a, b[1..]))
  }

  lemma ShuffleOne(x: string, xs: seq<string>, a: seq<string>, b: seq<string>)
    requires Shuffle(xs, a, b)
    ensures Shuffle([x] + xs, [x] + a, b) && Shuffle([x] + xs, a, [x] + b)
  {
    assert ([x] + xs)[1..] == xs && ([x] + a)[1..] == a && ([x] + b)[1..] == b;
  }

  lemma ShuffleTwo(x: string, y: string, xs: seq<string>, a: seq<string>, b: seq<string>)
    requires Shuffle(xs, a, b)
    ensures Shuffle([x, y] + xs, a, [x, y] + b)
  {
    ShuffleOne(y, xs, a, b);
    ShuffleOne(x, [y] + xs, a, [y] + b);
    hide Shuffle;
    Group(x, y, xs);
    Group(x, y, b);
  }

  lemma ShuffleFirst(args: seq<string>, w: nat, p: Parts)
    requires 1 <= w <= 2 && w <= |args| && Shuffle(args[w..], p.positional, p.rest)
    ensures w == 2 ==> Shuffle(args, p.positional, [args[0], args[1]] + p.rest)
    ensures w == 1 ==> Shuffle(args, [args[0]] + p.positional, p.rest)
    ensures w == 1 ==> Shuffle(args, p.positional, [args[0]] + p.rest)
  {
    if w == 2 {
      ShuffleTwo(args[0], args[1], args[2..], p.positional, p.rest);
      hide Shuffle;
      assert args == [args[0], args[1]] + args[2..];
    } else {
      ShuffleOne(args[0], args[1..], p.positional, p.rest);
      hide Shuffle;
      assert args == [args[0]] + args[1..];
    }
  }

  /** Nothing is lost, doubled or reordered, and no flag before -- counts as positional. */
  lemma {:induction false} SplitPartitions(args: seq<string>)
    ensures Shuffle(args, Split(args).positional, Split(args).rest)
    ensures forall a :: a in Split(args).positional ==> !IsFlag(a)
  {
    if args == [] {
    } else if args[0] == "--" {
      ShuffleAll(args);
    } else {
      SplitStep(args, 0);
      assert args[0..] == args;
      var w := Width(args);
      hide Shuffle, Split, Width, First, IsFlag;
      var p := Split(args[w..]);
      SplitPartitions(args[w..]);
      Group(args[0], args[0], p.positional);
      Group(args[0], args[0], p.rest);
      ShuffleFirst(args, w, p);
    }
  }

  lemma {:induction false} ShuffleAll(xs: seq<string>)
    ensures Shuffle(xs, [], xs)
  {
    if xs != [] { ShuffleAll(xs[1..]); }
  }

  // -------------------------------------------------------------- many spellings

  /** What the user means. Flags are named by their short letter. */
  datatype Item = Positional(text: string) | On(flag: char) | Set(flag: char, value: string)

  /** How it is spelled: a word, a long flag, a long flag and its value, or a
      cluster of boolean letters that may end in a value flag. */
  datatype Chunk = Word(text: string) | LongOn(flag: char) | LongSet(flag: char, value: string)
                 | Cluster(bools: string, last: Last)

  datatype Last = Nothing | Glued(flag: char, value: string) | Joined(flag: char, value: string)
                | Apart(flag: char, value: string)

  predicate IsBool(c: char) { Long(c).Some? && !TakesValue(Long(c).value) }

  predicate IsValue(c: char) { Long(c).Some? && TakesValue(Long(c).value) }

  predicate CleanLast(last: Last) {
    match last
    case Nothing => true
    case Glued(c, v) => IsValue(c) && v != "" && v[0] != '=' && !Dashed(v)
    case Joined(c, v) => IsValue(c) && !Dashed(v)
    case Apart(c, v) => IsValue(c) && !Dashed(v)
  }

  /** The values a spelling can carry: none starts with a dash, and a glued one
      is not empty and does not start with =. */
  predicate Clean(chunk: Chunk) {
    match chunk
    case Word(text) => !IsFlag(text)
    case LongOn(c) => IsBool(c)
    case LongSet(c, v) => IsValue(c) && !Dashed(v)
    case Cluster(bools, last) =>
      (forall c :: c in bools ==> IsBool(c)) && CleanLast(last) && (last.Nothing? ==> bools != "")
  }

  function Name(c: char): string {
    match Long(c)
    case None => ""
    case Some(long) => "--" + long
  }

  /** The text a cluster ends in, and the argument that follows it. */
  function Ending(last: Last): string {
    match last
    case Nothing => ""
    case Glued(c, v) => [c] + v
    case Joined(c, v) => [c, '='] + v
    case Apart(c, v) => [c]
  }

  function Following(last: Last): seq<string> { if last.Apart? then [last.value] else [] }

  function Words(chunk: Chunk): seq<string> {
    match chunk
    case Word(text) => [text]
    case LongOn(c) => [Name(c)]
    case LongSet(c, v) => [Name(c), v]
    case Cluster(bools, last) => ["-" + bools + Ending(last)] + Following(last)
  }

  function Ons(bools: string): seq<Item> {
    if bools == "" then [] else [On(bools[0])] + Ons(bools[1..])
  }

  function LastItem(last: Last): seq<Item> {
    if last.Nothing? then [] else [Set(last.flag, last.value)]
  }

  function Meaning(chunk: Chunk): seq<Item> {
    match chunk
    case Word(text) => [Positional(text)]
    case LongOn(c) => [On(c)]
    case LongSet(c, v) => [Set(c, v)]
    case Cluster(bools, last) => Ons(bools) + LastItem(last)
  }

  function AllWords(chunks: seq<Chunk>): seq<string> {
    if chunks == [] then [] else Words(chunks[0]) + AllWords(chunks[1..])
  }

  function AllItems(chunks: seq<Chunk>): seq<Item> {
    if chunks == [] then [] else Meaning(chunks[0]) + AllItems(chunks[1..])
  }

  /** The long spelling of one item, and of many. */
  function Plain(item: Item): seq<string> {
    match item
    case Positional(text) => [text]
    case On(c) => [Name(c)]
    case Set(c, v) => [Name(c), v]
  }

  function AllPlain(items: seq<Item>): seq<string> {
    if items == [] then [] else Plain(items[0]) + AllPlain(items[1..])
  }

  /** What main hands on: the positionals and the long flags, both in order. */
  function Sorted(items: seq<Item>): Parts {
    if items == [] then Parts([], []) else Join(Alone(items[0]), Sorted(items[1..]))
  }

  function Alone(item: Item): Parts {
    if item.Positional? then Parts(Plain(item), []) else Parts([], Plain(item))
  }

  predicate CleanItem(item: Item) {
    match item
    case Positional(text) => !IsFlag(text)
    case On(c) => IsBool(c)
    case Set(c, v) => IsValue(c) && !Dashed(v)
  }

  predicate Terminated(end: seq<string>) { end == [] || end[0] == "--" }

  lemma Letters(c: char)
    requires Long(c).Some?
    ensures Long(c).value != "" && !Dashed(Long(c).value) && c != '-' && c != '='
  {
  }

  lemma DropTwo(long: string)
    requires long != "" && !Dashed(long)
    ensures DropDashes("--" + long) == long
  {
    assert ("--" + long)[1..] == "-" + long && ("-" + long)[1..] == long;
    assert DropDashes("--" + long) == DropDashes("-" + long) == DropDashes(long);
  }

  lemma Names(c: char)
    requires Long(c).Some?
    ensures DropDashes(Name(c)) == Long(c).value
    ensures IsFlag(Name(c)) && Name(c) != "--" && !IsShort(Name(c))
  {
    Letters(c);
    hide Long, TakesValue, DropDashes;
    var long := Long(c).value;
    DropTwo(long);
    assert Name(c)[1] == '-' && Name(c)[2] == long[0];
  }

  lemma Assoc<T>(a: seq<T>, b: seq<T>, c: seq<T>)
    ensures (a + b) + c == a + (b + c)
  {
  }

  lemma PlainSet(c: char, v: string)
    ensures AllPlain([Set(c, v)]) == [Name(c), v]
  {
    assert [Set(c, v)][1..] == [] && AllPlain([]) == [];
  }

  lemma ExpandJoined(c: char, rest: string)
    requires Long(c).Some? && Attached(Long(c).value, rest)
    ensures ExpandBody([c] + rest) == [Name(c), DropEquals(rest)]
  {
    hide Long, TakesValue, Attached, DropEquals;
    assert ([c] + rest)[1..] == rest;
  }

  lemma ExpandEnding(last: Last)
    requires CleanLast(last)
    ensures ExpandBody(Ending(last)) + Following(last) == AllPlain(LastItem(last))
  {
    if !last.Nothing? {
      Letters(last.flag);
      PlainSet(last.flag, last.value);
      hide Long, TakesValue, AllPlain, Name;
      match last
      case Glued(c, v) => ExpandJoined(c, v);
      case Joined(c, v) =>
        assert [c, '='] + v == [c] + (['='] + v) && (['='] + v)[1..] == v;
        ExpandJoined(c, ['='] + v);
      case Apart(c, v) => ExpandApart(c);
    }
  }

  lemma ExpandApart(c: char)
    requires Long(c).Some?
    ensures ExpandBody([c]) == [Name(c)]
  {
    hide Long, TakesValue;
    assert [c][1..] == "" && [Name(c)] + ExpandBody("") == [Name(c)];
  }

  lemma ExpandLetter(c: char, tail: string)
    requires IsBool(c) && (tail != "" ==> tail[0] != '=')
    ensures ExpandBody([c] + tail) == [Name(c)] + ExpandBody(tail)
  {
    hide Long, TakesValue;
    assert ([c] + tail)[1..] == tail;
  }

  lemma PlainCons(item: Item, items: seq<Item>)
    ensures AllPlain([item] + items) == Plain(item) + AllPlain(items)
  {
    assert ([item] + items)[1..] == items;
  }

  lemma {:induction false} ExpandBools(bools: string, last: Last)
    requires (forall c :: c in bools ==> IsBool(c)) && CleanLast(last)
    ensures ExpandBody(bools + Ending(last)) + Following(last) == AllPlain(Ons(bools) + LastItem(last))
  {
    hide CleanLast, IsBool, Following, LastItem, ExpandBody, AllPlain, Ending;
    if bools == "" {
      ExpandEnding(last);
      assert bools + Ending(last) == Ending(last) && Ons(bools) + LastItem(last) == LastItem(last);
    } else {
      var c, b := bools[0], bools[1..];
      var tail := b + Ending(last);
      assert c in bools;
      if tail != "" { NoEquals(b, last); }
      assert bools + Ending(last) == [c] + tail;
      ExpandLetter(c, tail);
      ExpandBools(b, last);
      Assoc([Name(c)], ExpandBody(tail), Following(last));
      Assoc([On(c)], Ons(b), LastItem(last));
      PlainCons(On(c), Ons(b) + LastItem(last));
    }
  }

  lemma NoEquals(bools: string, last: Last)
    requires (forall c :: c in bools ==> IsBool(c)) && CleanLast(last) && bools + Ending(last) != ""
    ensures (bools + Ending(last))[0] !in "-="
  {
    if bools != "" {
      assert bools[0] in bools;
      Letters(bools[0]);
    } else {
      Letters(last.flag);
    }
  }

  lemma ExpandPlainWord(a: string, tail: seq<string>)
    requires !IsShort(a) && a != "--"
    ensures Expand([a] + tail) == [a] + Expand(tail)
  {
  }

  lemma ExpandLongs(c: char, v: string, tail: seq<string>)
    requires Long(c).Some? && !Dashed(v)
    ensures Expand([Name(c)] + tail) == [Name(c)] + Expand(tail)
    ensures Expand([Name(c), v] + tail) == [Name(c), v] + Expand(tail)
  {
    Names(c);
    ExpandPlainWord(Name(c), tail);
    ExpandPlainWord(Name(c), [v] + tail);
    ExpandPlainWord(v, tail);
    assert [Name(c), v] + tail == [Name(c)] + ([v] + tail);
  }

  lemma ExpandShortWord(body: string, tail: seq<string>)
    requires body != "" && body[0] != '-'
    ensures Expand(["-" + body] + tail) == ExpandBody(body) + Expand(tail)
  {
    hide ExpandBody;
    var w := "-" + body;
    assert w[1] == body[0] && w[1..] == body;
    assert ([w] + tail)[1..] == tail;
  }

  lemma ExpandClusterWord(bools: string, last: Last, tail: seq<string>)
    requires Clean(Cluster(bools, last))
    ensures Expand(Words(Cluster(bools, last)) + tail) == AllPlain(Meaning(Cluster(bools, last))) + Expand(tail)
  {
    var body := bools + Ending(last);
    assert body != "";
    assert last.Apart? ==> !Dashed(last.value);
    NoEquals(bools, last);
    ExpandBools(bools, last);
    hide Long, TakesValue, Ending, ExpandBody, Ons, IsBool, CleanLast, Expand, AllPlain;
    var more := Following(last);
    Assoc("-", bools, Ending(last));
    Assoc(["-" + body], more, tail);
    ExpandShortWord(body, more + tail);
    if last.Apart? {
      ExpandPlainWord(last.value, tail);
    } else {
      assert more + tail == tail && more + Expand(tail) == Expand(tail);
    }
    Assoc(ExpandBody(body), more, Expand(tail));
  }

  lemma ExpandChunk(chunk: Chunk, tail: seq<string>)
    requires Clean(chunk)
    ensures Expand(Words(chunk) + tail) == AllPlain(Meaning(chunk)) + Expand(tail)
  {
    match chunk
    case Word(text) =>
      ExpandPlainWord(text, tail);
      assert AllPlain([Positional(text)]) == [text];
    case LongOn(c) =>
      ExpandLongs(c, "", tail);
      assert AllPlain([On(c)]) == [Name(c)];
    case LongSet(c, v) =>
      ExpandLongs(c, v, tail);
      assert AllPlain([Set(c, v)]) == [Name(c), v];
    case Cluster(bools, last) => ExpandClusterWord(bools, last, tail);
  }

  lemma {:induction false} PlainAppend(a: seq<Item>, b: seq<Item>)
    ensures AllPlain(a + b) == AllPlain(a) + AllPlain(b)
  {
    if a == [] {
      assert a + b == b;
    } else {
      assert (a + b)[1..] == a[1..] + b;
      PlainAppend(a[1..], b);
    }
  }

  lemma {:induction false} ExpandAll(chunks: seq<Chunk>, end: seq<string>)
    requires (forall chunk :: chunk in chunks ==> Clean(chunk)) && Terminated(end)
    ensures Expand(AllWords(chunks) + end) == AllPlain(AllItems(chunks)) + end
  {
    hide Clean, Words, Meaning;
    if chunks == [] {
      assert AllWords(chunks) + end == end == AllPlain(AllItems(chunks)) + end;
    } else {
      hide Expand, AllPlain;
      var tail := AllWords(chunks[1..]) + end;
      Assoc(Words(chunks[0]), AllWords(chunks[1..]), end);
      ExpandChunk(chunks[0], tail);
      ExpandAll(chunks[1..], end);
      PlainAppend(Meaning(chunks[0]), AllItems(chunks[1..]));
      Assoc(AllPlain(Meaning(chunks[0])), AllPlain(AllItems(chunks[1..])), end);
    }
  }

  lemma {:induction false} OnsClean(bools: string)
    requires forall c :: c in bools ==> IsBool(c)
    ensures forall item :: item in Ons(bools) ==> CleanItem(item)
  {
    hide Long, TakesValue;
    if bools != "" {
      assert bools[0] in bools;
      OnsClean(bools[1..]);
    }
  }

  lemma ChunkClean(chunk: Chunk)
    requires Clean(chunk)
    ensures forall item :: item in Meaning(chunk) ==> CleanItem(item)
  {
    hide Long, TakesValue;
    if chunk.Cluster? { OnsClean(chunk.bools); }
  }

  lemma {:induction false} ItemsClean(chunks: seq<Chunk>)
    requires forall chunk :: chunk in chunks ==> Clean(chunk)
    ensures forall item :: item in AllItems(chunks) ==> CleanItem(item)
  {
    hide Clean, Meaning, CleanItem;
    if chunks != [] {
      ChunkClean(chunks[0]);
      ItemsClean(chunks[1..]);
    }
  }

  lemma SplitWord(text: string, tail: seq<string>)
    requires !IsFlag(text)
    ensures Split([text] + tail) == Join(Parts([text], []), Split(tail))
  {
    assert ([text] + tail)[1..] == tail;
  }

  lemma SplitOn(name: string, tail: seq<string>)
    requires IsFlag(name) && name != "--" && !TakesValue(DropDashes(name))
    ensures Split([name] + tail) == Join(Parts([], [name]), Split(tail))
  {
    hide TakesValue, DropDashes;
    assert ([name] + tail)[1..] == tail && ([name] + tail)[..1] == [name];
  }

  lemma SplitSet(name: string, v: string, tail: seq<string>)
    requires IsFlag(name) && name != "--" && TakesValue(DropDashes(name)) && !Dashed(v)
    ensures Split([name, v] + tail) == Join(Parts([], [name, v]), Split(tail))
  {
    hide TakesValue, DropDashes;
    var args := [name, v] + tail;
    assert args[2..] == tail && args[..2] == [name, v];
  }

  lemma SplitItem(item: Item, tail: seq<string>)
    requires CleanItem(item)
    ensures Split(Plain(item) + tail) == Join(Alone(item), Split(tail))
  {
    hide Long, TakesValue, DropDashes, IsFlag, Name, Split;
    match item
    case Positional(text) => SplitWord(text, tail);
    case On(c) =>
      Names(c);
      SplitOn(Name(c), tail);
    case Set(c, v) =>
      Names(c);
      SplitSet(Name(c), v, tail);
  }

  lemma {:induction false} SplitAll(items: seq<Item>, end: seq<string>)
    requires (forall item :: item in items ==> CleanItem(item)) && Terminated(end)
    ensures Split(AllPlain(items) + end) == Join(Sorted(items), Parts([], end))
  {
    hide CleanItem, Plain, Alone;
    if items == [] {
      assert AllPlain(items) + end == end;
      assert [] + end == end;
    } else {
      hide Split, Join;
      var tail := AllPlain(items[1..]) + end;
      Assoc(Plain(items[0]), AllPlain(items[1..]), end);
      SplitItem(items[0], tail);
      SplitAll(items[1..], end);
      JoinAssociates(Alone(items[0]), Sorted(items[1..]), Parts([], end));
    }
  }

  lemma BooleanNames()
    ensures !TakesValue("help") && !TakesValue("version") && !TakesValue("insecure") && !TakesValue("verify")
  {
    assert |"help"| == 4 && |"version"| == 7 && "insecure"[0] == 'i' && |"verify"| == 6;
    assert |"export"| == 6 && |"output"| == 6 && "verify"[0] == 'v' && "export"[0] == 'e' && "output"[0] == 'o';
    assert "username"[0] == 'u' && "password"[0] == 'p' && "platform"[0] == 'p';
  }

  /** The letters, by what they stand for. */
  lemma ShortLetters(c: char)
    ensures IsBool(c) <==> c in {'h', 'v', 'k', 'V'}
    ensures IsValue(c) <==> c in {'p', 'o', 'r', 's', 'c', 'R', 'e', 'u', 'P', 'x'}
  {
    BooleanNames();
    match c
    case 'h' | 'v' | 'k' | 'V' => hide TakesValue;
    case _ =>
  }

  lemma ShortNames()
    ensures Long('h') == Some("help") && Long('v') == Some("version") && Long('k') == Some("insecure")
    ensures Long('V') == Some("verify") && Long('p') == Some("platform") && Long('o') == Some("output")
    ensures Long('r') == Some("aria2-rpc") && Long('s') == Some("aria2-secret") && Long('c') == Some("concurrency")
    ensures Long('R') == Some("max-retries") && Long('e') == Some("export") && Long('u') == Some("username")
    ensures Long('P') == Some("password") && Long('x') == Some("proxy")
  {
  }

  lemma {:induction false} UnknownBody(bools: string, c: char, tail: string)
    requires (forall b :: b in bools ==> IsBool(b)) && Long(c).None? && c != '='
    ensures ExpandBody(bools + [c] + tail) == AllPlain(Ons(bools)) + [['-', c] + tail]
  {
    hide IsBool, Long;
    if bools == "" {
      assert bools + [c] + tail == [c] + tail;
      assert "-" + ([c] + tail) == ['-', c] + tail;
    } else {
      var b, more := bools[0], bools[1..];
      assert b in bools;
      var left := more + [c] + tail;
      if more != "" {
        assert more[0] in bools;
        BoolLetter(more[0]);
      }
      assert bools + [c] + tail == [b] + left;
      ExpandLetter(b, left);
      UnknownBody(more, c, tail);
      PlainCons(On(b), Ons(more));
      Assoc([Name(b)], AllPlain(Ons(more)), [['-', c] + tail]);
    }
  }

  lemma BoolLetter(c: char)
    requires IsBool(c)
    ensures c != '-' && c != '='
  {
    Letters(c);
  }

  /** A letter that is no flag ends the expansion of its word: what comes before it is
      expanded, and the rest is left for the flag package to refuse. */
  lemma UnknownLetter(bools: string, c: char, tail: string, args: seq<string>)
    requires (forall b :: b in bools ==> IsBool(b)) && Long(c).None? && c != '=' && (bools == "" ==> c != '-')
    ensures Expand(["-" + (bools + [c] + tail)] + args) == AllPlain(Ons(bools)) + [['-', c] + tail] + Expand(args)
  {
    if bools != "" {
      assert bools[0] in bools;
      BoolLetter(bools[0]);
    }
    UnknownBody(bools, c, tail);
    hide ExpandBody, Expand;
    assert (bools + [c] + tail)[0] == if bools == "" then c else bools[0];
    ExpandShortWord(bools + [c] + tail, args);
  }

  /** Words that do not begin with a single dash and a letter are kept, and so is
      everything from -- on. */
  lemma {:induction false} OthersKept(args: seq<string>, end: seq<string>)
    requires forall a :: a in args ==> a != "--" && (|a| < 2 || a[0] != '-' || a[1] == '-')
    requires Terminated(end)
    ensures Expand(args + end) == args + end
  {
    if args == [] {
      assert args + end == end;
    } else {
      assert args[0] in args && (args + end)[1..] == args[1..] + end;
      OthersKept(args[1..], end);
    }
  }

  /** However the flags are spelled, what comes out depends on the meaning alone;
      everything from -- on is handed through untouched. */
  lemma SpellingsAgree(chunks: seq<Chunk>, end: seq<string>)
    requires (forall chunk :: chunk in chunks ==> Clean(chunk)) && Terminated(end)
    ensures Split(Expand(AllWords(chunks) + end)) == Join(Sorted(AllItems(chunks)), Parts([], end))
  {
    ExpandAll(chunks, end);
    ItemsClean(chunks);
    SplitAll(AllItems(chunks), end);
  }

  lemma SplitWordAlone(name: string, v: string)
    requires IsFlag(name) && name != "--" && !Dashed(v)
    ensures TakesValue(DropDashes(name)) ==> Split([name, v]) == Parts([], [name, v])
    ensures !TakesValue(DropDashes(name)) ==> Split([name, v]) == Parts([v], [name])
  {
    hide TakesValue, DropDashes;
    assert Split([]) == Parts([], []);
    if TakesValue(DropDashes(name)) {
      SplitSet(name, v, []);
      Group(name, v, []);
    } else {
      SplitOn(name, [v]);
      SplitWord(v, []);
    }
    hide Split;
    assert [name, v] + [] == [name, v] && [v] + [] == [v] && [name] + [v] == [name, v];
  }

  /** A value joined by = reaches its flag exactly when the flag takes values;
      after a boolean letter it becomes a positional argument. */
  lemma JoinedExactly(c: char, v: string)
    requires Long(c).Some? && !Dashed(v)
    ensures TakesValue(Long(c).value) ==> Split(Expand([['-', c, '='] + v])) == Parts([], [Name(c), v])
    ensures !TakesValue(Long(c).value) ==> Split(Expand([['-', c, '='] + v])) == Parts([v], [Name(c)])
  {
    Letters(c);
    Names(c);
    assert (['='] + v)[1..] == v;
    ExpandJoined(c, ['='] + v);
    hide Long, TakesValue, DropDashes, ExpandBody;
    var body := [c] + (['='] + v);
    assert ['-', c, '='] + v == "-" + body;
    ExpandShortWord(body, []);
    SplitWordAlone(Name(c), v);
    hide Expand, Split, Name;
    assert ["-" + body] + [] == ["-" + body];
    assert [Name(c), v] + Expand([]) == [Name(c), v] by { assert Expand([]) == [] by { ExpandNothing(); } }
  }

  lemma ExpandNothing()
    ensures Expand([]) == []
  {
  }
}
