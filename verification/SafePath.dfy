/** Path normalisation for user- and agent-supplied names, and the containment check behind it. POSIX separators, no
    symbolic links. */
module SafePath {
  import opened Wrappers
  import opened Text

  const FALLBACK := "untitled.txt"

  // ---------- splitting and joining at '/' ----------

  function Split(s: string): (r: seq<string>)
    ensures r != []
  {
    if s == "" then [""] else Grow(Split(s[..|s| - 1]), s[|s| - 1])
  }

  /** The components of `s` with `c` appended, from those of `s`. */
  function Grow(parts: seq<string>, c: char): (r: seq<string>)
    requires parts != []
    ensures r != []
  {
    if c == '/' then parts + [""] else parts[..|parts| - 1] + [parts[|parts| - 1] + [c]]
  }

  function Join(parts: seq<string>): string {
    if parts == [] then "" else if |parts| == 1 then parts[0] else Join(parts[..|parts| - 1]) + "/" + parts[|parts| - 1]
  }

  predicate NoSlash(s: string) {
    '/' !in s
  }

  /** A component that names something: not empty, not `.`, not `..`. */
  predicate Names(s: string) {
    s != "" && s != "." && s != ".." && NoSlash(s)
  }

  ghost predicate AllName(parts: seq<string>) {
    forall i :: 0 <= i < |parts| ==> Names(parts[i])
  }

  lemma SplitEmpty()
    ensures Split("") == [""] && Join([""]) == ""
  {}

  lemma GrowOne(s: string, c: char)
    requires c != '/'
    ensures Grow([s], c) == [s + [c]]
  {}

  lemma JoinGrow(parts: seq<string>, c: char)
    requires parts != []
    ensures Join(Grow(parts, c)) == Join(parts) + [c]
  {
    var grown, front := Grow(parts, c), parts[..|parts| - 1];
    if c == '/' {
      assert grown[..|parts|] == parts;
    } else {
      assert grown[..|grown| - 1] == front;
    }
  }

  lemma {:induction false} JoinOfSplit(s: string)
    ensures Join(Split(s)) == s
  {
    hide Split, Join, Grow;
    SplitEmpty();
    if s != "" {
      var front, c := s[..|s| - 1], s[|s| - 1];
      JoinOfSplit(front);
      JoinGrow(Split(front), c);
      SplitPush(front, c);
      assert s == front + [c];
    }
  }

  lemma GrowConcat(a: seq<string>, b: seq<string>, c: char)
    requires b != []
    ensures Grow(a + b, c) == a + Grow(b, c)
  {}

  lemma SplitPush(s: string, c: char)
    ensures Split(s + [c]) == Grow(Split(s), c)
  {
    assert (s + [c])[..|s|] == s;
  }

  lemma SplitPushBoth(s: string, parts: seq<string>, y: string, c: char)
    requires Split(s) == parts + Split(y)
    ensures Split(s + [c]) == parts + Split(y + [c])
  {
    SplitPush(s, c);
    SplitPush(y, c);
    GrowConcat(parts, Split(y), c);
  }

  lemma SplitSlash(x: string)
    ensures Split(x + ['/'] + "") == Split(x) + Split("")
  {
    SplitPush(x, '/');
    assert x + ['/'] + "" == x + ['/'];
  }

  lemma {:induction false} SplitConcat(x: string, y: string)
    ensures Split(x + ['/'] + y) == Split(x) + Split(y)
  {
    hide Split, Grow;
    if y == "" {
      SplitSlash(x);
    } else {
      var front, c := y[..|y| - 1], y[|y| - 1];
      SplitConcat(x, front);
      SplitPushBoth(x + ['/'] + front, Split(x), front, c);
      assert y == front + [c];
      assert x + ['/'] + y == (x + ['/'] + front) + [c];
    }
  }

  lemma {:induction false} SplitWhole(s: string)
    requires NoSlash(s)
    ensures Split(s) == [s]
  {
    hide Split, Grow;
    SplitEmpty();
    if s != "" {
      var front, c := s[..|s| - 1], s[|s| - 1];
      assert c in s;
      SplitWhole(front);
      SplitPush(front, c);
      GrowOne(front, c);
      assert s == front + [c];
    }
  }

  lemma {:induction false} SplitOfJoin(parts: seq<string>)
    requires parts != [] && forall i :: 0 <= i < |parts| ==> NoSlash(parts[i])
    ensures Split(Join(parts)) == parts
  {
    var front, last := parts[..|parts| - 1], parts[|parts| - 1];
    SplitWhole(last);
    if front != [] {
      SplitOfJoin(front);
      SplitConcat(Join(front), last);
    }
  }

  lemma {:induction false} SplitNoSlash(s: string)
    ensures forall i :: 0 <= i < |Split(s)| ==> NoSlash(Split(s)[i])
  {
    hide Split;
    SplitEmpty();
    if s != "" {
      var front, c := s[..|s| - 1], s[|s| - 1];
      SplitNoSlash(front);
      SplitPush(front, c);
      assert s == front + [c];
    }
  }

  lemma {:induction false} JoinConcat(a: seq<string>, b: seq<string>)
    requires a != [] && b != []
    ensures Join(a + b) == Join(a) + "/" + Join(b)
  {
    assert (a + b)[..|a + b| - 1] == a + b[..|b| - 1];
    if |b| > 1 { JoinConcat(a, b[..|b| - 1]); }
  }

  // ---------- walking ----------

  /** Where the components lead from `at`: `.` and empty stay, `..` goes up but never above the base. */
  function Walk(at: seq<string>, parts: seq<string>): seq<string> {
    if parts == [] then at else Move(Walk(at, parts[..|parts| - 1]), parts[|parts| - 1])
  }

  function Move(here: seq<string>, c: string): seq<string> {
    if c == "" || c == "." then here
    else if c != ".." then here + [c]
    else if here != [] then here[..|here| - 1]
    else here
  }

  /** The same place found from the right, without a stack: each `..` cancels the nearest uncancelled name before it. */
  function Surviving(parts: seq<string>, ups: nat): seq<string> {
    if parts == [] then []
    else
      var front, c := parts[..|parts| - 1], parts[|parts| - 1];
      if c == "" || c == "." then Surviving(front, ups)
      else if c == ".." then Surviving(front, ups + 1)
      else if ups > 0 then Surviving(front, ups - 1)
      else Surviving(front, 0) + [c]
  }

  function DropLast(s: seq<string>, n: nat): seq<string> {
    if n <= |s| then s[..|s| - n] else []
  }

  lemma {:induction false} WalkSurvives(parts: seq<string>, ups: nat)
    ensures Surviving(parts, ups) == DropLast(Walk([], parts), ups)
  {
    if parts != [] {
      var front, c := parts[..|parts| - 1], parts[|parts| - 1];
      if c == "" || c == "." {
        WalkSurvives(front, ups);
      } else if c == ".." {
        WalkSurvives(front, ups + 1);
      } else if ups > 0 {
        WalkSurvives(front, ups - 1);
      } else {
        WalkSurvives(front, 0);
      }
    }
  }

  lemma {:induction false} WalkConcat(at: seq<string>, a: seq<string>, b: seq<string>)
    ensures Walk(at, a + b) == Walk(Walk(at, a), b)
  {
    if b == [] {
      assert a + b == a;
    } else {
      assert (a + b)[..|a + b| - 1] == a + b[..|b| - 1];
      WalkConcat(at, a, b[..|b| - 1]);
    }
  }

  lemma {:induction false} WalkNames(at: seq<string>, parts: seq<string>)
    requires AllName(at) && forall i :: 0 <= i < |parts| ==> NoSlash(parts[i])
    ensures AllName(Walk(at, parts))
  {
    if parts != [] { WalkNames(at, parts[..|parts| - 1]); }
  }

  /** Names alone lead straight down. */
  lemma {:induction false} WalkDown(at: seq<string>, parts: seq<string>)
    requires AllName(parts)
    ensures Walk(at, parts) == at + parts
  {
    if parts != [] { WalkDown(at, parts[..|parts| - 1]); }
  }

  lemma JoinPush(parts: seq<string>, c: string)
    ensures |Join(parts + [c])| == if parts == [] then |c| else |Join(parts)| + 1 + |c|
    ensures parts == [] ==> Join(parts) == ""
  {
    assert (parts + [c])[..|parts|] == parts;
  }

  lemma {:induction false} WalkShorter(parts: seq<string>)
    ensures |Join(Walk([], parts))| <= |Join(parts)|
    ensures |Walk([], parts)| <= |parts|
  {
    hide Join, Move;
    if parts != [] {
      var front, c := parts[..|parts| - 1], parts[|parts| - 1];
      WalkShorter(front);
      MoveShorter(Walk([], front), front, c);
      assert parts == front + [c];
    }
  }

  lemma MoveShorter(here: seq<string>, front: seq<string>, c: string)
    requires |Join(here)| <= |Join(front)| && |here| <= |front|
    ensures |Join(Move(here, c))| <= |Join(front + [c])| && |Move(here, c)| <= |front| + 1
  {
    hide Join;
    JoinPush(front, c);
    JoinPush(here, c);
    if here != [] {
      JoinPush(here[..|here| - 1], here[|here| - 1]);
      assert here == here[..|here| - 1] + [here[|here| - 1]];
    }
  }

  // ---------- normpath ----------

  /** Two leading slashes are kept as two, any other number as one. */
  function Lead(path: string): string
    requires path != "" && path[0] == '/'
  {
    if |path| >= 2 && path[1] == '/' && !(|path| >= 3 && path[2] == '/') then "//" else "/"
  }

  function Slashes(path: string): nat {
    if path != "" && path[0] == '/' then 1 + Slashes(path[1..]) else 0
  }

  lemma LeadIff(path: string)
    requires path != "" && path[0] == '/'
    ensures Lead(path) == if Slashes(path) == 2 then "//" else "/"
  {
    assert Slashes(path) == 1 + Slashes(path[1..]);
    if |path| >= 2 && path[1] == '/' {
      assert Slashes(path[1..]) == 1 + Slashes(path[1..][1..]);
      assert path[1..][1..] == path[2..];
    }
  }

  /** `os.path.normpath` of an absolute path. */
  method NormPath(path: string) returns (r: string)
    requires path != "" && path[0] == '/'
    ensures r == Lead(path) + Join(Walk([], Split(path)))
  {
    var comps := Split(path);
    var stack: seq<string> := [];
    var i := 0;
    while i < |comps|
      invariant 0 <= i <= |comps|
      invariant stack == Walk([], comps[..i])
    {
      assert comps[..i + 1][..i] == comps[..i];
      var comp := comps[i];
      if comp == "" || comp == "." {
      } else if comp != ".." {
        stack := stack + [comp];
      } else if stack != [] {
        stack := stack[..|stack| - 1];
      }
      i := i + 1;
    }
    assert comps[..i] == comps;
    r := Lead(path) + Join(stack);
  }

  // ---------- safe_relative_path ----------

  function Slashed(s: string): (r: string)
    ensures |r| == |s|
  {
    seq(|s|, i requires 0 <= i < |s| => if s[i] == '\\' then '/' else s[i])
  }

  /** The names the cleaned input leads to. */
  function Place(name: string): seq<string> {
    Walk([], Split(Strip(Slashed(name))))
  }

  function SafeRelative(name: string): string {
    if Place(name) == [] then FALLBACK else Join(Place(name))
  }

  lemma PlaceNames(name: string)
    ensures AllName(Place(name))
  {
    SplitNoSlash(Strip(Slashed(name)));
    WalkNames([], Split(Strip(Slashed(name))));
  }

  lemma {:induction false} JoinStart(parts: seq<string>)
    requires AllName(parts)
    ensures parts != [] ==> Join(parts) != "" && Join(parts)[0] != '/'
  {
    if |parts| > 1 { JoinStart(parts[..|parts| - 1]); }
    if |parts| == 1 { assert parts[0][0] in parts[0]; }
  }

  /** `lstrip("/")`. */
  function WithoutLead(s: string): string {
    if s != "" && s[0] == '/' then WithoutLead(s[1..]) else s
  }

  lemma WithoutLeadOf(lead: string, rest: string)
    requires lead == "/" || lead == "//"
    requires rest == "" || rest[0] != '/'
    ensures WithoutLead(lead + rest) == rest
  {
    assert (lead + rest)[1..] == lead[1..] + rest;
    assert "/" + rest == lead[1..] + rest || lead[1..] + rest == rest;
    assert ("/" + rest)[1..] == rest;
  }

  lemma AnchoredPlace(candidate: string)
    ensures Walk([], Split("/" + candidate)) == Walk([], Split(candidate))
  {
    SplitConcat("", candidate);
    assert "" + ['/'] + candidate == "/" + candidate;
    WalkConcat([], [""], Split(candidate));
    assert [""][..0] == [];
  }

  method SafeRelativePath(name: string) returns (r: string)
    ensures r == SafeRelative(name)
  {
    var candidate := Strip(Slashed(name));
    var normalized := NormPath("/" + candidate);
    AnchoredPlace(candidate);
    PlaceNames(name);
    JoinStart(Place(name));
    WithoutLeadOf(Lead("/" + candidate), Join(Place(name)));
    normalized := WithoutLead(normalized);
    r := if normalized == "" then FALLBACK else normalized;
  }

  lemma SafeSplits(name: string)
    ensures Split(SafeRelative(name)) == if Place(name) == [] then [FALLBACK] else Place(name)
    ensures AllName(Split(SafeRelative(name)))
  {
    PlaceNames(name);
    SplitWhole(FALLBACK);
    if Place(name) != [] { SplitOfJoin(Place(name)); }
  }

  /** For every input: a non-empty relative path without empty, `.` or `..` components, naming the place the input
      leads to with `..` stopping at the base, or the fallback if that is the base itself. */
  lemma NormalForm(name: string)
    ensures var r, place := SafeRelative(name), Surviving(Split(Strip(Slashed(name))), 0);
        && r != "" && r[0] != '/'
        && AllName(Split(r))
        && Split(r) == if place == [] then [FALLBACK] else place
  {
    SafeSplits(name);
    WalkSurvives(Split(Strip(Slashed(name))), 0);
    PlaceNames(name);
    JoinStart(Place(name));
  }

  predicate Avoids(s: string, c: char) {
    c !in s
  }

  lemma {:induction false} SplitAvoids(s: string, c: char)
    requires Avoids(s, c)
    ensures forall i :: 0 <= i < |Split(s)| ==> Avoids(Split(s)[i], c)
  {
    if s != "" {
      SplitAvoids(s[..|s| - 1], c);
      assert s[|s| - 1] in s;
    }
  }

  lemma {:induction false} WalkAvoids(parts: seq<string>, c: char)
    requires forall i :: 0 <= i < |parts| ==> Avoids(parts[i], c)
    ensures forall i :: 0 <= i < |Walk([], parts)| ==> Avoids(Walk([], parts)[i], c)
  {
    if parts != [] { WalkAvoids(parts[..|parts| - 1], c); }
  }

  lemma {:induction false} JoinAvoids(parts: seq<string>, c: char)
    requires c != '/' && forall i :: 0 <= i < |parts| ==> Avoids(parts[i], c)
    ensures Avoids(Join(parts), c)
  {
    if |parts| > 1 { JoinAvoids(parts[..|parts| - 1], c); }
  }

  lemma ResultHasNoBackslash(name: string)
    ensures Slashed(SafeRelative(name)) == SafeRelative(name)
  {
    var clean := Strip(Slashed(name));
    StripIsPiece(Slashed(name));
    SplitAvoids(clean, '\\');
    WalkAvoids(Split(clean), '\\');
    JoinAvoids(Place(name), '\\');
    var r := SafeRelative(name);
    assert forall i :: 0 <= i < |r| ==> r[i] in r;
  }

  /** A backslash separates like a slash, wherever it stands. */
  lemma BackslashIsSlash(a: string, b: string)
    ensures SafeRelative(a + ['\\'] + b) == SafeRelative(a + ['/'] + b)
  {
    assert Slashed(a + ['\\'] + b) == Slashed(a + ['/'] + b);
  }

  /** Without backslashes and white space at its ends, a name leads where its own components lead. */
  lemma PlainName(name: string)
    requires Avoids(name, '\\') && (name == "" || (!IsSpace(name[0]) && !IsSpace(name[|name| - 1])))
    ensures var place := Surviving(Split(name), 0);
        SafeRelative(name) == if place == [] then FALLBACK else Join(place)
  {
    hide Split, Join, Strip, Walk, Surviving;
    PlainSlashed(name);
    UnstrippedPlace(name);
    SurvivingIsPlace(Split(name));
  }

  lemma UnstrippedPlace(name: string)
    requires Slashed(name) == name && (name == "" || (!IsSpace(name[0]) && !IsSpace(name[|name| - 1])))
    ensures Place(name) == Walk([], Split(name))
  {
    hide Split, Walk, Strip;
    StripUnchanged(name);
  }

  lemma SurvivingIsPlace(parts: seq<string>)
    ensures Surviving(parts, 0) == Walk([], parts)
  {
    WalkSurvives(parts, 0);
  }

  lemma PlainSlashed(name: string)
    requires Avoids(name, '\\')
    ensures Slashed(name) == name
  {
    assert forall i :: 0 <= i < |name| ==> name[i] in name;
  }

  /** White space around a name makes no difference. */
  lemma OuterSpaceIgnored(l: string, name: string, r: string)
    requires IsBlank(l) && IsBlank(r)
    ensures SafeRelative(l + name + r) == SafeRelative(name)
  {
    assert Slashed(l) == l && Slashed(r) == r;
    assert Slashed(l + name + r) == l + Slashed(name) + r;
    StripAround(l, Slashed(name), r);
  }

  lemma StrippedIsFixed(name: string)
    requires Strip(SafeRelative(name)) == SafeRelative(name)
    ensures SafeRelative(SafeRelative(name)) == SafeRelative(name)
  {
    var r := SafeRelative(name);
    ResultHasNoBackslash(name);
    SafeSplits(name);
    WalkDown([], Split(r));
    assert [] + Split(r) == Split(r);
    JoinOfSplit(r);
  }

  lemma NeverLonger(name: string)
    ensures SafeRelative(name) == FALLBACK || |SafeRelative(name)| <= |Strip(Slashed(name))|
  {
    WalkShorter(Split(Strip(Slashed(name))));
    JoinOfSplit(Strip(Slashed(name)));
  }

  /** A second pass changes nothing exactly when the first result has no white space at its ends: the code strips
      before it splits, so a component may keep some. */
  lemma IdempotentIffStripped(name: string)
    ensures var r := SafeRelative(name); SafeRelative(r) == r <==> Strip(r) == r
  {
    var r := SafeRelative(name);
    if Strip(r) == r {
      StrippedIsFixed(name);
    } else {
      ResultHasNoBackslash(name);
      NeverLonger(r);
      StripUnchanged(r);
      StripUnchanged(FALLBACK);
    }
  }

  lemma AnchoredName(n: string)
    requires Names(n) && Avoids(n, '\\') && !IsSpace(n[|n| - 1])
    ensures SafeRelative("/" + n) == n
  {
    hide Split, Strip, NoSlash;
    var name := "/" + n;
    assert Slashed(name) == name;
    StripUnchanged(name);
    AnchoredPlace(n);
    SplitWhole(n);
    assert [n][..0] == [];
    assert Walk([], [n]) == [n];
  }

  /** Every name with a space at its front and none at its end can come out once, and does not survive a second pass. */
  lemma SecondPassCanDiffer(n: string)
    requires Names(n) && Avoids(n, '\\') && IsSpace(n[0]) && !IsSpace(n[|n| - 1])
    ensures SafeRelative("/" + n) == n && SafeRelative(n) != n
  {
    hide SafeRelative, Strip;
    AnchoredName(n);
    StripUnchanged(n);
    IdempotentIffStripped("/" + n);
  }

  // ---------- confine_to_dir ----------

  /** `os.path.join`. */
  function Under(dir: string, relative: string): string {
    if relative != "" && relative[0] == '/' then relative
    else if dir == "" || dir[|dir| - 1] == '/' then dir + relative
    else dir + "/" + relative
  }

  /** `os.path.realpath` of an absolute path when no component is a link: always one leading slash. */
  function Real(path: string): string {
    "/" + Join(Walk([], Split(path)))
  }

  /** Where `relative` leads from the directory with these names. */
  function Target(dir: seq<string>, relative: string): seq<string> {
    Walk(if relative != "" && relative[0] == '/' then [] else dir, Split(relative))
  }

  /** The names of the base directory: an absolute one stands for itself, any other is taken from the working
      directory. */
  function Base(cwd: string, baseDir: string): seq<string> {
    Walk([], Split(Under(cwd, baseDir)))
  }

  /** A relative base lies where walking from the working directory leads. */
  lemma RelativeBase(dir: seq<string>, baseDir: string)
    requires AllName(dir) && dir != [] && (baseDir == "" || baseDir[0] != '/')
    ensures Base("/" + Join(dir), baseDir) == Walk(dir, Split(baseDir))
  {
    JoinEnd(dir);
    UnderDir("/" + Join(dir), baseDir);
    BelowBase(dir, baseDir);
  }

  /** `confine_to_dir`: the text of the target must be the base's or start with the base's and a separator. */
  method ConfineToDir(cwd: string, baseDir: string, relative: string) returns (r: Option<string>)
    ensures r.Some? <==> Inside(Base(cwd, baseDir), Target(Base(cwd, baseDir), relative))
    ensures r.Some? ==> r.value == "/" + Join(Target(Base(cwd, baseDir), relative))
  {
    var baseReal := Real(Under(cwd, baseDir));
    var target := Real(Under(baseReal, relative));
    ghost var dir := Base(cwd, baseDir);
    SplitNoSlash(Under(cwd, baseDir));
    WalkNames([], Split(Under(cwd, baseDir)));
    TargetText(dir, relative);
    SplitNoSlash(relative);
    WalkNames(if relative != "" && relative[0] == '/' then [] else dir, Split(relative));
    InsideText(dir, Target(dir, relative));
    r := if target != baseReal && !(baseReal + "/" <= target) then None else Some(target);
  }

  /** Accepted places, by names: the base itself, or anything below a base other than the root. */
  predicate Inside(dir: seq<string>, place: seq<string>) {
    place == dir || (dir != [] && dir <= place)
  }

  lemma TargetText(dir: seq<string>, relative: string)
    requires AllName(dir)
    ensures Real(Under("/" + Join(dir), relative)) == "/" + Join(Target(dir, relative))
  {
    if relative == "" || relative[0] != '/' {
      if dir == [] {
        assert "/" + Join(dir) == "/";
        AnchoredPlace(relative);
      } else {
        JoinEnd(dir);
        UnderDir("/" + Join(dir), relative);
        BelowBase(dir, relative);
      }
    }
  }

  lemma UnderDir(base: string, relative: string)
    requires base != "" && base[|base| - 1] != '/'
    requires relative == "" || relative[0] != '/'
    ensures Under(base, relative) == base + ['/'] + relative
  {}

  lemma BelowBase(dir: seq<string>, relative: string)
    requires AllName(dir) && dir != []
    ensures Walk([], Split("/" + Join(dir) + ['/'] + relative)) == Walk(dir, Split(relative))
  {
    SplitConcat("/" + Join(dir), relative);
    WalkConcat([], Split("/" + Join(dir)), Split(relative));
    AnchoredPlace(Join(dir));
    SplitOfJoin(dir);
    WalkDown([], dir);
    assert [] + dir == dir;
  }

  lemma JoinEnd(parts: seq<string>)
    requires AllName(parts) && parts != []
    ensures Join(parts) != "" && Join(parts)[|Join(parts)| - 1] != '/'
  {
    var last := parts[|parts| - 1];
    assert last[|last| - 1] in last;
  }

  /** The text comparison decides what the names decide. */
  lemma InsideText(dir: seq<string>, place: seq<string>)
    requires AllName(dir) && AllName(place)
    ensures var base, target := "/" + Join(dir), "/" + Join(place);
        (target == base || base + "/" <= target) <==> Inside(dir, place)
  {
    JoinInjective(dir, place);
    assert ("/" + Join(place))[1..] == Join(place) && ("/" + Join(dir))[1..] == Join(dir);
    if dir == [] {
      JoinStart(place);
      PrefixAfter("/", "/", Join(place));
      assert "/" + Join(dir) == "/";
    } else {
      BelowText(dir, place);
    }
  }

  lemma JoinInjective(a: seq<string>, b: seq<string>)
    requires AllName(a) && AllName(b)
    ensures Join(a) == Join(b) <==> a == b
  {
    JoinStart(a);
    JoinStart(b);
    if a != [] && b != [] {
      SplitOfJoin(a);
      SplitOfJoin(b);
    }
  }

  lemma BelowText(dir: seq<string>, place: seq<string>)
    requires AllName(dir) && AllName(place) && dir != []
    ensures "/" + Join(dir) + "/" <= "/" + Join(place) <==> dir < place
  {
    var head := Join(dir) + ['/'];
    if dir < place { TextOfBelow(dir, place); }
    if head <= Join(place) { BelowOfText(dir, place, Join(place)[|head|..]); }
    assert "/" + Join(dir) + "/" == "/" + head;
    PrefixAfter("/", head, Join(place));
  }

  lemma PrefixAfter(lead: string, a: string, b: string)
    ensures lead + a <= lead + b <==> a <= b
  {
    assert (lead + b)[|lead|..] == b;
    if lead + a <= lead + b && |a| <= |b| { assert (lead + b)[|lead|..][..|a|] == (lead + a)[|lead|..]; }
  }

  lemma TextOfBelow(dir: seq<string>, place: seq<string>)
    requires dir != [] && dir < place
    ensures Join(dir) + ['/'] <= Join(place)
  {
    assert place == dir + place[|dir|..];
    JoinConcat(dir, place[|dir|..]);
  }

  lemma BelowOfText(dir: seq<string>, place: seq<string>, rest: string)
    requires AllName(dir) && AllName(place) && dir != []
    requires Join(place) == Join(dir) + ['/'] + rest
    ensures dir < place
  {
    SplitOfJoin(dir);
    SplitOfJoin(place);
    SplitConcat(Join(dir), rest);
  }

  /** Whatever the name, its normal form passes the check, and lands right below the base, if and only if the base is
      not the root. */
  lemma SafeNameConfined(dir: seq<string>, name: string)
    requires AllName(dir)
    ensures Target(dir, SafeRelative(name)) == dir + Split(SafeRelative(name))
    ensures Inside(dir, Target(dir, SafeRelative(name))) <==> dir != []
  {
    NormalForm(name);
    WalkDown(dir, Split(SafeRelative(name)));
  }
}
