/** Lexical path cleaning on Unix (Go's filepath.Clean and Join) and the tool bridge's resolvePath. */
module Paths {
  import opened Text

  predicate IsAbs(p: string) {
    p != "" && p[0] == '/'
  }

  /** The texts between slashes; n slashes give n + 1 components. */
  function Split(p: string): (parts: seq<string>)
    ensures |parts| > 0
    ensures IsAbs(p) ==> parts[0] == ""
  {
    if p == "" then [""]
    else
      var rest := Split(p[1..]);
      if p[0] == '/' then [""] + rest else [[p[0]] + rest[0]] + rest[1..]
  }

  function JoinSlash(parts: seq<string>): string {
    Join(parts, "/")
  }

  /** One component below the root: `..` at the root stays at the root. */
  function EnterRooted(stack: seq<string>, part: string): seq<string> {
    if part == "" || part == "." then stack
    else if part == ".." then (if stack == [] then [] else stack[..|stack| - 1])
    else stack + [part]
  }

  /** One component of a relative path: leading `..` components are kept. */
  function EnterRelative(stack: seq<string>, part: string): seq<string> {
    if part == "" || part == "." then stack
    else if part == ".." && stack != [] && stack[|stack| - 1] != ".." then stack[..|stack| - 1]
    else stack + [part]
  }

  /** The directory reached from `stack` by following `parts` lexically. */
  function Walk(stack: seq<string>, parts: seq<string>, rooted: bool): seq<string>
    decreases |parts|
  {
    if parts == [] then stack
    else
      Walk(if rooted then EnterRooted(stack, parts[0]) else EnterRelative(stack, parts[0]), parts[1..], rooted)
  }

  function Clean(p: string): string {
    if p == "" then "."
    else
      var stack := Walk([], Split(p), IsAbs(p));
      if IsAbs(p) then "/" + JoinSlash(stack)
      else if stack == [] then "." else JoinSlash(stack)
  }

  /** filepath.Join of two elements: empty elements are dropped, the rest is cleaned. */
  function JoinPath(base: string, p: string): string {
    if base == "" && p == "" then ""
    else if base == "" then Clean(p)
    else if p == "" then Clean(base)
    else Clean(base + "/" + p)
  }

  function ResolvePath(cwd: string, path: string): string {
    var trimmed := TrimSpace(path);
    if trimmed == "" then trimmed
    else if IsAbs(trimmed) then Clean(trimmed)
    else Clean(JoinPath(cwd, trimmed))
  }

  /** A component that names something: not empty, not `.`, not `..`, no slash inside. */
  predicate IsName(part: string) {
    part != "" && part != "." && part != ".." && '/' !in part
  }

  predicate AllNames(parts: seq<string>) {
    forall i | 0 <= i < |parts| :: IsName(parts[i])
  }

  /** The components below the root of a rooted path; `/` has none. */
  function Below(p: string): seq<string>
    requires IsAbs(p)
  {
    if p == "/" then [] else Split(p[1..])
  }

  predicate CleanAbs(p: string) {
    IsAbs(p) && AllNames(Below(p))
  }

  lemma {:induction false} SplitHasNoSlash(p: string)
    ensures forall i | 0 <= i < |Split(p)| :: '/' !in Split(p)[i]
  {
    if p != "" { SplitHasNoSlash(p[1..]); }
  }

  lemma SplitOne(part: string)
    requires '/' !in part
    ensures Split(part) == [part]
  {
    if part != "" {
      assert '/' !in part[1..] && part == [part[0]] + part[1..];
      SplitOne(part[1..]);
    }
  }

  lemma {:induction false} SplitConcat(a: string, b: string)
    ensures Split(a + "/" + b) == Split(a) + Split(b)
  {
    if a == "" {
      assert (a + "/" + b)[1..] == b;
    } else {
      assert (a + "/" + b)[1..] == a[1..] + "/" + b;
      SplitConcat(a[1..], b);
    }
  }

  lemma {:induction false} SplitJoin(parts: seq<string>)
    requires parts != [] && forall i | 0 <= i < |parts| :: '/' !in parts[i]
    ensures Split(JoinSlash(parts)) == parts
  {
    if |parts| == 1 {
      SplitOne(parts[0]);
    } else {
      SplitJoin(parts[1..]);
      SplitOne(parts[0]);
      SplitConcat(parts[0], JoinSlash(parts[1..]));
    }
  }

  lemma {:induction false} WalkNames(stack: seq<string>, parts: seq<string>)
    requires AllNames(stack) && forall i | 0 <= i < |parts| :: '/' !in parts[i]
    ensures AllNames(Walk(stack, parts, true))
    decreases |parts|
  {
    if parts != [] {
      WalkNames(EnterRooted(stack, parts[0]), parts[1..]);
    }
  }

  lemma {:induction false} WalkOverNames(stack: seq<string>, names: seq<string>)
    requires AllNames(names)
    ensures Walk(stack, names, true) == stack + names
    decreases |names|
  {
    if names != [] {
      WalkOverNames(stack + [names[0]], names[1..]);
      assert stack + [names[0]] + names[1..] == stack + names;
    }
  }

  lemma {:induction false} WalkConcat(stack: seq<string>, a: seq<string>, b: seq<string>)
    ensures Walk(stack, a + b, true) == Walk(Walk(stack, a, true), b, true)
    decreases |a|
  {
    if a == [] {
      assert a + b == b;
    } else {
      assert (a + b)[1..] == a[1..] + b;
      WalkConcat(EnterRooted(stack, a[0]), a[1..], b);
    }
  }

  lemma NamesDetermineBelow(names: seq<string>)
    requires AllNames(names)
    ensures CleanAbs("/" + JoinSlash(names)) && Below("/" + JoinSlash(names)) == names
  {
    var p := "/" + JoinSlash(names);
    assert p[1..] == JoinSlash(names);
    if names != [] {
      assert IsName(names[0]);
      assert JoinSlash(names)[..|names[0]|] == names[0];
      SplitJoin(names);
    }
  }

  /** Cleaning a rooted path gives the canonical spelling of the directory the path leads to. */
  lemma CleanMeaning(p: string)
    requires IsAbs(p)
    ensures CleanAbs(Clean(p))
    ensures Below(Clean(p)) == Walk([], Split(p), true)
  {
    SplitHasNoSlash(p);
    WalkNames([], Split(p));
    NamesDetermineBelow(Walk([], Split(p), true));
  }

  lemma CleanKeepsClean(p: string)
    requires CleanAbs(p)
    ensures Clean(p) == p
  {
    var names := Below(p);
    assert p == "" + "/" + p[1..];
    SplitConcat("", p[1..]);
    WalkConcat([], [""], Split(p[1..]));
    assert Walk([], [""], true) == [];
    if p == "/" {
      assert Split(p) == ["", ""];
    } else {
      WalkOverNames([], names);
      JoinSplit(p[1..]);
      assert Split(p) == [""] + names;
      assert [] + names == names;
    }
  }

  lemma {:induction false} JoinSplit(p: string)
    ensures JoinSlash(Split(p)) == p
  {
    if p != "" {
      JoinSplit(p[1..]);
      var rest := Split(p[1..]);
      if p[0] == '/' {
        assert Split(p)[1..] == rest;
      } else if |rest| > 1 {
        assert Split(p)[1..] == rest[1..];
      }
    }
  }

  function Weight(parts: seq<string>): nat {
    if parts == [] then 0 else |parts[0]| + 1 + Weight(parts[1..])
  }

  lemma {:induction false} WeightAppend(a: seq<string>, b: seq<string>)
    ensures Weight(a + b) == Weight(a) + Weight(b)
  {
    if a == [] {
      assert a + b == b;
    } else {
      assert (a + b)[1..] == a[1..] + b;
      WeightAppend(a[1..], b);
    }
  }

  lemma {:induction false} JoinWeight(parts: seq<string>)
    ensures |JoinSlash(parts)| == (if parts == [] then 0 else Weight(parts) - 1)
  {
    if |parts| > 1 { JoinWeight(parts[1..]); }
  }

  lemma {:induction false} WalkWeight(stack: seq<string>, parts: seq<string>)
    ensures Weight(Walk(stack, parts, true)) <= Weight(stack) + Weight(parts)
    decreases |parts|
  {
    if parts != [] {
      var next := EnterRooted(stack, parts[0]);
      if stack != [] {
        assert stack == stack[..|stack| - 1] + [stack[|stack| - 1]];
        WeightAppend(stack[..|stack| - 1], [stack[|stack| - 1]]);
      }
      WeightAppend(stack, [parts[0]]);
      WalkWeight(next, parts[1..]);
    }
  }

  lemma CleanNeverLonger(p: string)
    requires IsAbs(p)
    ensures |Clean(p)| <= |p|
  {
    var parts := Split(p);
    JoinSplit(p);
    JoinWeight(parts);
    WalkWeight([], parts[1..]);
    JoinWeight(Walk([], parts, true));
    assert Walk([], parts, true) == Walk([], parts[1..], true);
  }

  /** The directory a tool path leads to: the trimmed path followed from the root or from the working
      directory, component by component. */
  function Target(cwd: string, path: string): seq<string> {
    var t := TrimSpace(path);
    if IsAbs(t) then Walk([], Split(t), true) else Walk(Walk([], Split(cwd), true), Split(t), true)
  }

  /** What the tool bridge sends for a path that is not blank, below an absolute working directory:
      an absolute path without empty, `.` or `..` components, naming its target. */
  lemma ResolvedPathIsCanonical(cwd: string, path: string)
    requires IsAbs(cwd) && !Blank(path)
    ensures CleanAbs(ResolvePath(cwd, path)) && Below(ResolvePath(cwd, path)) == Target(cwd, path)
  {
    var t := TrimSpace(path);
    BlankMeansTrimmedEmpty(path);
    if IsAbs(t) {
      CleanMeaning(t);
    } else {
      var whole := cwd + "/" + t;
      CleanMeaning(whole);
      CleanKeepsClean(Clean(whole));
      SplitConcat(cwd, t);
      WalkConcat([], Split(cwd), Split(t));
    }
  }

  /** A canonical path is resolved to itself, whatever the working directory, exactly if it does not end
      in a blank. */
  lemma CanonicalPathsResolve(cwd: string, p: string)
    requires CleanAbs(p)
    ensures ResolvePath(cwd, p) == p <==> !IsSpace(p[|p| - 1])
  {
    TrimRooted(p);
    TrimRightCuts(p);
    if IsSpace(p[|p| - 1]) {
      CleanNeverLonger(TrimSpace(p));
    } else {
      CleanKeepsClean(p);
    }
  }

  predicate EndsInBlank(s: string) {
    s != "" && IsSpace(s[|s| - 1])
  }

  lemma {:induction false} JoinEnds(parts: seq<string>)
    requires parts != [] && parts[|parts| - 1] != ""
    ensures JoinSlash(parts) != "" && EndsInBlank(JoinSlash(parts)) == EndsInBlank(parts[|parts| - 1])
  {
    if |parts| > 1 {
      JoinEnds(parts[1..]);
    }
  }

  /** The last character of a canonical path belongs to its last component. */
  lemma CanonicalEnds(p: string)
    requires CleanAbs(p)
    ensures EndsInBlank(p) <==> Below(p) != [] && EndsInBlank(Below(p)[|Below(p)| - 1])
  {
    if p != "/" {
      var names := Below(p);
      assert IsName(names[|names| - 1]);
      JoinSplit(p[1..]);
      JoinEnds(names);
    }
  }

  /** Resolving a resolved path again changes nothing exactly when the last component of the target does
      not end in a blank; a target of the root has none. */
  lemma ResolvingTwice(cwd: string, path: string)
    requires IsAbs(cwd) && !Blank(path)
    ensures var (target, r) := (Target(cwd, path), ResolvePath(cwd, path));
            ResolvePath(cwd, r) == r <==> target == [] || !EndsInBlank(target[|target| - 1])
  {
    ResolvedPathIsCanonical(cwd, path);
    CanonicalPathsResolve(cwd, ResolvePath(cwd, path));
    CanonicalEnds(ResolvePath(cwd, path));
  }

  lemma DotLeavesABlank()
    ensures ResolvePath("/", "/a /.") == "/a "
  {
    var p := "/a /.";
    TrimRooted(p);
    assert p == "" + "/" + ("a " + "/" + ".");
    SplitConcat("", "a " + "/" + ".");
    SplitConcat("a ", ".");
    SplitOne("a ");
    SplitOne(".");
    WalkConcat([], [""], ["a "] + ["."]);
    assert Walk(["a "], ["."], true) == ["a "];
  }

  lemma BlankIsTrimmed()
    ensures ResolvePath("/", "/a ") == "/a"
  {
    var q := "/a ";
    TrimRooted(q);
    assert q[..2] == "/a" && TrimRight("/a") == "/a";
    assert "/a" == "" + "/" + "a";
    SplitConcat("", "a");
    SplitOne("a");
    CleanKeepsClean("/a");
  }

  /** The path `/a /.` shows that it can end in a blank. */
  lemma ResolvingTwiceCanDiffer()
    ensures ResolvePath("/", "/a /.") == "/a "
    ensures ResolvePath("/", ResolvePath("/", "/a /.")) == "/a" != "/a "
  {
    DotLeavesABlank();
    BlankIsTrimmed();
    assert |"/a"| != |"/a "|;
  }
}
