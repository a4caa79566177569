/** Splitting by strtok (Midterm Project/src/server.c): the command tokenizer and the climb from a
    server directory back to where the server was started. */
module Tokenizer {

  function Skip(s: string, d: char): string {
    if s != "" && s[0] == d then Skip(s[1..], d) else s
  }

  function Word(s: string, d: char): string {
    if s == "" || s[0] == d then "" else [s[0]] + Word(s[1..], d)
  }

  lemma {:induction false} SkipShrinks(s: string, d: char)
    ensures |Skip(s, d)| <= |s|
    ensures Skip(s, d) != "" ==> Skip(s, d)[0] != d
  {
    if s != "" && s[0] == d {
      SkipShrinks(s[1..], d);
    }
  }

  lemma {:induction false} WordIsPrefix(s: string, d: char)
    ensures Word(s, d) <= s && d !in Word(s, d)
    ensures s != "" && s[0] != d ==> Word(s, d) != ""
    ensures |Word(s, d)| < |s| ==> s[|Word(s, d)|] == d
  {
    if s != "" && s[0] != d {
      WordIsPrefix(s[1..], d);
    }
  }

  /** All the tokens successive strtok calls return. */
  function Tokens(s: string, d: char): seq<string>
    decreases |s|
  {
    SkipShrinks(s, d);
    var t := Skip(s, d);
    WordIsPrefix(t, d);
    if t == "" then [] else [Word(t, d)] + Tokens(t[|Word(t, d)|..], d)
  }

  /** `symbolago`: at most four tokens are copied out. */
  method Symbolago(str: string) returns (tokens: seq<string>)
    ensures tokens == if |Tokens(str, ' ')| <= 4 then Tokens(str, ' ') else Tokens(str, ' ')[..4]
  {
    tokens := [];
    var rest := str;
    while true
      invariant |tokens| < 4 && Tokens(str, ' ') == tokens + Tokens(rest, ' ')
      decreases |rest|
    {
      SkipShrinks(rest, ' ');
      var t := Skip(rest, ' ');
      WordIsPrefix(t, ' ');
      if t == "" {
        return;
      }
      var tem := Word(t, ' ');
      tokens := tokens + [tem];
      rest := t[|tem|..];
      if |tokens| == 4 {
        return;
      }
    }
  }

  /* ---- Round trip ---- */

  function Fill(d: char, n: nat): string {
    seq(n, _ => d)
  }

  /** Tokens laid out with these runs of delimiters before each and one after the last. */
  function Render(tokens: seq<string>, gaps: seq<nat>, d: char): string
    requires |gaps| == |tokens| + 1
  {
    if tokens == [] then Fill(d, gaps[0])
    else Fill(d, gaps[0]) + tokens[0] + Render(tokens[1..], gaps[1..], d)
  }

  /** Tokens are non-empty and free of the delimiter, and inner runs are not empty. */
  ghost predicate Proper(tokens: seq<string>, gaps: seq<nat>, d: char) {
    && |gaps| == |tokens| + 1
    && (forall i :: 0 <= i < |tokens| ==> tokens[i] != "" && d !in tokens[i])
    && (forall i :: 0 < i < |tokens| ==> gaps[i] > 0)
  }

  lemma {:induction false} SkipFill(n: nat, s: string, d: char)
    ensures Skip(Fill(d, n) + s, d) == Skip(s, d)
  {
    if n == 0 {
      assert Fill(d, 0) + s == s;
    } else {
      SkipFill(n - 1, s, d);
      assert (Fill(d, n) + s)[1..] == Fill(d, n - 1) + s;
    }
  }

  lemma {:induction false} WordThenRest(w: string, rest: string, d: char)
    requires d !in w && (rest == "" || rest[0] == d)
    ensures Word(w + rest, d) == w
  {
    if w == "" {
      assert w + rest == rest;
    } else {
      WordThenRest(w[1..], rest, d);
      assert (w + rest)[1..] == w[1..] + rest;
    }
  }

  /** Tokenizing a layout of tokens gives the tokens back, whatever the runs of delimiters. */
  lemma {:induction false} TokensOfRender(tokens: seq<string>, gaps: seq<nat>, d: char)
    requires Proper(tokens, gaps, d)
    ensures Tokens(Render(tokens, gaps, d), d) == tokens
  {
    var s := Render(tokens, gaps, d);
    if tokens == [] {
      SkipFill(gaps[0], "", d);
      assert Fill(d, gaps[0]) + "" == s;
    } else {
      var w, rest := tokens[0], Render(tokens[1..], gaps[1..], d);
      SkipFill(gaps[0], w + rest, d);
      assert s == Fill(d, gaps[0]) + (w + rest);
      assert Skip(w + rest, d) == w + rest;
      RestStartsWithGap(tokens[1..], gaps[1..], d);
      WordThenRest(w, rest, d);
      assert (w + rest)[|w|..] == rest;
      TokensOfRender(tokens[1..], gaps[1..], d);
    }
  }

  lemma RestStartsWithGap(tokens: seq<string>, gaps: seq<nat>, d: char)
    requires |gaps| == |tokens| + 1 && (tokens != [] ==> gaps[0] > 0)
    ensures var rest := Render(tokens, gaps, d); rest == "" || rest[0] == d
  {
  }

  lemma {:induction false} SkippedPart(s: string, d: char) returns (n: nat)
    ensures s == Fill(d, n) + Skip(s, d)
    ensures s != "" && s[0] == d ==> n > 0
  {
    if s != "" && s[0] == d {
      var m := SkippedPart(s[1..], d);
      n := m + 1;
      assert Fill(d, n) + Skip(s, d) == [d] + (Fill(d, m) + Skip(s, d));
      assert s == [d] + s[1..];
    } else {
      n := 0;
    }
  }

  /** Conversely every string is a layout of its tokens, so nothing but delimiters is lost. */
  lemma {:induction false} EveryStringIsARender(s: string, d: char) returns (gaps: seq<nat>)
    ensures Proper(Tokens(s, d), gaps, d) && Render(Tokens(s, d), gaps, d) == s
    ensures s != "" && s[0] == d ==> gaps[0] > 0
    decreases |s|
  {
    hide Word, Skip, Render;
    SkipShrinks(s, d);
    var t := Skip(s, d);
    WordIsPrefix(t, d);
    var n := SkippedPart(s, d);
    if t == "" {
      gaps := [n];
      OnlyGap(s, n, d);
    } else {
      var w := Word(t, d);
      var rest := t[|w|..];
      var inner := EveryStringIsARender(rest, d);
      gaps := [n] + inner;
      assert Tokens(s, d) == [w] + Tokens(rest, d);
      hide Tokens;
      LayoutGrows(s, n, w, rest, inner, d);
    }
  }

  lemma OnlyGap(s: string, n: nat, d: char)
    requires s == Fill(d, n) + ""
    ensures Render([], [n], d) == s
  {
  }

  lemma LayoutGrows(s: string, n: nat, w: string, rest: string, inner: seq<nat>, d: char)
    requires s == Fill(d, n) + (w + rest) && w != "" && d !in w && (rest == "" || rest[0] == d)
    requires Proper(Tokens(rest, d), inner, d) && Render(Tokens(rest, d), inner, d) == rest
    requires rest != "" ==> inner[0] > 0
    ensures Proper([w] + Tokens(rest, d), [n] + inner, d)
    ensures Render([w] + Tokens(rest, d), [n] + inner, d) == s
  {
    var tokens, gaps := [w] + Tokens(rest, d), [n] + inner;
    assert tokens[1..] == Tokens(rest, d) && gaps[1..] == inner;
    if rest == "" {
      assert Tokens(rest, d) == [];
    }
  }

  /* ---- Climbing ---- */

  /** One component further; the root is its own parent. */
  function StepInto(cwd: seq<string>, name: string): seq<string> {
    if name == "." then cwd
    else if name == ".." then (if cwd == [] then [] else cwd[..|cwd| - 1])
    else cwd + [name]
  }

  /** Where a path leads, component by component. */
  function Resolve(cwd: seq<string>, path: seq<string>): seq<string>
    decreases |path|
  {
    if path == [] then cwd else Resolve(StepInto(cwd, path[0]), path[1..])
  }

  function Ups(n: nat): seq<string> {
    seq(n, _ => "..")
  }

  function Repeat(s: string, n: nat): string {
    if n == 0 then "" else s + Repeat(s, n - 1)
  }

  /** The prefix built in `helper_upload`: one "../" for each component of the server directory. */
  method ClimbingPrefix(dir: string) returns (prefix: string)
    ensures prefix == Repeat("../", |Tokens(dir, '/')|)
  {
    prefix := "";
    var rest := dir;
    ghost var n := 0;
    while true
      invariant |Tokens(dir, '/')| == n + |Tokens(rest, '/')| && prefix == Repeat("../", n)
      decreases |rest|
    {
      SkipShrinks(rest, '/');
      var t := Skip(rest, '/');
      WordIsPrefix(t, '/');
      if t == "" {
        return;
      }
      RepeatOnce("../", n);
      prefix := prefix + "../";
      n := n + 1;
      rest := t[|Word(t, '/')|..];
    }
  }

  lemma {:induction false} RepeatOnce(s: string, n: nat)
    ensures Repeat(s, n + 1) == Repeat(s, n) + s
  {
    if n > 0 {
      RepeatOnce(s, n - 1);
    }
  }

  lemma {:induction false} PrefixComponents(n: nat)
    ensures Tokens(Repeat("../", n), '/') == Ups(n)
  {
    if n > 0 {
      var s := Repeat("../", n);
      var rest := Repeat("../", n - 1);
      assert s == ".." + ("/" + rest);
      assert Skip(s, '/') == s;
      WordThenRest("..", "/" + rest, '/');
      assert s[2..] == "/" + rest;
      SkipSlash(rest);
      PrefixComponents(n - 1);
      assert Ups(n) == [".."] + Ups(n - 1);
    }
  }

  lemma SkipSlash(rest: string)
    ensures Tokens("/" + rest, '/') == Tokens(rest, '/')
  {
    assert ("/" + rest)[1..] == rest;
    assert Skip("/" + rest, '/') == Skip(rest, '/');
  }

  predicate Plain(name: string) {
    name != "." && name != ".."
  }

  predicate AllPlain(path: seq<string>) {
    forall i :: 0 <= i < |path| ==> Plain(path[i])
  }

  /** Depth after a path: at most one more per component, and exactly that only when all are plain. */
  lemma {:induction false} DepthAfter(cwd: seq<string>, path: seq<string>)
    ensures |Resolve(cwd, path)| <= |cwd| + |path|
    ensures |Resolve(cwd, path)| == |cwd| + |path| ==> AllPlain(path)
    decreases |path|
  {
    if path != [] {
      DepthAfter(StepInto(cwd, path[0]), path[1..]);
      assert forall i :: 0 < i < |path| ==> path[i] == path[1..][i - 1];
    }
  }

  lemma {:induction false} PlainPathDescends(cwd: seq<string>, path: seq<string>)
    requires AllPlain(path)
    ensures Resolve(cwd, path) == cwd + path
    decreases |path|
  {
    if path != [] {
      assert forall i :: 0 <= i < |path[1..]| ==> path[1..][i] == path[i + 1];
      PlainPathDescends(cwd + [path[0]], path[1..]);
      assert cwd + [path[0]] + path[1..] == cwd + path;
    }
  }

  lemma {:induction false} ClimbUps(cwd: seq<string>, n: nat)
    ensures Resolve(cwd, Ups(n)) == if n <= |cwd| then cwd[..|cwd| - n] else []
  {
    if n > 0 {
      var next := if cwd == [] then [] else cwd[..|cwd| - 1];
      ClimbUps(next, n - 1);
      assert Ups(n)[1..] == Ups(n - 1);
      if 0 < n <= |cwd| {
        assert next[..|next| - (n - 1)] == cwd[..|cwd| - n];
      }
    }
  }

  predicate Absolute(dir: string) {
    dir != "" && dir[0] == '/'
  }

  /** Where `chdir(argv[1])` takes a server started in cwd; an absolute path starts at the root. */
  function ServerDirectory(cwd: seq<string>, dir: string): seq<string> {
    Resolve(if Absolute(dir) then [] else cwd, Tokens(dir, '/'))
  }

  /** Where the climbing prefix leads from there. */
  function AfterClimb(cwd: seq<string>, dir: string): seq<string> {
    Resolve(ServerDirectory(cwd, dir), Tokens(Repeat("../", |Tokens(dir, '/')|), '/'))
  }

  /** The prefix leads back to where the server was started exactly when the directory is given by a
      relative path of plain components, or when the server was started at the root. */
  lemma ClimbReturns(cwd: seq<string>, dir: string)
    ensures AfterClimb(cwd, dir) == cwd <==>
            (cwd == [] || (!Absolute(dir) && AllPlain(Tokens(dir, '/'))))
  {
    var path := Tokens(dir, '/');
    var start := if Absolute(dir) then [] else cwd;
    PrefixComponents(|path|);
    DepthAfter(start, path);
    if AllPlain(path) {
      PlainPathDescends(start, path);
      assert (start + path)[..|start|] == start;
    }
    var inside := ServerDirectory(cwd, dir);
    ClimbUps(inside, |path|);
    assert |inside| <= |path| ==> AfterClimb(cwd, dir) == [];
    hide Tokens, Resolve, AllPlain;
  }

  /** From an absolute directory the prefix leads to the root. */
  lemma ClimbFromAbsolute(cwd: seq<string>, dir: string)
    requires Absolute(dir)
    ensures AfterClimb(cwd, dir) == []
  {
    var path := Tokens(dir, '/');
    PrefixComponents(|path|);
    DepthAfter([], path);
    ClimbUps(ServerDirectory(cwd, dir), |path|);
    hide Tokens, Resolve;
  }

  /** A server started in /home/u with the directory /srv, and one with the directory "." . */
  lemma ClimbMissesStart()
    ensures AfterClimb(["home", "u"], "/srv") == []
    ensures AfterClimb(["home", "u"], ".") == ["home"]
  {
    ClimbFromAbsolute(["home", "u"], "/srv");
    var gaps: seq<nat> := [0, 0];
    TokensOfRender(["."], gaps, '/');
    assert Render(["."], gaps, '/') == "." by {
      assert ["."][1..] == [] && gaps[1..] == [0];
    }
    PrefixComponents(1);
    assert ServerDirectory(["home", "u"], ".") == ["home", "u"] by {
      assert ["."][1..] == [];
    }
    ClimbUps(["home", "u"], 1);
  }
}
