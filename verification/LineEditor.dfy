/** The line editor of the file server (Midterm Project/src/server.c, readF and writeT): files read
    through fgets with bounded buffers, and rewritten with a line inserted or appended. */
module LineEditor {
  import opened Folds

  const READ_BUFFER := 1024
  const WRITE_BUFFER := 500

  /* ---- fgets ---- */

  /** What one fgets returns from here: at most n characters, up to and with the first newline. */
  function Chunk(text: string, n: nat): string {
    if text == "" || n == 0 then ""
    else if text[0] == '\n' then "\n"
    else [text[0]] + Chunk(text[1..], n - 1)
  }

  lemma {:induction false} ChunkIsPrefix(text: string, n: nat)
    ensures Chunk(text, n) <= text && |Chunk(text, n)| <= n
    ensures text != "" && n > 0 ==> Chunk(text, n) != ""
  {
    if text != "" && n > 0 && text[0] != '\n' {
      ChunkIsPrefix(text[1..], n - 1);
    }
  }

  /** Everything a loop of fgets reads. */
  function Chunks(text: string, n: nat): seq<string>
    requires n > 0
    decreases |text|
  {
    if text == "" then [] else
      ChunkIsPrefix(text, n);
      [Chunk(text, n)] + Chunks(text[|Chunk(text, n)|..], n)
  }

  function Concat(parts: seq<string>): string {
    if parts == [] then "" else parts[0] + Concat(parts[1..])
  }

  /** A line put before the n-th part, when there is one. */
  function InsertAt(parts: seq<string>, n: nat, line: string): seq<string> {
    if 1 <= n <= |parts| then parts[..n - 1] + [line] + parts[n - 1..] else parts
  }

  /** What writeT leaves of a file when it inserts s at line n. */
  function Rewritten(text: string, n: nat, s: string): string {
    Concat(InsertAt(Chunks(text, WRITE_BUFFER - 1), n, s + "\n"))
  }

  /* ---- The commands, as the code runs them ---- */

  /** One more fgets. */
  lemma NextChunk(seen: seq<string>, rest: string, n: nat)
    requires rest != "" && n > 0
    ensures Chunk(rest, n) <= rest && Chunk(rest, n) != ""
    ensures seen + Chunks(rest, n) == (seen + [Chunk(rest, n)]) + Chunks(rest[|Chunk(rest, n)|..], n)
  {
    ChunkIsPrefix(rest, n);
  }

  /** readF with a line number. */
  method ReadLineLoop(text: string, n: nat) returns (out: string)
    ensures out == PartAt(Chunks(text, 1023), n)
  {
    hide Chunk;
    out := "";
    var rest := text;
    var existing := 1;
    ghost var seen := [];
    while rest != ""
      invariant Chunks(text, READ_BUFFER - 1) == seen + Chunks(rest, READ_BUFFER - 1)
      invariant existing == |seen| + 1 && !(1 <= n <= |seen|) && out == ""
      decreases |rest|
    {
      NextChunk(seen, rest, READ_BUFFER - 1);
      var line := Chunk(rest, READ_BUFFER - 1);
      rest := rest[|line|..];
      if existing == n {
        out := line;
        PartAtLast(seen, line, Chunks(rest, READ_BUFFER - 1));
        return;
      }
      seen := seen + [line];
      existing := existing + 1;
    }
    assert seen + [] == seen;
  }

  lemma PartAtLast(seen: seq<string>, line: string, rest: seq<string>)
    ensures PartAt((seen + [line]) + rest, |seen| + 1) == line
  {
  }

  function PartAt(parts: seq<string>, n: nat): string {
    if 1 <= n <= |parts| then parts[n - 1] else ""
  }

  /** readF without a line number. */
  method ReadAllLoop(text: string) returns (out: string)
    ensures out == text
  {
    out := "";
    var rest := text;
    while rest != ""
      invariant out + rest == text
      decreases |rest|
    {
      ChunkIsPrefix(rest, READ_BUFFER - 1);
      var line := Chunk(rest, READ_BUFFER - 1);
      out, rest := out + line, rest[|line|..];
    }
  }

  /** writeT with a line number: the file is copied over with the new line slipped in. */
  method InsertLoop(text: string, n: nat, s: string) returns (out: string)
    ensures out == Rewritten(text, n, s)
  {
    hide Chunk, Concat;
    out := "";
    var rest := text;
    var existing := 0;
    NothingYet(n, s + "\n");
    ghost var seen := [];
    while rest != ""
      invariant Chunks(text, WRITE_BUFFER - 1) == seen + Chunks(rest, WRITE_BUFFER - 1)
      invariant existing == |seen| && out == Concat(InsertAt(seen, n, s + "\n"))
      decreases |rest|
    {
      NextChunk(seen, rest, WRITE_BUFFER - 1);
      var line := Chunk(rest, WRITE_BUFFER - 1);
      InsertSnoc(seen, n, s + "\n", line);
      rest := rest[|line|..];
      existing := existing + 1;
      if existing == n {
        out := out + s;
        out := out + "\n";
      }
      out := out + line;
      seen := seen + [line];
    }
    assert seen + [] == seen;
  }

  lemma NothingYet(n: nat, line: string)
    ensures Concat(InsertAt([], n, line)) == ""
  {
  }

  lemma {:induction false} ConcatConcat(a: seq<string>, b: seq<string>)
    ensures Concat(a + b) == Concat(a) + Concat(b)
  {
    if a == [] {
      assert a + b == b;
    } else {
      ConcatConcat(a[1..], b);
      assert (a + b)[0] == a[0] && (a + b)[1..] == a[1..] + b;
      Regroup(a[0], Concat(a[1..]), Concat(b));
    }
  }

  lemma Regroup(a: string, b: string, c: string)
    ensures a + (b + c) == (a + b) + c
  {
  }

  lemma InsertSnoc(seen: seq<string>, n: nat, line: string, next: string)
    ensures Concat(InsertAt(seen + [next], n, line))
         == Concat(InsertAt(seen, n, line)) + (if n == |seen| + 1 then line else "") + next
  {
    var all := seen + [next];
    if n == |seen| + 1 {
      assert InsertAt(all, n, line) == seen + [line, next];
      ConcatConcat(seen, [line, next]);
      assert Concat([line, next]) == line + next;
    } else {
      if 1 <= n <= |seen| {
        assert InsertAt(all, n, line) == InsertAt(seen, n, line) + [next];
      }
      ConcatConcat(InsertAt(seen, n, line), [next]);
      assert Concat([next]) == next;
    }
  }

  /** writeT without a line number: a newline first when the file was there before. */
  method AppendLoop(file: Option<string>, s: string) returns (out: string)
    ensures out == if file.Some? then file.value + "\n" + s else s
  {
    var text := if file.Some? then file.value else "";
    out := ReadAllLoop(text);
    if file.Some? {
      out := out + "\n";
    }
    out := out + s;
  }

  /* ---- A file as a list of lines ---- */

  /** The stretches between newlines, at least one. */
  function Glue(doc: seq<string>): string
    requires doc != []
  {
    if |doc| == 1 then doc[0] else doc[0] + "\n" + Glue(doc[1..])
  }

  /** The lines: each stretch with its newline, the last one without, if there is anything in it. */
  function LinesOf(doc: seq<string>): seq<string>
    requires doc != []
  {
    if |doc| == 1 then (if doc[0] == "" then [] else doc)
    else [doc[0] + "\n"] + LinesOf(doc[1..])
  }

  ghost predicate IsDoc(doc: seq<string>) {
    doc != [] && forall i :: 0 <= i < |doc| ==> '\n' !in doc[i]
  }

  ghost predicate AllUpTo(lines: seq<string>, n: nat) {
    forall i :: 0 <= i < |lines| ==> |lines[i]| <= n
  }

  /** Every text is glued from one list of newline-free stretches. */
  function Split(text: string): (doc: seq<string>)
    ensures IsDoc(doc) && Glue(doc) == text
  {
    if text == "" then [""]
    else
      var rest := Split(text[1..]);
      if text[0] == '\n' then [""] + rest
      else
        var doc := [[text[0]] + rest[0]] + rest[1..];
        assert |rest| > 1 ==> doc[1..] == rest[1..];
        doc
  }

  lemma {:induction false} ChunkOfLine(line: string, rest: string, n: nat)
    requires '\n' !in line && |line| < n
    ensures Chunk(line + "\n" + rest, n) == line + "\n"
  {
    var text := line + "\n" + rest;
    if line != "" {
      ChunkOfLine(line[1..], rest, n - 1);
      assert text[1..] == line[1..] + "\n" + rest;
    }
  }

  lemma {:induction false} ChunkOfLast(line: string, n: nat)
    requires '\n' !in line && |line| <= n
    ensures Chunk(line, n) == line
  {
    if line != "" {
      ChunkOfLast(line[1..], n - 1);
    }
  }

  lemma {:induction false} ShortLinesAreChunks(doc: seq<string>, n: nat)
    requires IsDoc(doc) && n > 0 && AllUpTo(LinesOf(doc), n)
    ensures Chunks(Glue(doc), n) == LinesOf(doc)
  {
    if |doc| == 1 {
      ChunkOfLast(doc[0], n);
      if doc[0] != "" {
        assert doc[0][|doc[0]|..] == "";
        assert Chunks("", n) == [];
      }
    } else {
      var rest := Glue(doc[1..]);
      var lines := LinesOf(doc);
      assert lines[0] == doc[0] + "\n";
      assert forall i :: 0 <= i < |lines[1..]| ==> lines[1..][i] == lines[i + 1];
      ChunkOfLine(doc[0], rest, n);
      assert Glue(doc)[|doc[0]| + 1..] == rest;
      ShortLinesAreChunks(doc[1..], n);
    }
  }

  lemma {:induction false} ChunksUpTo(text: string, n: nat)
    requires n > 0
    ensures AllUpTo(Chunks(text, n), n) && Concat(Chunks(text, n)) == text
    decreases |text|
  {
    if text != "" {
      ChunkIsPrefix(text, n);
      ChunksUpTo(text[|Chunk(text, n)|..], n);
    }
  }

  /** fgets sees the lines of a file exactly when each of them, newline included, fits its buffer. */
  lemma ChunksAreLines(doc: seq<string>, n: nat)
    requires IsDoc(doc) && n > 0
    ensures Chunks(Glue(doc), n) == LinesOf(doc) <==> AllUpTo(LinesOf(doc), n)
  {
    ChunksUpTo(Glue(doc), n);
    if AllUpTo(LinesOf(doc), n) {
      ShortLinesAreChunks(doc, n);
    }
  }

  /* ---- The editor's meaning on lists of lines ---- */

  /** How many lines a file has: an empty last stretch is none. */
  function LineTotal(doc: seq<string>): nat
    requires doc != []
  {
    if doc[|doc| - 1] == "" then |doc| - 1 else |doc|
  }

  function InsertLine(doc: seq<string>, n: nat, s: string): (after: seq<string>)
    requires doc != []
    ensures after != []
  {
    if 1 <= n <= LineTotal(doc) then doc[..n - 1] + [s] + doc[n - 1..] else doc
  }

  lemma {:induction false} LineCount(doc: seq<string>)
    requires doc != []
    ensures |LinesOf(doc)| == LineTotal(doc)
    ensures forall i :: 0 <= i < |LinesOf(doc)| ==> LinesOf(doc)[i] == doc[i] + if i + 1 < |doc| then "\n" else ""
  {
    if |doc| > 1 {
      LineCount(doc[1..]);
    }
  }

  lemma {:induction false} ConcatLines(doc: seq<string>)
    requires doc != []
    ensures Concat(LinesOf(doc)) == Glue(doc)
  {
    if |doc| > 1 {
      ConcatLines(doc[1..]);
    }
  }

  lemma LineAfterInsert(doc: seq<string>, n: nat, s: string, i: nat)
    requires doc != [] && 1 <= n <= LineTotal(doc) && i <= |LinesOf(doc)|
    ensures |LinesOf(InsertLine(doc, n, s))| == |LinesOf(doc)| + 1 && |LinesOf(doc)| == LineTotal(doc)
    ensures LinesOf(InsertLine(doc, n, s))[i] ==
      if i < n - 1 then LinesOf(doc)[i] else if i == n - 1 then s + "\n" else LinesOf(doc)[i - 1]
  {
    hide LinesOf;
    var after := InsertLine(doc, n, s);
    LineCount(doc);
    LineCount(after);
    assert |after| == |doc| + 1 && after[|after| - 1] == doc[|doc| - 1];
    assert after[i] == if i < n - 1 then doc[i] else if i == n - 1 then s else doc[i - 1];
  }

  /** Inserting before a line puts the line there and moves the others down. */
  lemma LinesOfInsert(doc: seq<string>, n: nat, s: string)
    requires doc != []
    ensures LinesOf(InsertLine(doc, n, s)) == InsertAt(LinesOf(doc), n, s + "\n")
  {
    hide LinesOf;
    LineCount(doc);
    if 1 <= n <= LineTotal(doc) {
      var lines := InsertAt(LinesOf(doc), n, s + "\n");
      LineAfterInsert(doc, n, s, 0);
      hide InsertLine, LineTotal;
      forall i | 0 <= i < |lines|
        ensures LinesOf(InsertLine(doc, n, s))[i] == lines[i]
      {
        LineAfterInsert(doc, n, s, i);
      }
    }
  }

  /** writeT at a line, on a file whose lines fit the buffer, is insertion into the list of lines. */
  lemma InsertIsInsertLine(doc: seq<string>, n: nat, s: string)
    requires IsDoc(doc) && AllUpTo(LinesOf(doc), WRITE_BUFFER - 1)
    ensures Rewritten(Glue(doc), n, s) == Glue(InsertLine(doc, n, s))
  {
    ChunksAreLines(doc, WRITE_BUFFER - 1);
    LinesOfInsert(doc, n, s);
    ConcatLines(InsertLine(doc, n, s));
  }

  /** Without that, it is not: of a line too long by any amount fgets returns the first 499
      characters, and what is inserted before the next fgets lands behind them. */
  lemma FirstLineCut(doc: seq<string>, s: string)
    requires IsDoc(doc) && LinesOf(doc) != [] && |LinesOf(doc)[0]| > WRITE_BUFFER - 1 && s != ""
    ensures |Rewritten(Glue(doc), 2, s)| >= WRITE_BUFFER && Rewritten(Glue(doc), 2, s)[WRITE_BUFFER - 1] == s[0]
  {
    var text := Glue(doc);
    var n := WRITE_BUFFER - 1;
    GlueStartsWithLine(doc);
    assert '\n' !in doc[0][..n] && |doc[0]| >= n;
    assert text == doc[0][..n] + text[n..];
    ChunkOfLong(doc[0][..n], text[n..]);
    CutInTwo(text, n);
    var chunks := Chunks(text, n);
    assert InsertAt(chunks, 2, s + "\n") == chunks[..1] + ([s + "\n"] + chunks[1..]);
    ConcatConcat(chunks[..1], [s + "\n"] + chunks[1..]);
    ConcatConcat([s + "\n"], chunks[1..]);
    OnePart(chunks[0]);
    OnePart(s + "\n");
    assert chunks[..1] == [chunks[0]];
  }

  lemma CutInTwo(text: string, n: nat)
    requires n > 0 && |text| > n && |Chunk(text, n)| == n
    ensures |Chunks(text, n)| >= 2 && Chunks(text, n)[0] == Chunk(text, n)
  {
    ChunkIsPrefix(text, n);
    assert Chunks(text[n..], n) != [];
  }

  lemma OnePart(part: string)
    ensures Concat([part]) == part
  {
    assert [part][1..] == [];
  }

  lemma GlueStartsWithLine(doc: seq<string>)
    requires doc != [] && LinesOf(doc) != []
    ensures LinesOf(doc)[0] <= Glue(doc) && doc[0] <= LinesOf(doc)[0] && |LinesOf(doc)[0]| <= |doc[0]| + 1
  {
  }

  lemma {:induction false} ChunkOfLong(line: string, rest: string)
    requires '\n' !in line
    ensures Chunk(line + rest, |line|) == line
  {
    if line != "" {
      ChunkOfLong(line[1..], rest);
      assert (line + rest)[1..] == line[1..] + rest;
    }
  }

  /** Whatever is inserted later, the first line stays in front. */
  lemma InsertKeepsFirstLine(doc: seq<string>, n: nat, s: string)
    requires doc != [] && LinesOf(doc) != [] && n >= 2
    ensures LinesOf(doc)[0] <= Glue(InsertLine(doc, n, s))
  {
    GlueStartsWithLine(doc);
    LineCount(doc);
    LinesOfInsert(doc, n, s);
    if 2 <= n <= LineTotal(doc) {
      GlueStartsWithLine(InsertLine(doc, n, s));
    }
  }

  /** A short first line is passed over by both. */
  lemma RewrittenBelowFirst(doc: seq<string>, n: nat, s: string)
    requires IsDoc(doc) && |doc| > 1 && |doc[0]| < WRITE_BUFFER - 1 && n >= 1
    ensures Rewritten(Glue(doc), n + 1, s) == (doc[0] + "\n") + Rewritten(Glue(doc[1..]), n, s)
  {
    var rest := Glue(doc[1..]);
    ChunkOfLine(doc[0], rest, WRITE_BUFFER - 1);
    assert Glue(doc)[|doc[0]| + 1..] == rest;
    var first, chunks := doc[0] + "\n", Chunks(rest, WRITE_BUFFER - 1);
    assert Chunks(Glue(doc), WRITE_BUFFER - 1) == [first] + chunks;
    hide Chunks, Chunk, Concat, InsertAt, Glue;
    InsertBelowPart(first, chunks, n, s + "\n");
  }

  lemma InsertBelowPart(first: string, parts: seq<string>, n: nat, line: string)
    requires n >= 1
    ensures Concat(InsertAt([first] + parts, n + 1, line)) == first + Concat(InsertAt(parts, n, line))
  {
    assert InsertAt([first] + parts, n + 1, line) == [first] + InsertAt(parts, n, line);
    assert ([first] + InsertAt(parts, n, line))[1..] == InsertAt(parts, n, line);
    hide InsertAt;
  }

  lemma InsertBelowFirst(doc: seq<string>, n: nat, s: string)
    requires |doc| > 1 && n >= 1
    ensures Glue(InsertLine(doc, n + 1, s)) == (doc[0] + "\n") + Glue(InsertLine(doc[1..], n, s))
  {
    var after := InsertLine(doc[1..], n, s);
    assert InsertLine(doc, n + 1, s) == [doc[0]] + after;
    assert ([doc[0]] + after)[1..] == after;
    hide InsertLine;
  }

  /** With a line that does not fit, some insertion goes astray. */
  lemma {:induction false} LongLineMisplaced(doc: seq<string>) returns (n: nat, s: string)
    requires IsDoc(doc) && !AllUpTo(LinesOf(doc), WRITE_BUFFER - 1)
    ensures n >= 2 && |s| < 50 && '\n' !in s && Rewritten(Glue(doc), n, s) != Glue(InsertLine(doc, n, s))
  {
    var first := LinesOf(doc)[0];
    if |first| > WRITE_BUFFER - 1 {
      n, s := 2, if first[WRITE_BUFFER - 1] == 'x' then "y" else "x";
      FirstLineCut(doc, s);
      InsertKeepsFirstLine(doc, n, s);
      hide LinesOf, Glue, InsertLine, Rewritten;
      assert Glue(InsertLine(doc, n, s))[WRITE_BUFFER - 1] == first[WRITE_BUFFER - 1];
    } else {
      hide Rewritten, InsertLine, Glue;
      assert |doc| > 1;
      ShorterTail(doc);
      hide LinesOf;
      var k: nat;
      k, s := LongLineMisplaced(doc[1..]);
      n := k + 1;
      RewrittenBelowFirst(doc, k, s);
      InsertBelowFirst(doc, k, s);
      StillDifferent(doc[0] + "\n", Rewritten(Glue(doc[1..]), k, s), Glue(InsertLine(doc[1..], k, s)));
    }
  }

  lemma StillDifferent(prefix: string, a: string, b: string)
    requires a != b
    ensures prefix + a != prefix + b
  {
    assert (prefix + a)[|prefix|..] == a && (prefix + b)[|prefix|..] == b;
  }

  lemma ShorterTail(doc: seq<string>)
    requires IsDoc(doc) && |doc| > 1 && |LinesOf(doc)[0]| <= WRITE_BUFFER - 1
    requires !AllUpTo(LinesOf(doc), WRITE_BUFFER - 1)
    ensures !AllUpTo(LinesOf(doc[1..]), WRITE_BUFFER - 1) && |doc[0]| < WRITE_BUFFER - 1
  {
    var i :| 0 <= i < |LinesOf(doc)| && |LinesOf(doc)[i]| > WRITE_BUFFER - 1;
    assert LinesOf(doc)[i] == LinesOf(doc[1..])[i - 1];
  }

  /** writeT means line insertion, for every line number and every string a command can carry,
      exactly when every line of the file, newline included, fits the buffer. */
  lemma InsertExactlyWhenLinesFit(doc: seq<string>)
    requires IsDoc(doc)
    ensures (forall n: nat, s: string :: |s| < 50 && '\n' !in s ==>
               Rewritten(Glue(doc), n, s) == Glue(InsertLine(doc, n, s)))
       <==> AllUpTo(LinesOf(doc), 499)
  {
    hide Rewritten, Glue, InsertLine, LinesOf;
    if AllUpTo(LinesOf(doc), WRITE_BUFFER - 1) {
      forall n: nat, s: string | |s| < 50 && '\n' !in s
        ensures Rewritten(Glue(doc), n, s) == Glue(InsertLine(doc, n, s))
      {
        InsertIsInsertLine(doc, n, s);
      }
    } else {
      var n, s := LongLineMisplaced(doc);
      assert Rewritten(Glue(doc), n, s) != Glue(InsertLine(doc, n, s));
    }
  }

  /* ---- Appending ---- */

  /** The string as a line after the last one, which is ended by a newline when it is not yet. */
  function AppendLine(doc: seq<string>, s: string): (after: seq<string>)
    requires doc != []
    ensures after != []
  {
    if doc[|doc| - 1] == "" then doc[..|doc| - 1] + [s] else doc + [s]
  }

  lemma AppendedLines(doc: seq<string>, s: string)
    requires doc != [] && s != ""
    ensures |LinesOf(AppendLine(doc, s))| == |LinesOf(doc)| + 1 && |LinesOf(doc)| == LineTotal(doc)
    ensures LinesOf(AppendLine(doc, s))[|LinesOf(doc)|] == s
    ensures forall i :: 0 <= i < LineTotal(doc) ==> LinesOf(AppendLine(doc, s))[i] == doc[i] + "\n"
  {
    LineCount(doc);
    LineCount(AppendLine(doc, s));
    hide LinesOf;
  }

  lemma {:induction false} GlueLast(doc: seq<string>, s: string)
    requires doc != [] && doc[|doc| - 1] == ""
    ensures Glue(doc[..|doc| - 1] + [s]) == Glue(doc) + s
  {
    if |doc| == 1 {
      assert doc[..0] + [s] == [s];
    } else {
      GlueLast(doc[1..], s);
      var after := doc[..|doc| - 1] + [s];
      assert after[0] == doc[0] && after[1..] == doc[1..][..|doc| - 2] + [s];
      Regroup(doc[0] + "\n", Glue(doc[1..]), s);
    }
  }

  /** writeT without a line number puts a newline and the string behind the text, whatever that ends
      in. This appends a line exactly when the file does not end in a newline and is not empty;
      otherwise it leaves an empty line in between. */
  lemma AppendExactlyAfterOpenLine(doc: seq<string>, s: string)
    requires IsDoc(doc)
    ensures Glue(doc) + "\n" + s == Glue(AppendLine(doc, s)) <==> doc[|doc| - 1] != ""
    ensures s != "" ==> (|LinesOf(doc + [s])| == |LinesOf(doc)| + 1 <==> doc[|doc| - 1] != "")
  {
    LineCount(doc);
    LineCount(doc + [s]);
    if doc[|doc| - 1] == "" {
      GlueLast(doc, s);
      assert |Glue(doc) + "\n" + s| != |Glue(doc) + s|;
    } else {
      GlueSnoc(doc, s);
    }
    hide LinesOf, Glue;
  }

  /* ---- Commands on one file ---- */

  datatype Command =
    | ReadLine(n: nat)
    | ReadAll
    | WriteLine(n: nat, s: string)
    | Append(s: string)

  /** The file after the command, and what readF reports; None for a file that is not there. */
  function Execute(file: Option<string>, c: Command): (Option<string>, string) {
    match c
    case ReadLine(n) => (file, if file.Some? then PartAt(Chunks(file.value, READ_BUFFER - 1), n) else "")
    case ReadAll => (file, if file.Some? then file.value else "")
    case WriteLine(n, s) =>
      var text := if file.Some? then file.value else "";
      (Some(Rewritten(text, n, s)), "")
    case Append(s) => (Some(if file.Some? then file.value + "\n" + s else s), "")
  }

  function Intended(doc: Option<seq<string>>, c: Command): (Option<seq<string>>, string)
    requires doc.Some? ==> doc.value != []
  {
    match c
    case ReadLine(n) => (doc, if doc.Some? then PartAt(LinesOf(doc.value), n) else "")
    case ReadAll => (doc, if doc.Some? then Glue(doc.value) else "")
    case WriteLine(n, s) => (Some(if doc.Some? then InsertLine(doc.value, n, s) else [""]), "")
    case Append(s) => (Some(if doc.Some? then doc.value + [s] else [s]), "")
  }

  /** Strings a command can carry: tokens of less than 50 characters, no newline; and readF only
      on a file that is there. */
  ghost predicate ValidCommand(file: Option<string>, c: Command) {
    match c
    case ReadLine(_) => file.Some?
    case ReadAll => file.Some?
    case WriteLine(_, s) => |s| < 50 && '\n' !in s
    case Append(s) => |s| < 50 && '\n' !in s
  }

  /** The file is these lines, each short enough to stay below 500 characters with its newline. */
  ghost predicate Represents(doc: Option<seq<string>>, file: Option<string>) {
    && (doc.Some? <==> file.Some?)
    && (doc.Some? ==>
          && IsDoc(doc.value) && file.value == Glue(doc.value)
          && forall i :: 0 <= i < |doc.value| ==> |doc.value[i]| < WRITE_BUFFER - 1)
  }

  lemma ShortStretchesShortLines(doc: seq<string>)
    requires doc != [] && forall i :: 0 <= i < |doc| ==> |doc[i]| < WRITE_BUFFER - 1
    ensures AllUpTo(LinesOf(doc), WRITE_BUFFER - 1) && AllUpTo(LinesOf(doc), READ_BUFFER - 1)
  {
    LineCount(doc);
  }

  lemma {:induction false} GlueSnoc(doc: seq<string>, s: string)
    requires doc != []
    ensures Glue(doc + [s]) == Glue(doc) + "\n" + s
  {
    if |doc| == 1 {
      assert (doc + [s])[1..] == [s];
    } else {
      GlueSnoc(doc[1..], s);
      assert (doc + [s])[1..] == doc[1..] + [s];
    }
  }

  lemma InsertKeepsDoc(doc: seq<string>, n: nat, s: string)
    requires IsDoc(doc) && '\n' !in s && |s| < 50
    requires forall i :: 0 <= i < |doc| ==> |doc[i]| < WRITE_BUFFER - 1
    ensures IsDoc(InsertLine(doc, n, s))
    ensures forall i :: 0 <= i < |InsertLine(doc, n, s)| ==> |InsertLine(doc, n, s)[i]| < WRITE_BUFFER - 1
  {
  }

  lemma WriteSimulates(doc: Option<seq<string>>, file: Option<string>, n: nat, s: string)
    requires Represents(doc, file) && ValidCommand(file, WriteLine(n, s))
    ensures Represents(Intended(doc, WriteLine(n, s)).0, Execute(file, WriteLine(n, s)).0)
  {
    if doc.Some? {
      ShortStretchesShortLines(doc.value);
      InsertIsInsertLine(doc.value, n, s);
      InsertKeepsDoc(doc.value, n, s);
      hide LinesOf, Chunks, Concat, Glue, InsertLine;
    } else {
      assert Rewritten("", n, s) == "";
      assert Glue([""]) == "";
    }
  }

  lemma AppendSimulates(doc: Option<seq<string>>, file: Option<string>, s: string)
    requires Represents(doc, file) && ValidCommand(file, Append(s))
    ensures Represents(Intended(doc, Append(s)).0, Execute(file, Append(s)).0)
  {
    if doc.Some? {
      GlueSnoc(doc.value, s);
    }
  }

  /** One command does to its file what it is meant to do to the lines, and reports the same. */
  lemma CommandSimulates(doc: Option<seq<string>>, file: Option<string>, c: Command)
    requires Represents(doc, file) && ValidCommand(file, c)
    ensures Represents(Intended(doc, c).0, Execute(file, c).0) && Intended(doc, c).1 == Execute(file, c).1
  {
    match c
    case ReadLine(_) =>
      ShortStretchesShortLines(doc.value);
      ChunksAreLines(doc.value, READ_BUFFER - 1);
    case ReadAll =>
    case WriteLine(n, s) => WriteSimulates(doc, file, n, s);
    case Append(s) => AppendSimulates(doc, file, s);
  }

  /* ---- Named files ---- */

  /** The file writeT builds its result in. */
  const TEMP := "temp.txt"

  type Disk = map<string, string>

  datatype Request = Request(name: string, command: Command)

  predicate Writes(r: Request) {
    r.command.WriteLine? || r.command.Append?
  }

  function Lookup<T>(files: map<string, T>, name: string): Option<T> {
    if name in files then Some(files[name]) else None
  }

  /** What a request does: a written file takes the place of its old content, and of temp.txt. A
      request to write temp.txt itself only loses it. */
  function Serve(disk: Disk, r: Request): (Disk, string) {
    var (file, report) := Execute(Lookup(disk, r.name), r.command);
    if !Writes(r) then (disk, report)
    else if r.name == TEMP then (disk - {TEMP}, report)
    else ((disk - {TEMP})[r.name := file.value], report)
  }

  /** The server's directory, as writeT and readF change it through stdio. */
  class Directory {
    var files: Disk

    constructor (files: Disk)
      ensures this.files == files
    {
      this.files := files;
    }

    method Remove(name: string)
      modifies this
      ensures files == old(files) - {name}
    {
      files := files - {name};
    }

    /** Fails, changing nothing, when there is no such file. */
    method Rename(from: string, to: string)
      modifies this
      ensures files == if from in old(files) then (old(files) - {from})[to := old(files)[from]] else old(files)
    {
      if from in files {
        var text := files[from];
        files := (files - {from})[to := text];
      }
    }

    /** readF, with or without a line number; None for a file that is not there. */
    method ReadF(name: string, n: Option<nat>) returns (report: Option<string>)
      ensures report == if name in files then
          Some(Serve(files, Request(name, if n.Some? then ReadLine(n.value) else ReadAll)).1)
        else None
    {
      hide Chunks;
      if name !in files {
        return None;
      }
      var out: string;
      if n.Some? {
        out := ReadLineLoop(files[name], n.value);
      } else {
        out := ReadAllLoop(files[name]);
      }
      report := Some(out);
    }

    /** The opening part of writeT: what is open for reading, and temp.txt empty. */
    method OpenBoth(name: string) returns (existed: bool, text: string)
      modifies this
      ensures existed == (name in old(files)) && files - {name, TEMP} == old(files) - {name, TEMP}
      ensures text == if existed && name != TEMP then old(files)[name] else ""
    {
      existed := name in files;
      files := files[TEMP := ""];
      if !existed {
        files := files[name := ""];
      }
      text := files[name];
    }

    /** The closing part: temp.txt is written, the file removed, and temp.txt renamed to it. */
    method PutInPlace(name: string, out: string)
      modifies this
      ensures files == if name == TEMP then old(files) - {TEMP} else (old(files) - {name, TEMP})[name := out]
    {
      files := files[TEMP := out];
      Remove(name);
      Rename(TEMP, name);
    }

    /** writeT, with or without a line number. */
    method WriteT(name: string, n: Option<nat>, s: string)
      modifies this
      ensures files == Serve(old(files), Request(name, if n.Some? then WriteLine(n.value, s) else Append(s))).0
    {
      hide Rewritten;
      var existed, text := OpenBoth(name);
      var out: string;
      if n.Some? {
        out := InsertLoop(text, n.value, s);
      } else {
        out := AppendLoop(if existed then Some(text) else None, s);
      }
      SameOthers(old(files), files, name, out);
      PutInPlace(name, out);
    }

    static lemma SameOthers(before: Disk, prepared: Disk, name: string, out: string)
      requires prepared - {name, TEMP} == before - {name, TEMP}
      ensures name == TEMP ==> prepared - {TEMP} == before - {TEMP}
      ensures (prepared - {name, TEMP})[name := out] == (before - {TEMP})[name := out]
    {
      if name == TEMP {
        assert {name, TEMP} == {TEMP};
      }
    }
  }

  /** The same for lists of lines, where no file but the named one matters. */
  function Meant(docs: map<string, seq<string>>, r: Request): (map<string, seq<string>>, string)
    requires forall name :: name in docs ==> docs[name] != []
  {
    var (doc, report) := Intended(Lookup(docs, r.name), r.command);
    if Writes(r) then (docs[r.name := doc.value], report) else (docs, report)
  }

  /** The files other than temp.txt are these lists of lines. */
  ghost predicate Agree(docs: map<string, seq<string>>, disk: Disk) {
    && (forall name :: name in docs ==> docs[name] != [])
    && (forall name :: name != TEMP ==> Represents(Lookup(docs, name), Lookup(disk, name)))
  }

  ghost predicate ValidRequest(disk: Disk, r: Request) {
    ValidCommand(Lookup(disk, r.name), r.command)
  }

  lemma OthersStay(disk: Disk, r: Request, name: string)
    requires name != r.name && name != TEMP
    ensures Lookup(Serve(disk, r).0, name) == Lookup(disk, name)
  {
  }

  /** Any request leaves what is meant in all files other than temp.txt, and reports what is meant
      unless it reads temp.txt. */
  lemma RequestSimulates(docs: map<string, seq<string>>, disk: Disk, r: Request)
    requires Agree(docs, disk) && ValidRequest(disk, r)
    ensures Agree(Meant(docs, r).0, Serve(disk, r).0)
    ensures r.name != TEMP || Writes(r) ==> Meant(docs, r).1 == Serve(disk, r).1
  {
    if Writes(r) {
      NothingReported(docs, disk, r);
    }
    hide Represents, Execute, Intended, ValidCommand;
    if r.name != TEMP {
      CommandSimulates(Lookup(docs, r.name), Lookup(disk, r.name), r.command);
    }
    if Writes(r) {
      WritesLeaveAFile(docs, disk, r);
    }
    forall name | name != TEMP
      ensures Represents(Lookup(Meant(docs, r).0, name), Lookup(Serve(disk, r).0, name))
    {
      if name != r.name {
        OthersStay(disk, r, name);
      }
    }
  }

  lemma NothingReported(docs: map<string, seq<string>>, disk: Disk, r: Request)
    requires Agree(docs, disk) && Writes(r)
    ensures Meant(docs, r).1 == Serve(disk, r).1 == ""
  {
    hide Rewritten;
  }

  lemma WritesLeaveAFile(docs: map<string, seq<string>>, disk: Disk, r: Request)
    requires Agree(docs, disk) && Writes(r)
    ensures Execute(Lookup(disk, r.name), r.command).0.Some?
    ensures Intended(Lookup(docs, r.name), r.command).0.Some?
    ensures Intended(Lookup(docs, r.name), r.command).0.value != []
  {
  }

  /** A request to write puts the meant lines into the named file exactly when that is not temp.txt. */
  lemma WritesExactlyElsewhere(docs: map<string, seq<string>>, disk: Disk, r: Request)
    requires Agree(docs, disk) && ValidRequest(disk, r) && Writes(r)
    ensures Represents(Lookup(Meant(docs, r).0, r.name), Lookup(Serve(disk, r).0, r.name)) <==> r.name != TEMP
    ensures TEMP !in Serve(disk, r).0
  {
    WritesLeaveAFile(docs, disk, r);
    if r.name != TEMP {
      RequestSimulates(docs, disk, r);
    }
    hide Execute, Intended;
  }

  /** A file temp.txt with one line is gone after a line is appended to it, or to any other file. */
  lemma TempIsLost()
    ensures Serve(map["temp.txt" := "one"], Request("temp.txt", Append("two"))).0 == map[]
    ensures Serve(map["temp.txt" := "one"], Request("f", Append("two"))).0 == map["f" := "two"]
  {
    assert "f"[0] != TEMP[0];
  }

  /** The files and the reports after a run of requests. */
  function ServeAll(disk: Disk, requests: seq<Request>): (Disk, seq<string>) {
    if requests == [] then (disk, []) else
      var (before, reports) := ServeAll(disk, requests[..|requests| - 1]);
      var (after, report) := Serve(before, requests[|requests| - 1]);
      (after, reports + [report])
  }

  function MeantAll(docs: map<string, seq<string>>, requests: seq<Request>)
      : (r: (map<string, seq<string>>, seq<string>))
    requires forall name :: name in docs ==> docs[name] != []
    ensures forall name :: name in r.0 ==> r.0[name] != []
  {
    if requests == [] then (docs, []) else
      var (before, reports) := MeantAll(docs, requests[..|requests| - 1]);
      var (after, report) := Meant(before, requests[|requests| - 1]);
      (after, reports + [report])
  }

  ghost predicate ValidRun(disk: Disk, requests: seq<Request>) {
    forall k :: 0 <= k < |requests| ==> ValidRequest(ServeAll(disk, requests[..k]).0, requests[k])
  }

  /** Any run of valid requests agrees with the lists of lines in all files other than temp.txt, and in
      all reports but those from temp.txt. */
  lemma {:induction false} RunSimulates(docs: map<string, seq<string>>, disk: Disk, requests: seq<Request>)
    requires Agree(docs, disk) && ValidRun(disk, requests)
    ensures Agree(MeantAll(docs, requests).0, ServeAll(disk, requests).0)
    ensures |MeantAll(docs, requests).1| == |ServeAll(disk, requests).1| == |requests|
    ensures forall k :: 0 <= k < |requests| && (requests[k].name != TEMP || Writes(requests[k])) ==>
              MeantAll(docs, requests).1[k] == ServeAll(disk, requests).1[k]
  {
    hide Represents, Serve, Meant, Agree, ValidRequest;
    if requests != [] {
      var before, r := requests[..|requests| - 1], requests[|requests| - 1];
      ValidBefore(disk, requests);
      hide ValidRun;
      NonEmptyDocs(docs, disk);
      RunSimulates(docs, disk, before);
      var lines, files := MeantAll(docs, before), ServeAll(disk, before);
      RequestSimulates(lines.0, files.0, r);
      assert MeantAll(docs, requests).1 == lines.1 + [Meant(lines.0, r).1];
      assert ServeAll(disk, requests).1 == files.1 + [Serve(files.0, r).1];
      assert MeantAll(docs, requests).0 == Meant(lines.0, r).0 && ServeAll(disk, requests).0 == Serve(files.0, r).0;
      hide MeantAll, ServeAll;
      assert forall k :: 0 <= k < |before| ==> before[k] == requests[k];
    }
  }

  lemma ValidBefore(disk: Disk, requests: seq<Request>)
    requires ValidRun(disk, requests) && requests != []
    ensures var n := |requests| - 1;
            ValidRun(disk, requests[..n]) && ValidRequest(ServeAll(disk, requests[..n]).0, requests[n])
  {
    hide ServeAll, ValidRequest;
    var before := requests[..|requests| - 1];
    forall k | 0 <= k < |before|
      ensures ValidRequest(ServeAll(disk, before[..k]).0, before[k])
    {
      assert before[..k] == requests[..k];
    }
  }

  lemma NonEmptyDocs(docs: map<string, seq<string>>, disk: Disk)
    requires Agree(docs, disk)
    ensures forall name :: name in docs ==> docs[name] != []
  {
  }

  /** What readF reports from a file of these lines. */
  lemma ReadsItsLine(doc: seq<string>, file: string, k: nat)
    requires Represents(Some(doc), Some(file))
    ensures Execute(Some(file), ReadLine(k)).1 == PartAt(LinesOf(doc), k)
  {
    CommandSimulates(Some(doc), Some(file), ReadLine(k));
  }

  /** After inserting s at line n of a file, reading n gives s and a newline, lines above are as they
      were and the others moved down by one; any other n leaves the file as it was. Other files, but
      temp.txt, stay as they were. */
  lemma InsertThenRead(doc: seq<string>, disk: Disk, name: string, n: nat, s: string, k: nat)
    requires name in disk && name != TEMP
    requires Represents(Some(doc), Some(disk[name])) && ValidCommand(None, WriteLine(n, s))
    ensures var after := Serve(disk, Request(name, WriteLine(n, s))).0;
            if 1 <= n <= LineTotal(doc) then
              Serve(after, Request(name, ReadLine(k))).1 ==
                if k == n then s + "\n"
                else if k < n then Serve(disk, Request(name, ReadLine(k))).1
                else Serve(disk, Request(name, ReadLine(k - 1))).1
            else Lookup(after, name) == Lookup(disk, name)
    ensures forall other :: other != name && other != TEMP ==>
              Lookup(Serve(disk, Request(name, WriteLine(n, s))).0, other) == Lookup(disk, other)
  {
    hide Execute, Represents, LinesOf, ValidCommand;
    var file := disk[name];
    var after := Execute(Some(file), WriteLine(n, s)).0;
    WrittenFile(doc, file, n, s);
    ReadsItsLine(InsertLine(doc, n, s), after.value, k);
    ReadsItsLine(doc, file, k);
    if k > 0 {
      ReadsItsLine(doc, file, k - 1);
    }
    LinesOfInsert(doc, n, s);
    LineCount(doc);
  }

  lemma WrittenFile(doc: seq<string>, file: string, n: nat, s: string)
    requires Represents(Some(doc), Some(file)) && ValidCommand(None, WriteLine(n, s))
    ensures InsertLine(doc, n, s) != [] && Execute(Some(file), WriteLine(n, s)).0.Some?
    ensures Represents(Some(InsertLine(doc, n, s)), Some(Execute(Some(file), WriteLine(n, s)).0.value))
    ensures InsertLine(doc, n, s) == doc ==> Execute(Some(file), WriteLine(n, s)).0 == Some(file)
  {
    WriteSimulates(Some(doc), Some(file), n, s);
  }
}
