/** What the loader finds in a tree, said by chains of entries and by counting, and what becomes of a
    single file's name (Assignment_04). */
module TreePaths {
  import opened Folds
  import opened DirectoryTree

  /* ---- Chains ---- */

  /** Entries one inside the other, from the top of the tree down: none of them "." or "..", all but
      the last opened directories. */
  ghost predicate Chain(entries: seq<Entry>, chain: seq<Entry>)
    decreases |chain|
  {
    && chain != [] && chain[0] in entries && chain[0].name != "." && chain[0].name != ".."
    && (|chain| > 1 ==>
          chain[0].kind.Directory? && chain[0].kind.opens && Chain(chain[0].kind.entries, chain[1..]))
  }

  /** The names along a chain with slashes in between. */
  function ChainPath(chain: seq<Entry>): string
    requires chain != []
  {
    if |chain| == 1 then chain[0].name else chain[0].name + "/" + ChainPath(chain[1..])
  }

  function Last(chain: seq<Entry>): Entry
    requires chain != []
  {
    chain[|chain| - 1]
  }

  ghost predicate IsFilePath(entries: seq<Entry>, path: string) {
    exists chain :: Chain(entries, chain) && Last(chain).kind.Regular? && ChainPath(chain) == path
  }

  ghost predicate IsDirectoryPath(entries: seq<Entry>, path: string) {
    exists chain :: Chain(entries, chain) && Last(chain).kind.Directory? && ChainPath(chain) == path
  }

  lemma {:induction false} FilesOfEntry(entries: seq<Entry>, j: nat, path: string)
    requires j < |entries| && path in EntryFiles(entries[j])
    ensures path in RegularFiles(entries)
  {
    if j > 0 {
      FilesOfEntry(entries[1..], j - 1, path);
    }
  }

  lemma UnderHas(name: string, paths: seq<string>, path: string)
    requires path in paths
    ensures name + "/" + path in Under(name, paths)
  {
    var i :| 0 <= i < |paths| && paths[i] == path;
    assert Under(name, paths)[i] == name + "/" + path;
  }

  lemma {:induction false} ChainIsFile(entries: seq<Entry>, chain: seq<Entry>)
    requires Chain(entries, chain) && Last(chain).kind.Regular?
    ensures ChainPath(chain) in RegularFiles(entries)
    decreases |chain|
  {
    var e := chain[0];
    var j :| 0 <= j < |entries| && entries[j] == e;
    if |chain| > 1 {
      assert Last(chain[1..]) == Last(chain);
      ChainIsFile(e.kind.entries, chain[1..]);
      UnderHas(e.name, RegularFiles(e.kind.entries), ChainPath(chain[1..]));
    }
    assert ChainPath(chain) in EntryFiles(e);
    FilesOfEntry(entries, j, ChainPath(chain));
  }

  lemma {:induction false} FileHasChain(entries: seq<Entry>, path: string) returns (chain: seq<Entry>)
    requires path in RegularFiles(entries)
    ensures Chain(entries, chain) && Last(chain).kind.Regular? && ChainPath(chain) == path
    decreases entries
  {
    var e := entries[0];
    if path in EntryFiles(e) {
      if e.kind.Regular? {
        chain := [e];
      } else {
        var paths := RegularFiles(e.kind.entries);
        var i :| 0 <= i < |paths| && Under(e.name, paths)[i] == path;
        var inner := FileHasChain(e.kind.entries, paths[i]);
        chain := [e] + inner;
        assert chain[1..] == inner && Last(chain) == Last(inner);
      }
    } else {
      chain := FileHasChain(entries[1..], path);
    }
  }

  /** A path is copied if and only if it joins the names along a chain that ends in a regular file. */
  lemma RegularFilesAreChains(entries: seq<Entry>, path: string)
    ensures path in RegularFiles(entries) <==> IsFilePath(entries, path)
  {
    if path in RegularFiles(entries) {
      var chain := FileHasChain(entries, path);
    } else if IsFilePath(entries, path) {
      var chain :| Chain(entries, chain) && Last(chain).kind.Regular? && ChainPath(chain) == path;
      ChainIsFile(entries, chain);
    }
  }

  lemma {:induction false} DirectoriesOfEntry(src: string, dest: string, entries: seq<Entry>, j: nat, path: string)
    requires j < |entries| && path in DirectoriesOf(EntryOps(src, dest, entries[j]))
    ensures path in DirectoriesOf(LoadOps(src, dest, entries))
  {
    DirectoriesOfConcat(EntryOps(src, dest, entries[0]), LoadOps(src, dest, entries[1..]));
    if j > 0 {
      DirectoriesOfEntry(src, dest, entries[1..], j - 1, path);
    }
  }

  /** The directories of one subdirectory: itself and those inside. */
  lemma EntryDirectories(src: string, dest: string, e: Entry)
    requires e.kind.Directory?
    ensures DirectoriesOf(EntryOps(src, dest, e)) ==
      if Skipped(e.name) then [] else
        [dest + "/" + e.name]
        + if e.kind.opens then DirectoriesOf(LoadOps(src + "/" + e.name, dest + "/" + e.name, e.kind.entries)) else []
  {
    var inner := if e.kind.opens then LoadOps(Join(src, e.name), Join(dest, e.name), e.kind.entries) else [];
    DirectoriesOfConcat([MakeDirectory(Join(dest, e.name))], inner);
    assert DirectoriesOf([MakeDirectory(Join(dest, e.name))]) == [Join(dest, e.name)];
  }

  lemma Below(dest: string, name: string, rest: string)
    ensures dest + "/" + (name + "/" + rest) == dest + "/" + name + "/" + rest
  {
  }

  lemma {:induction false} ChainIsMade(src: string, dest: string, entries: seq<Entry>, chain: seq<Entry>)
    requires Chain(entries, chain) && Last(chain).kind.Directory?
    ensures dest + "/" + ChainPath(chain) in DirectoriesOf(LoadOps(src, dest, entries))
    decreases |chain|
  {
    var e := chain[0];
    var j :| 0 <= j < |entries| && entries[j] == e;
    EntryDirectories(src, dest, e);
    if |chain| > 1 {
      assert Last(chain[1..]) == Last(chain);
      ChainIsMade(src + "/" + e.name, dest + "/" + e.name, e.kind.entries, chain[1..]);
      Below(dest, e.name, ChainPath(chain[1..]));
    }
    hide LoadOps, EntryOps, DirectoriesOf;
    DirectoriesOfEntry(src, dest, entries, j, dest + "/" + ChainPath(chain));
  }

  lemma {:induction false} MadeHasChain(src: string, dest: string, entries: seq<Entry>, path: string)
      returns (chain: seq<Entry>)
    requires path in DirectoriesOf(LoadOps(src, dest, entries))
    ensures Chain(entries, chain) && Last(chain).kind.Directory? && dest + "/" + ChainPath(chain) == path
    decreases entries
  {
    var e := entries[0];
    DirectoriesOfConcat(EntryOps(src, dest, e), LoadOps(src, dest, entries[1..]));
    if path in DirectoriesOf(EntryOps(src, dest, e)) {
      EntryDirectories(src, dest, e);
      if path == dest + "/" + e.name {
        chain := [e];
      } else {
        var inner := MadeHasChain(src + "/" + e.name, dest + "/" + e.name, e.kind.entries, path);
        chain := [e] + inner;
        assert chain[1..] == inner && Last(chain) == Last(inner);
        Below(dest, e.name, ChainPath(inner));
      }
    } else {
      chain := MadeHasChain(src, dest, entries[1..], path);
    }
  }

  /** A directory is made if and only if it lies in the destination as a directory at the end of a chain
      lies in the source. */
  lemma MadeDirectoriesAreChains(src: string, dest: string, entries: seq<Entry>, path: string)
    ensures dest + "/" + path in DirectoriesOf(LoadOps(src, dest, entries)) <==> IsDirectoryPath(entries, path)
  {
    if dest + "/" + path in DirectoriesOf(LoadOps(src, dest, entries)) {
      var chain := MadeHasChain(src, dest, entries, dest + "/" + path);
      assert (dest + "/" + ChainPath(chain))[|dest| + 1..] == ChainPath(chain);
      assert (dest + "/" + path)[|dest| + 1..] == path;
    } else if IsDirectoryPath(entries, path) {
      var chain :| Chain(entries, chain) && Last(chain).kind.Directory? && ChainPath(chain) == path;
      ChainIsMade(src, dest, entries, chain);
    }
  }

  /* ---- Counting ---- */

  /** How many entries of a kind the tree shows, not looking into directories that do not open. */
  function Tally(entries: seq<Entry>, counted: Kind -> bool): nat
    decreases entries
  {
    if entries == [] then 0
    else EntryTally(entries[0], counted) + Tally(entries[1..], counted)
  }

  function EntryTally(e: Entry, counted: Kind -> bool): nat
    decreases e
  {
    if e.name == "." || e.name == ".." then 0
    else
      (if counted(e.kind) then 1 else 0)
      + match e.kind
        case Directory(opens, entries) => if opens then Tally(entries, counted) else 0
        case _ => 0
  }

  /** The statistics of a load: each counter is the number of entries of its kind. */
  lemma {:induction false} LoadCounts(src: string, dest: string, entries: seq<Entry>)
    ensures var ops := LoadOps(src, dest, entries);
            && |TasksOf(ops)| == Tally(entries, (k: Kind) => k.Regular?)
            && |DirectoriesOf(ops)| == Tally(entries, (k: Kind) => k.Directory?)
            && multiset(ops)[CountLink] == Tally(entries, (k: Kind) => k.SymbolicLink?)
            && multiset(ops)[CountFifo] == Tally(entries, (k: Kind) => k.Fifo?)
    decreases entries
  {
    if entries != [] {
      var first, rest := EntryOps(src, dest, entries[0]), LoadOps(src, dest, entries[1..]);
      EntryCounts(src, dest, entries[0]);
      LoadCounts(src, dest, entries[1..]);
      TasksOfConcat(first, rest);
      DirectoriesOfConcat(first, rest);
      hide EntryOps, EntryTally, TasksOf, DirectoriesOf;
      assert multiset(first + rest) == multiset(first) + multiset(rest);
    }
  }

  lemma {:induction false} EntryCounts(src: string, dest: string, e: Entry)
    ensures var ops := EntryOps(src, dest, e);
            && |TasksOf(ops)| == EntryTally(e, (k: Kind) => k.Regular?)
            && |DirectoriesOf(ops)| == EntryTally(e, (k: Kind) => k.Directory?)
            && multiset(ops)[CountLink] == EntryTally(e, (k: Kind) => k.SymbolicLink?)
            && multiset(ops)[CountFifo] == EntryTally(e, (k: Kind) => k.Fifo?)
    decreases e
  {
    if !Skipped(e.name) && e.kind.Directory? {
      var first := [MakeDirectory(Join(dest, e.name))];
      var inner := if e.kind.opens then LoadOps(Join(src, e.name), Join(dest, e.name), e.kind.entries) else [];
      if e.kind.opens {
        LoadCounts(Join(src, e.name), Join(dest, e.name), e.kind.entries);
      }
      TasksOfConcat(first, inner);
      DirectoriesOfConcat(first, inner);
      assert DirectoriesOf(first) == [Join(dest, e.name)] && TasksOf(first) == [];
      assert EntryOps(src, dest, e) == first + inner;
      assert multiset(first + inner) == multiset(first) + multiset(inner);
      hide LoadOps, Tally;
    }
  }

  /* ---- Base names ---- */

  /** The path of a file in a directory. */
  predicate NamedIn(path: string, dir: string, name: string) {
    '/' !in name && path == dir + "/" + name
  }

  /** A slash-free name behind any directory is the base name. */
  lemma BaseNameOfJoin(path: string, dir: string, name: string)
    requires NamedIn(path, dir, name)
    ensures BaseName(path) == name
  {
    ParentOfJoin(dir, name);
    assert Join(dir, name) == dir + "/" + name && (dir + "/" + name)[|dir|] == '/';
    assert (dir + "/" + name)[|dir| + 1..] == name;
  }

  /** A path without a slash is its own. */
  lemma BaseNameAlone(path: string)
    requires '/' !in path
    ensures BaseName(path) == path
  {
  }
}
