/** Source trees, their paths, and copying one by one (Assignment_04): what the loader does with a
    directory, and the sequential copy the workers are measured against. */
module DirectoryTree {
  import opened Folds

  type Bytes = seq<bv8>

  /** One directory entry as readdir gives it. A directory that cannot be opened is still made on
      the other side. */
  datatype Entry = Entry(name: string, kind: Kind)
  datatype Kind =
    | Directory(opens: bool, entries: seq<Entry>)
    | Regular
    | SymbolicLink
    | Fifo
    | Other

  datatype FileTask = FileTask(src: string, dest: string)

  /** What loading does, in order. */
  datatype Op = MakeDirectory(path: string) | AddTask(task: FileTask) | CountLink | CountFifo

  function Join(dir: string, name: string): string {
    dir + "/" + name
  }

  predicate Skipped(name: string) {
    name == "." || name == ".."
  }

  /** The operations of one directory, in readdir order, each subdirectory right after its mkdir. */
  function LoadOps(src: string, dest: string, entries: seq<Entry>): seq<Op>
    decreases entries
  {
    if entries == [] then []
    else EntryOps(src, dest, entries[0]) + LoadOps(src, dest, entries[1..])
  }

  function EntryOps(src: string, dest: string, e: Entry): seq<Op>
    decreases e
  {
    if Skipped(e.name) then [] else
      match e.kind
      case Directory(opens, entries) =>
        [MakeDirectory(Join(dest, e.name))]
        + if opens then LoadOps(Join(src, e.name), Join(dest, e.name), entries) else []
      case Regular => [AddTask(FileTask(Join(src, e.name), Join(dest, e.name)))]
      case SymbolicLink => [CountLink]
      case Fifo => [CountFifo]
      case Other => []
  }

  function TasksOf(ops: seq<Op>): seq<FileTask> {
    if ops == [] then []
    else (if ops[0].AddTask? then [ops[0].task] else []) + TasksOf(ops[1..])
  }

  lemma {:induction false} TasksOfConcat(a: seq<Op>, b: seq<Op>)
    ensures TasksOf(a + b) == TasksOf(a) + TasksOf(b)
  {
    if a == [] {
      assert a + b == b;
    } else {
      TasksOfConcat(a[1..], b);
      assert (a + b)[1..] == a[1..] + b;
    }
  }

  function DirectoriesOf(ops: seq<Op>): seq<string> {
    if ops == [] then []
    else (if ops[0].MakeDirectory? then [ops[0].path] else []) + DirectoriesOf(ops[1..])
  }

  lemma {:induction false} DirectoriesOfConcat(a: seq<Op>, b: seq<Op>)
    ensures DirectoriesOf(a + b) == DirectoriesOf(a) + DirectoriesOf(b)
  {
    if a == [] {
      assert a + b == b;
    } else {
      DirectoriesOfConcat(a[1..], b);
      assert (a + b)[1..] == a[1..] + b;
    }
  }

  /** One more entry read, one more entry's operations. */
  lemma {:induction false} LoadOpsSnoc(src: string, dest: string, entries: seq<Entry>, i: nat)
    requires i < |entries|
    ensures LoadOps(src, dest, entries[..i + 1]) == LoadOps(src, dest, entries[..i]) + EntryOps(src, dest, entries[i])
  {
    if i == 0 {
      assert entries[..1] == [entries[0]] && entries[..0] == [];
      assert LoadOps(src, dest, []) == [];
    } else {
      LoadOpsSnoc(src, dest, entries[1..], i - 1);
      assert entries[..i + 1][1..] == entries[1..][..i];
      assert entries[..i][1..] == entries[1..][..i - 1];
    }
  }

  /* ---- The regular files of a tree, by relative path, depth first ---- */

  function RegularFiles(entries: seq<Entry>): seq<string>
    decreases entries
  {
    if entries == [] then [] else EntryFiles(entries[0]) + RegularFiles(entries[1..])
  }

  function EntryFiles(e: Entry): seq<string>
    decreases e
  {
    if Skipped(e.name) then [] else
      match e.kind
      case Directory(opens, entries) => if opens then Under(e.name, RegularFiles(entries)) else []
      case Regular => [e.name]
      case _ => []
  }

  /** The same paths, one directory further out. */
  function Under(name: string, paths: seq<string>): seq<string> {
    seq(|paths|, i requires 0 <= i < |paths| => Join(name, paths[i]))
  }

  /** One copy per relative path, with the same path on both sides. */
  function TasksFor(src: string, dest: string, paths: seq<string>): seq<FileTask> {
    seq(|paths|, i requires 0 <= i < |paths| => FileTask(Join(src, paths[i]), Join(dest, paths[i])))
  }

  lemma JoinJoin(dir: string, name: string, path: string)
    ensures Join(Join(dir, name), path) == Join(dir, Join(name, path))
  {
    assert dir + "/" + name + "/" + path == dir + "/" + (name + "/" + path);
  }

  lemma TasksForUnder(src: string, dest: string, name: string, paths: seq<string>)
    ensures TasksFor(src, dest, Under(name, paths)) == TasksFor(Join(src, name), Join(dest, name), paths)
  {
    forall i | 0 <= i < |paths|
      ensures TasksFor(src, dest, Under(name, paths))[i] == TasksFor(Join(src, name), Join(dest, name), paths)[i]
    {
      JoinJoin(src, name, paths[i]);
      JoinJoin(dest, name, paths[i]);
    }
  }

  /** The loader's tasks are the regular files of the tree, depth first, each with the same
      relative path on both sides. */
  lemma {:induction false} TasksAreRegularFiles(src: string, dest: string, entries: seq<Entry>)
    ensures TasksOf(LoadOps(src, dest, entries)) == TasksFor(src, dest, RegularFiles(entries))
    decreases entries
  {
    if entries != [] {
      EntryTasksAreFiles(src, dest, entries[0]);
      TasksAreRegularFiles(src, dest, entries[1..]);
      TasksOfConcat(EntryOps(src, dest, entries[0]), LoadOps(src, dest, entries[1..]));
    }
  }

  lemma {:induction false} EntryTasksAreFiles(src: string, dest: string, e: Entry)
    ensures TasksOf(EntryOps(src, dest, e)) == TasksFor(src, dest, EntryFiles(e))
    decreases e
  {
    if !Skipped(e.name) && e.kind.Directory? && e.kind.opens {
      TasksAreRegularFiles(Join(src, e.name), Join(dest, e.name), e.kind.entries);
      TasksForUnder(src, dest, e.name, RegularFiles(e.kind.entries));
      assert EntryOps(src, dest, e)[1..] == LoadOps(Join(src, e.name), Join(dest, e.name), e.kind.entries);
    }
  }

  /* ---- Distinct paths ---- */

  /** Names as a file system has them: siblings differ, no name is empty or holds a slash. */
  predicate WellNamed(entries: seq<Entry>)
    decreases entries
  {
    && (forall i, j :: 0 <= i < j < |entries| ==> entries[i].name != entries[j].name)
    && (forall i :: 0 <= i < |entries| ==> WellNamedEntry(entries[i]))
  }

  predicate WellNamedEntry(e: Entry)
    decreases e
  {
    e.name != "" && '/' !in e.name && (e.kind.Directory? ==> WellNamed(e.kind.entries))
  }

  function FirstComponent(path: string): string {
    if path == "" || path[0] == '/' then "" else [path[0]] + FirstComponent(path[1..])
  }

  lemma {:induction false} FirstOfJoin(name: string, path: string)
    requires '/' !in name
    ensures FirstComponent(Join(name, path)) == name && FirstComponent(name) == name
  {
    if name == "" {
      assert Join(name, path)[0] == '/';
    } else {
      FirstOfJoin(name[1..], path);
      assert Join(name, path)[1..] == Join(name[1..], path);
      assert name == [name[0]] + name[1..];
    }
  }

  lemma {:induction false} FilesStartWithName(e: Entry, k: nat)
    requires WellNamedEntry(e) && k < |EntryFiles(e)|
    ensures FirstComponent(EntryFiles(e)[k]) == e.name
  {
    if e.kind.Directory? {
      FirstOfJoin(e.name, RegularFiles(e.kind.entries)[k]);
    } else {
      FirstOfJoin(e.name, "");
    }
  }

  /** Every relative path starts with the name of one of the entries. */
  lemma {:induction false} FilesStartWithSomeName(entries: seq<Entry>, k: nat) returns (i: nat)
    requires WellNamed(entries) && k < |RegularFiles(entries)|
    ensures i < |entries| && FirstComponent(RegularFiles(entries)[k]) == entries[i].name
  {
    var first := EntryFiles(entries[0]);
    if k < |first| {
      FilesStartWithName(entries[0], k);
      i := 0;
    } else {
      var j := FilesStartWithSomeName(entries[1..], k - |first|);
      i := j + 1;
    }
  }

  lemma JoinInjective(dir: string, a: string, b: string)
    requires Join(dir, a) == Join(dir, b)
    ensures a == b
  {
    assert Join(dir, a)[|dir| + 1..] == a;
    assert Join(dir, b)[|dir| + 1..] == b;
  }

  /** No two regular files of a tree have the same relative path. */
  lemma {:induction false} RegularFilesDistinct(entries: seq<Entry>)
    requires WellNamed(entries)
    ensures Distinct(RegularFiles(entries))
    decreases entries
  {
    if entries != [] {
      var first, rest := EntryFiles(entries[0]), RegularFiles(entries[1..]);
      EntryFilesDistinct(entries[0]);
      RegularFilesDistinct(entries[1..]);
      forall i: nat, j: nat | i < |first| && j < |rest|
        ensures first[i] != rest[j]
      {
        FilesStartWithName(entries[0], i);
        var k := FilesStartWithSomeName(entries[1..], j);
        assert entries[1..][k] == entries[k + 1];
      }
    }
  }

  lemma {:induction false} EntryFilesDistinct(e: Entry)
    requires WellNamedEntry(e)
    ensures Distinct(EntryFiles(e))
    decreases e
  {
    if !Skipped(e.name) && e.kind.Directory? && e.kind.opens {
      var paths := RegularFiles(e.kind.entries);
      RegularFilesDistinct(e.kind.entries);
      forall i, j | 0 <= i < j < |paths|
        ensures Under(e.name, paths)[i] != Under(e.name, paths)[j]
      {
        if Join(e.name, paths[i]) == Join(e.name, paths[j]) {
          JoinInjective(e.name, paths[i], paths[j]);
        }
      }
    }
  }

  /* ---- Directories before their contents ---- */

  function Parent(path: string): string {
    if path == "" then ""
    else if path[|path| - 1] == '/' then path[..|path| - 1]
    else Parent(path[..|path| - 1])
  }

  lemma {:induction false} ParentOfJoin(dir: string, name: string)
    requires '/' !in name
    ensures Parent(Join(dir, name)) == dir
  {
    var path := Join(dir, name);
    if name == "" {
      assert path[..|path| - 1] == dir;
    } else {
      var shorter := name[..|name| - 1];
      ParentOfJoin(dir, shorter);
      assert path[..|path| - 1] == Join(dir, shorter);
      assert path[|path| - 1] == name[|name| - 1];
    }
  }

  predicate Writes(op: Op) {
    op.MakeDirectory? || op.AddTask?
  }

  /** The directory an operation writes in. */
  function Place(op: Op): string
    requires Writes(op)
  {
    Parent(if op.MakeDirectory? then op.path else op.task.dest)
  }

  ghost predicate Made(ops: seq<Op>, n: nat, dir: string) {
    exists j :: 0 <= j < n && j < |ops| && ops[j] == MakeDirectory(dir)
  }

  /** Each operation works inside the root or inside a directory an earlier operation made. */
  ghost predicate ParentsFirst(root: string, ops: seq<Op>) {
    forall i :: 0 <= i < |ops| && Writes(ops[i]) ==> Place(ops[i]) == root || Made(ops, i, Place(ops[i]))
  }

  lemma ParentsFirstConcat(root: string, a: seq<Op>, b: seq<Op>)
    requires ParentsFirst(root, a) && ParentsFirst(root, b)
    ensures ParentsFirst(root, a + b)
  {
    var ops := a + b;
    forall i | 0 <= i < |ops| && Writes(ops[i]) && Place(ops[i]) != root
      ensures Made(ops, i, Place(ops[i]))
    {
      var dir := Place(ops[i]);
      if i < |a| {
        var j :| 0 <= j < i && j < |a| && a[j] == MakeDirectory(dir);
        assert ops[j] == MakeDirectory(dir);
      } else {
        assert ops[i] == b[i - |a|];
        var j :| 0 <= j < i - |a| && j < |b| && b[j] == MakeDirectory(dir);
        assert ops[|a| + j] == MakeDirectory(dir);
      }
    }
  }

  lemma ParentsFirstInside(root: string, dir: string, inner: seq<Op>)
    requires Parent(dir) == root && ParentsFirst(dir, inner)
    ensures ParentsFirst(root, [MakeDirectory(dir)] + inner)
  {
    hide Parent;
    var ops := [MakeDirectory(dir)] + inner;
    assert ops[0] == MakeDirectory(dir);
    forall i | 0 < i < |ops| && Writes(ops[i]) && Place(ops[i]) != dir
      ensures Made(ops, i, Place(ops[i]))
    {
      var p := Place(inner[i - 1]);
      var j :| 0 <= j < i - 1 && j < |inner| && inner[j] == MakeDirectory(p);
      assert ops[j + 1] == MakeDirectory(p);
    }
  }

  /** Every file's parent directory, and every directory's, is made before it is used. */
  lemma {:induction false} DirectoriesMadeFirst(src: string, dest: string, entries: seq<Entry>)
    requires WellNamed(entries)
    ensures ParentsFirst(dest, LoadOps(src, dest, entries))
    decreases entries
  {
    if entries != [] {
      EntryDirectoriesFirst(src, dest, entries[0]);
      DirectoriesMadeFirst(src, dest, entries[1..]);
      ParentsFirstConcat(dest, EntryOps(src, dest, entries[0]), LoadOps(src, dest, entries[1..]));
    }
  }

  lemma {:induction false} EntryDirectoriesFirst(src: string, dest: string, e: Entry)
    requires WellNamedEntry(e)
    ensures ParentsFirst(dest, EntryOps(src, dest, e))
    decreases e
  {
    ParentOfJoin(dest, e.name);
    if !Skipped(e.name) && e.kind.Directory? {
      var dir := Join(dest, e.name);
      if e.kind.opens {
        DirectoriesMadeFirst(Join(src, e.name), dir, e.kind.entries);
        ParentsFirstInside(dest, dir, LoadOps(Join(src, e.name), dir, e.kind.entries));
      } else {
        ParentsFirstInside(dest, dir, []);
      }
    }
  }

  /** The name strrchr finds behind the last slash; the whole path when there is none. */
  function BaseName(path: string): string {
    if '/' in path then ParentAndBaseName(path); path[|Parent(path)| + 1..] else path
  }

  /** A path with a slash is its parent joined with a slash-free base name. */
  lemma {:induction false} ParentAndBaseName(path: string)
    requires '/' in path
    ensures |Parent(path)| < |path|
    ensures '/' !in path[|Parent(path)| + 1..]
    ensures path == Join(Parent(path), path[|Parent(path)| + 1..])
  {
    var n := |path| - 1;
    if path[n] == '/' {
      assert path == path[..n] + "/" + path[n + 1..];
    } else {
      assert path == path[..n] + [path[n]];
      var shorter := path[..n];
      ParentAndBaseName(shorter);
      var k := |Parent(path)| + 1;
      assert path[k..] == shorter[k..] + [path[n]];
    }
  }

  /* ---- Sequential copying ---- */

  type Files = map<string, Bytes>

  function CopyOne(files: Files, task: FileTask): Files {
    if task.src in files then files[task.dest := files[task.src]] else files
  }

  function CopyAll(files: Files, tasks: seq<FileTask>): Files {
    if tasks == [] then files
    else CopyOne(CopyAll(files, tasks[..|tasks| - 1]), tasks[|tasks| - 1])
  }

  /** A recursive copy of the tree, entry by entry, each file read when its turn comes. */
  function CopyTree(src: string, dest: string, entries: seq<Entry>, files: Files): Files
    decreases entries
  {
    if entries == [] then files
    else CopyTree(src, dest, entries[1..], CopyEntry(src, dest, entries[0], files))
  }

  function CopyEntry(src: string, dest: string, e: Entry, files: Files): Files
    decreases e
  {
    if Skipped(e.name) then files else
      match e.kind
      case Directory(opens, entries) =>
        if opens then CopyTree(Join(src, e.name), Join(dest, e.name), entries, files) else files
      case Regular => CopyOne(files, FileTask(Join(src, e.name), Join(dest, e.name)))
      case _ => files
  }

  lemma {:induction false} CopyAllConcat(files: Files, a: seq<FileTask>, b: seq<FileTask>)
    ensures CopyAll(files, a + b) == CopyAll(CopyAll(files, a), b)
  {
    if b == [] {
      assert a + b == a;
    } else {
      CopyAllConcat(files, a, b[..|b| - 1]);
      assert (a + b)[..|a + b| - 1] == a + b[..|b| - 1];
    }
  }

  /** The recursive copy does the loader's tasks in order. */
  lemma {:induction false} CopyTreeDoesTheTasks(src: string, dest: string, entries: seq<Entry>, files: Files)
    ensures CopyTree(src, dest, entries, files) == CopyAll(files, TasksOf(LoadOps(src, dest, entries)))
    decreases entries
  {
    if entries != [] {
      var first, rest := EntryOps(src, dest, entries[0]), LoadOps(src, dest, entries[1..]);
      CopyEntryDoesTheTasks(src, dest, entries[0], files);
      CopyTreeDoesTheTasks(src, dest, entries[1..], CopyAll(files, TasksOf(first)));
      TasksOfConcat(first, rest);
      CopyAllConcat(files, TasksOf(first), TasksOf(rest));
    }
  }

  lemma {:induction false} CopyEntryDoesTheTasks(src: string, dest: string, e: Entry, files: Files)
    ensures CopyEntry(src, dest, e, files) == CopyAll(files, TasksOf(EntryOps(src, dest, e)))
    decreases e
  {
    if !Skipped(e.name) {
      var inSrc, inDest := Join(src, e.name), Join(dest, e.name);
      if e.kind.Directory? {
        var inner := if e.kind.opens then LoadOps(inSrc, inDest, e.kind.entries) else [];
        TasksOfConcat([MakeDirectory(inDest)], inner);
        assert TasksOf([MakeDirectory(inDest)] + inner) == TasksOf(inner);
        if e.kind.opens {
          CopyTreeDoesTheTasks(inSrc, inDest, e.kind.entries, files);
        }
      } else if e.kind.Regular? {
        var task := FileTask(inSrc, inDest);
        assert [task][..0] == [];
        assert CopyAll(files, [task]) == CopyOne(CopyAll(files, []), task);
      }
    }
  }

  /* ---- What the sequential copy leaves ---- */

  /** No two tasks share a destination, and none writes what another reads. */
  ghost predicate Independent(tasks: seq<FileTask>) {
    && (forall i, j :: 0 <= i < j < |tasks| ==> tasks[i].dest != tasks[j].dest)
    && (forall i, j :: 0 <= i < |tasks| && 0 <= j < |tasks| ==> tasks[i].src != tasks[j].dest)
  }

  ghost predicate SourcesExist(tasks: seq<FileTask>, files: Files) {
    forall i :: 0 <= i < |tasks| ==> tasks[i].src in files
  }

  ghost predicate IsDest(tasks: seq<FileTask>, path: string) {
    exists i :: 0 <= i < |tasks| && tasks[i].dest == path
  }

  /** Each destination holds its source and every other path is as before. */
  ghost predicate Copied(files: Files, tasks: seq<FileTask>, result: Files) {
    && (forall i :: 0 <= i < |tasks| ==>
          tasks[i].dest in result && tasks[i].src in files && result[tasks[i].dest] == files[tasks[i].src])
    && (forall path :: !IsDest(tasks, path) ==>
          (path in result <==> path in files) && (path in files ==> result[path] == files[path]))
  }

  lemma CopiedOneMore(files: Files, tasks: seq<FileTask>, last: FileTask, result: Files)
    requires Independent(tasks + [last]) && last.src in files && Copied(files, tasks, result)
    ensures Copied(files, tasks + [last], CopyOne(result, last))
  {
    var all := tasks + [last];
    assert all[|tasks|] == last;
    assert forall i :: 0 <= i < |tasks| ==> all[i] == tasks[i];
    assert !IsDest(tasks, last.src);
    forall path | !IsDest(all, path)
      ensures !IsDest(tasks, path) && path != last.dest
    {
      assert forall i :: 0 <= i < |tasks| ==> tasks[i].dest == all[i].dest;
      assert all[|tasks|].dest == last.dest;
    }
  }

  lemma {:induction false} CopyAllResult(files: Files, tasks: seq<FileTask>)
    requires Independent(tasks) && SourcesExist(tasks, files)
    ensures Copied(files, tasks, CopyAll(files, tasks))
  {
    if tasks != [] {
      var before, last := tasks[..|tasks| - 1], tasks[|tasks| - 1];
      CopyAllResult(files, before);
      assert tasks == before + [last];
      CopiedOneMore(files, before, last, CopyAll(files, before));
    }
  }

  /** That description leaves no choice. */
  lemma CopiedIsUnique(files: Files, tasks: seq<FileTask>, a: Files, b: Files)
    requires Copied(files, tasks, a) && Copied(files, tasks, b)
    ensures a == b
  {
    forall path
      ensures path in a <==> path in b
      ensures path in a ==> a[path] == b[path]
    {
      if IsDest(tasks, path) {
        var i :| 0 <= i < |tasks| && tasks[i].dest == path;
      }
    }
    assert a.Keys == b.Keys;
  }

  /** Neither directory lies inside the other. */
  predicate Apart(src: string, dest: string) {
    !(src + "/" <= dest + "/") && !(dest + "/" <= src + "/")
  }

  lemma ApartPaths(src: string, dest: string, a: string, b: string)
    requires Apart(src, dest)
    ensures Join(src, a) != Join(dest, b)
  {
    var p, q := Join(src, a), Join(dest, b);
    if |src| <= |dest| {
      assert p[..|src| + 1] == src + "/" && q[..|src| + 1] == (dest + "/")[..|src| + 1];
    } else {
      assert q[..|dest| + 1] == dest + "/" && p[..|dest| + 1] == (src + "/")[..|dest| + 1];
    }
  }

  /** Copying a well-named tree to a place apart from it takes independent tasks. */
  lemma TasksIndependent(src: string, dest: string, entries: seq<Entry>)
    requires WellNamed(entries) && Apart(src, dest)
    ensures Independent(TasksOf(LoadOps(src, dest, entries)))
  {
    var paths := RegularFiles(entries);
    TasksAreRegularFiles(src, dest, entries);
    RegularFilesDistinct(entries);
    var tasks := TasksFor(src, dest, paths);
    forall i, j | 0 <= i < j < |tasks|
      ensures tasks[i].dest != tasks[j].dest
    {
      if Join(dest, paths[i]) == Join(dest, paths[j]) {
        JoinInjective(dest, paths[i], paths[j]);
      }
    }
    forall i, j | 0 <= i < |tasks| && 0 <= j < |tasks|
      ensures tasks[i].src != tasks[j].dest
    {
      ApartPaths(src, dest, paths[i], paths[j]);
    }
  }
}
