/** The loading half of the copier (Assignment_04): a buffer of tasks that doubles, and the recursive
    walk that fills it. */
module Loader {
  import opened DirectoryTree
  import opened TreePaths

  function Pow2(n: nat): nat {
    if n == 0 then 1 else 2 * Pow2(n - 1)
  }

  /** `SharedBuffer` without its synchronization: no worker runs while it is filled. */
  class TaskBuffer {
    var tasks: array<FileTask>
    var bufferSize: nat
    var numTasks: nat

    ghost const initialSize: nat
    ghost var doublings: nat
    ghost var moved: nat        // tasks moved by all reallocations

    ghost predicate Valid()
      reads this
    {
      && tasks.Length == bufferSize
      && 1 <= initialSize <= bufferSize
      && numTasks <= bufferSize == initialSize * Pow2(doublings)
      && moved == bufferSize - initialSize
      && (bufferSize == initialSize || bufferSize < 2 * numTasks)
    }

    ghost function Contents(): seq<FileTask>
      requires Valid()
      reads this, tasks
    {
      tasks[..numTasks]
    }

    constructor (size: nat)
      requires size >= 1
      ensures Valid() && fresh(tasks) && Contents() == [] && initialSize == size
    {
      tasks := new FileTask[size](_ => FileTask("", ""));
      bufferSize, numTasks := size, 0;
      initialSize, doublings, moved := size, 0, 0;
    }

    method Add(src: string, dest: string)
      requires Valid()
      modifies this, tasks
      ensures Valid() && (tasks == old(tasks) || fresh(tasks))
      ensures Contents() == old(Contents()) + [FileTask(src, dest)]
    {
      if numTasks >= bufferSize {
        Double();
      }
      tasks[numTasks] := FileTask(src, dest);
      numTasks := numTasks + 1;
    }

    /** realloc to twice the size. */
    method Double()
      requires Valid() && numTasks == bufferSize
      modifies this
      ensures fresh(tasks) && tasks.Length == bufferSize == 2 * old(bufferSize)
      ensures numTasks == old(numTasks) && tasks[..numTasks] == old(tasks[..numTasks])
      ensures bufferSize == initialSize * Pow2(doublings) && moved == bufferSize - initialSize
    {
      var bigger := new FileTask[2 * bufferSize](_ => FileTask("", ""));
      var i := 0;
      while i < numTasks
        invariant 0 <= i <= numTasks && unchanged(this) && bigger.Length == 2 * bufferSize
        invariant forall k :: 0 <= k < i ==> bigger[k] == tasks[k]
      {
        bigger[i] := tasks[i];
        i := i + 1;
      }
      PowDoubles(initialSize, doublings);
      moved, doublings := moved + numTasks, doublings + 1;
      tasks, bufferSize := bigger, 2 * bufferSize;
    }
  }

  lemma PowDoubles(b: nat, j: nat)
    ensures b * Pow2(j + 1) == 2 * (b * Pow2(j))
  {
  }

  /** What any run of additions keeps: the size is B doubled, at most max(B, 2 * tasks), and the
      moves of all reallocations together stay below twice the number of tasks. */
  lemma DoublingIsCheap(b: TaskBuffer)
    requires b.Valid()
    ensures b.numTasks <= b.bufferSize == b.initialSize * Pow2(b.doublings)
    ensures b.bufferSize <= if b.initialSize > 2 * b.numTasks then b.initialSize else 2 * b.numTasks
    ensures b.numTasks > 0 ==> b.moved < 2 * b.numTasks
  {
  }

  /** `load_tasks_from_directory` and `handle_path`, with the statistics they keep. */
  class DirectoryLoader {
    const buffer: TaskBuffer
    var numRegularFiles: nat
    var numDirectories: nat
    var numSymbolicLinks: nat
    var numFifoFiles: nat
    var made: seq<string>       // the mkdir calls

    ghost var ops: seq<Op>

    ghost predicate Valid()
      reads this, buffer, buffer.tasks
    {
      && buffer.Valid()
      && buffer.Contents() == TasksOf(ops)
      && made == DirectoriesOf(ops)
      && numRegularFiles == |TasksOf(ops)|
      && numSymbolicLinks == multiset(ops)[CountLink]
      && numFifoFiles == multiset(ops)[CountFifo]
    }

    constructor (bufferSize: nat)
      requires bufferSize >= 1
      ensures Valid() && fresh(buffer) && fresh(buffer.tasks) && ops == [] && numDirectories == 0
    {
      buffer := new TaskBuffer(bufferSize);
      numRegularFiles, numDirectories, numSymbolicLinks, numFifoFiles := 0, 0, 0, 0;
      made, ops := [], [];
    }

    method LoadDirectory(src: string, dest: string, opens: bool, entries: seq<Entry>)
      requires Valid()
      modifies this, buffer, buffer.tasks
      ensures Valid() && (buffer.tasks == old(buffer.tasks) || fresh(buffer.tasks))
      ensures ops == old(ops) + if opens then LoadOps(src, dest, entries) else []
      ensures numDirectories - old(numDirectories) == |made| - old(|made|)
      decreases entries, 0
    {
      hide Valid, LoadOps;
      if !opens {
        return;
      }
      var i := 0;
      NoEntries(src, dest, entries);
      while i < |entries|
        invariant 0 <= i <= |entries|
        invariant Valid() && (buffer.tasks == old(buffer.tasks) || fresh(buffer.tasks))
        invariant ops == old(ops) + LoadOps(src, dest, entries[..i])
        invariant numDirectories - old(numDirectories) == |made| - old(|made|)
      {
        LoadOpsSnoc(src, dest, entries, i);
        LoadEntry(src, dest, entries[i]);
        i := i + 1;
      }
    }

    method LoadEntry(src: string, dest: string, e: Entry)
      requires Valid()
      modifies this, buffer, buffer.tasks
      ensures Valid() && (buffer.tasks == old(buffer.tasks) || fresh(buffer.tasks))
      ensures ops == old(ops) + EntryOps(src, dest, e)
      ensures numDirectories - old(numDirectories) == |made| - old(|made|)
      decreases e, 1
    {
      hide Valid, LoadOps;
      if e.name == "." || e.name == ".." {
        return;
      }
      var srcPath, destPath := src + "/" + e.name, dest + "/" + e.name;
      match e.kind
      case Directory(opens, entries) =>
        MakeSubdirectory(destPath);
        LoadDirectory(srcPath, destPath, opens, entries);
      case Regular => AddRegular(srcPath, destPath);
      case SymbolicLink => SeeLink();
      case Fifo => SeeFifo();
      case Other =>
    }

    static lemma NoEntries(src: string, dest: string, entries: seq<Entry>)
      ensures LoadOps(src, dest, entries[..0]) == []
      ensures entries[..|entries|] == entries
    {
    }

    method MakeDir(path: string)
      requires Valid()
      modifies this`made, this`ops
      ensures Valid() && ops == old(ops) + [MakeDirectory(path)] && |made| == old(|made|) + 1
    {
      hide TasksOf, DirectoriesOf;
      Note(MakeDirectory(path));
      made := made + [path];
      ops := ops + [MakeDirectory(path)];
    }

    method MakeSubdirectory(path: string)
      requires Valid()
      modifies this`made, this`ops, this`numDirectories
      ensures Valid() && ops == old(ops) + [MakeDirectory(path)]
      ensures |made| == old(|made|) + 1 && numDirectories == old(numDirectories) + 1
    {
      MakeDir(path);
      numDirectories := numDirectories + 1;
    }

    method AddRegular(srcPath: string, destPath: string)
      requires Valid()
      modifies this`numRegularFiles, this`ops, buffer, buffer.tasks
      ensures Valid() && (buffer.tasks == old(buffer.tasks) || fresh(buffer.tasks))
      ensures ops == old(ops) + [AddTask(FileTask(srcPath, destPath))]
    {
      hide TasksOf, DirectoriesOf;
      Note(AddTask(FileTask(srcPath, destPath)));
      buffer.Add(srcPath, destPath);
      numRegularFiles := numRegularFiles + 1;
      ops := ops + [AddTask(FileTask(srcPath, destPath))];
    }

    method SeeLink()
      requires Valid()
      modifies this`numSymbolicLinks, this`ops
      ensures Valid() && ops == old(ops) + [CountLink]
    {
      hide TasksOf, DirectoriesOf;
      Note(CountLink);
      numSymbolicLinks := numSymbolicLinks + 1;
      ops := ops + [CountLink];
    }

    method SeeFifo()
      requires Valid()
      modifies this`numFifoFiles, this`ops
      ensures Valid() && ops == old(ops) + [CountFifo]
    {
      hide TasksOf, DirectoriesOf;
      Note(CountFifo);
      numFifoFiles := numFifoFiles + 1;
      ops := ops + [CountFifo];
    }

    /** What one more operation adds to each total. */
    lemma Note(op: Op)
      ensures TasksOf(ops + [op]) == TasksOf(ops) + if op.AddTask? then [op.task] else []
      ensures DirectoriesOf(ops + [op]) == DirectoriesOf(ops) + if op.MakeDirectory? then [op.path] else []
      ensures multiset(ops + [op]) == multiset(ops) + multiset{op}
    {
      TasksOfConcat(ops, [op]);
      DirectoriesOfConcat(ops, [op]);
    }

    /** A directory is walked; a single file is copied into the destination under its base name. */
    method HandlePath(isDirectory: bool, opens: bool, entries: seq<Entry>, src: string, dest: string)
      requires Valid() && ops == []
      modifies this, buffer, buffer.tasks
      ensures Valid()
      ensures ops ==
        if isDirectory then (if opens then LoadOps(src, dest, entries) else [])
        else [MakeDirectory(dest), AddTask(FileTask(src, Join(dest, BaseName(src))))]
      ensures !isDirectory ==> forall dir, name :: NamedIn(src, dir, name) ==>
                ops == [MakeDirectory(dest), AddTask(FileTask(src, dest + "/" + name))]
      ensures !isDirectory && '/' !in src ==> ops == [MakeDirectory(dest), AddTask(FileTask(src, dest + "/" + src))]
    {
      if isDirectory {
        LoadDirectory(src, dest, opens, entries);
      } else {
        MakeDir(dest);
        AddRegular(src, dest + "/" + BaseName(src));
        forall dir, name | NamedIn(src, dir, name)
          ensures BaseName(src) == name
        {
          BaseNameOfJoin(src, dir, name);
        }
      }
    }
  }
}
