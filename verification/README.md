# Verified model of four system-programming servers

This project models four programs of the repository in Dafny and proves what they promise over every
input, every interleaving and every run.

**The pide shop** (`Final Project/src/Server.c`). One manager, any number of cooks and couriers, three
array queues shifted down by hand and a six-place oven, all synchronized by mutexes and condition
variables. `ShopQueues` holds the arrays and their loops, `Kitchen` the step relation, `KitchenSafety`
the invariants, `KitchenTheorems`, `KitchenProgress`, `KitchenStages`, `KitchenEnd` and
`KitchenShutdown` what follows for every run, and `Shop` ties each critical section on the arrays to its step. `AcceptGate` and `GateRuns`
do the same for the hand-over of accepted sockets from main to the handlers, all of which wait on one
condition variable.

**The directory copier** (`Assignment_04`, with the barrier of `Assignment_05`). `DirectoryTree` models
source trees, paths and sequential copying, `TreePaths` says what they contain by chains of entries;
`Loader` the doubling buffer and the recursive walk that fills it; `Copier` the workers, with every
read, write and open able to fail or fall short and a signal able to stop the work; `CopierSafety`,
`CopierTheorems` and `CopierTermination` prove that a finished run did what a sequential copy does, and
that every run finishes; `CopierBytes` says what the statistics and the files are worth when calls fail,
`CopierInterrupt` what a signal does, and `CopierRuns` gives runs for each way in which a call can fail.
`CopierSections` ties the critical sections to the steps.

**Client admission** and **the line editor** of the file server (`Midterm Project/src/server.c`).
`Admission` models the bounded client array and the waiting array with their hand-written removal loops;
`LineEditor` models `readF` and `writeT` over `fgets` with bounded buffers, and the renaming of
`temp.txt` over the written file; `Tokenizer` models splitting by `strtok` and the climb out of the
server directory.

## How steps are cut

A thread has one program counter, and a step is one critical section together with the thread-local code
up to the next lock. A wait puts the thread into the wait set of its condition variable; a signal takes
out one waiting thread, any one, when there is one; a broadcast takes out all; and any waiting thread
may wake on its own at any time. The signal handlers of the shop and the copier do not hold a mutex, so
a sleeper can miss their broadcast. The shutdown step therefore only changes the flag, and the wake-ups
it may cause are the spontaneous ones. At the gate every send, read and close of a handler is a step of
its own, since main can accept in between and get a closed descriptor again; and any accepted socket can
be closed from outside at any time, as a courier closes the one accepted last and the signal handler
those in the slots. Runs are finite sequences of events; a statement about every reached state is a
statement about every prefix of every execution.

A load of `running` or `terminate` at a loop head has no step of its own: when it makes the thread
leave, the load inside the next critical section, made under the same flag or a later one, makes it
leave too.

Counting and conservation are stated over threads with `Sum` and `Gather` (`Folds`): the total, or the
union of what is held, over all threads.

## Assumptions

- C buffers are large enough: paths stay below 1024 characters, tokens below 50, pool sizes and the
  client limit up to 1024, and no more than 1024 clients wait; machine integers do not overflow.
- What `readF` gathers without a line number stays below 1024 characters, as `readF_ex` has room for no more.
- `accept` never returns descriptor 0, nor one that is still open.
- A file of the file server is always named by the same string and can be opened; the server directory can
  be made and entered, and no symbolic link lies on its path.
- The task buffer starts with at least one place; `main` does not check this, and doubling zero places
  would leave none.
- Files hold no NUL characters.

## Where the code does less than it seems

- `writeT` copies a file in pieces of at most 499 characters. A longer line, newline included, is seen as
  several, and an insertion below it can land inside it. `LineEditor.InsertExactlyWhenLinesFit` gives the
  exact condition.
- `writeT` builds its result in `temp.txt` and renames it. A file of that name is lost: its text when another
  file is written, and the file itself when `writeT` names it. `LineEditor.WritesExactlyElsewhere` shows that
  `writeT` does what it should to the named file exactly when that is not `temp.txt`.
- A waiting client that sends `"1"` again is queued twice and later becomes active twice
  (`Admission.ActiveTwice`). `Admission.DistinctUnlessResent` shows that this is the only way to a duplicate.
- A handler whose greeting cannot be sent leaves with its slot taken; one that cannot read the numbers of a
  session closes the socket and starts over with it. `AcceptGate.MainWaitsInVain` shows that main, waiting
  for a slot, gets back to its loop head in no continuation exactly when every handler has left, is about to,
  or is yet to use a socket that is closed. `AcceptGate.StuckAfterFailedGreeting` and
  `AcceptGate.StuckAfterFailedRead` are runs that end like this, and `AcceptGate.StuckAfterCourierCloses` is
  one without a failed call: a courier that delivers the last order closes whatever connection main accepted
  last, also one not yet greeted.
- `writeT` without a line number puts a newline before the string when the file was there. After a final
  newline, or in an empty file, that leaves an empty line; `LineEditor.AppendExactlyAfterOpenLine` gives the
  exact condition.
- The bytes of a write that falls short reach the file and are not counted. `CopierBytes.TotalIsBytesWritten`
  shows that the total is exact when and only when no write falls short after some bytes.
- The climbing prefix has one `../` for each component of the server directory, also for `.` and `..`, and
  also when the directory is given by an absolute path. `Tokenizer.ClimbReturns` gives the exact condition,
  and `Tokenizer.ClimbMissesStart` two starts it misses.

## Model

| member | source | states |
|---|---|---|
| `ShopQueues.RemoveFirstByIdAt` | Final Project/src/Server.c:241-249 | the oven's search-and-shift takes out the entry the search stops at and keeps the sequence of the others |
| `ShopQueues.RemoveFirstByIdAbsent` | Final Project/src/Server.c:241-249 | the search changes nothing when no entry has the id |
| `ShopQueues.OrderQueue.Append` | Final Project/src/Server.c:421 | a write at the count appends to the queue |
| `ShopQueues.OrderQueue.TakeFirst` | Final Project/src/Server.c:169-173 | the shift loop is a queue pop: the order returned followed by the new contents is the old contents |
| `ShopQueues.Oven.Insert` | Final Project/src/Server.c:227 | a write at the count appends to the oven |
| `ShopQueues.Oven.Remove` | Final Project/src/Server.c:241-249 | the two nested loops remove the first entry with the id, or nothing when there is none |
| `Shop.SharedShop.AdmitOrder` | Final Project/src/Server.c:420-423 | the admission section is one step of the relation and keeps the invariant |
| `Shop.SharedShop.ManagerLocks` | Final Project/src/Server.c:160-174 | the manager's section is one step, whether it leaves, sleeps or takes an order |
| `Shop.SharedShop.ManagerAssigns` | Final Project/src/Server.c:176-179 | passing an order to the cooks is one step |
| `Shop.SharedShop.CookLocks` | Final Project/src/Server.c:195-209 | a cook's turn at its queue is one step |
| `Shop.SharedShop.CookLocksOven` | Final Project/src/Server.c:221-229 | a cook gets in or sleeps, as the step says, without a write past the six places |
| `Shop.SharedShop.CookLeavesOven` | Final Project/src/Server.c:240-251 | the remove phase is one step and always takes out one entry |
| `Shop.SharedShop.CookForwards` | Final Project/src/Server.c:253-257 | forwarding is one step |
| `Shop.SharedShop.CourierLocks` | Final Project/src/Server.c:271-289 | a courier's turn, with the check of the order's state, is one step |
| `KitchenSafety.StepKeeps` | Final Project/src/Server.c:158-332 | every step of every thread keeps states, order, conservation, oven agreement and wakeups |
| `KitchenSafety.RunKeeps` | Final Project/src/Server.c:158-332 | so every state of every run has them, for all pool sizes |
| `KitchenSafety.FindOwn` | Final Project/src/Server.c:241-242 | a cook's search in the oven always finds an entry, its own order when ids are distinct |
| `KitchenSafety.OvenRemoveKeeps` | Final Project/src/Server.c:240-251 | removal by id keeps the oven equal to the cooks between insert and remove, by id always, by order when ids are distinct |
| `KitchenSafety.WakeupsKept` | Final Project/src/Server.c:160-197 | no step makes a cook, a courier or the manager sleep beside an order nobody awake will take |
| `KitchenTheorems.ExactlyOnePlace` | Final Project/src/Server.c:158-332 | the admitted orders are, as a multiset, those in the queues, in the hands and delivered |
| `KitchenTheorems.QueuesFit` | Final Project/src/Server.c:67-71 | with at most 1024 undelivered orders every queue stays within its array |
| `KitchenTheorems.NothingInHandAtExit` | Final Project/src/Server.c:581-591 | when all threads have left, the oven is empty and every undelivered order is in a queue |
| `KitchenTheorems.QueuesAreFifo` | Final Project/src/Server.c:169-208 | cooks take orders in the order of admission, couriers in the order of forwarding |
| `KitchenTheorems.BoundedReordering` | Final Project/src/Server.c:253-257 | when an order is forwarded, fewer than C of those admitted before it are still to be forwarded |
| `KitchenTheorems.DeliveredInTurn` | Final Project/src/Server.c:271-313 | with C cooks and D couriers, when an order is delivered at most C + D - 2 of those admitted before it are undelivered |
| `KitchenTheorems.OvenHoldsItsCooks` | Final Project/src/Server.c:221-251 | the oven holds the orders of the cooks in it, never more than six, for any number of cooks |
| `KitchenTheorems.CookRemovesItsOwn` | Final Project/src/Server.c:240-249 | with distinct ids a cook takes out exactly its own order and the others keep their sequence |
| `KitchenTheorems.OvenSleeperHasSixAhead` | Final Project/src/Server.c:222-224 | a cook asleep on the oven means a full oven and six cooks awake in the remove phase |
| `KitchenTheorems.SessionIdsDistinct` | Final Project/src/Server.c:365-426 | the numbers that sessions following one another take from `clientCounter` are strictly increasing |
| `KitchenTheorems.SessionIdOf` | Final Project/src/Server.c:365-426 | the m-th order of the k-th session gets the counter plus the number of sessions so far, of all orders before it and of its own |
| `KitchenTheorems.OvenInSessions` | Final Project/src/Server.c:365-426 | so in every run whose orders got their ids from such sessions the ids are distinct and the oven holds exactly the copies of the cooks in it |
| `KitchenTheorems.StatesFollowPlaces` | Final Project/src/Server.c:226-289 | an order is received, cooking or ready as its place says, so a courier's check never drops one |
| `KitchenStages.OneOrderOneStage` | Final Project/src/Server.c:158-332 | each productive step moves exactly one order exactly one stage on; any other step moves none, and an admission adds one at the start |
| `KitchenProgress.ProductiveStepsProgress` | Final Project/src/Server.c:158-332 | the total number of stages behind all orders rises by exactly one in a productive step and stays in any other |
| `KitchenProgress.BoundedWork` | Final Project/src/Server.c:158-332 | n admissions allow at most 8n hand-overs, and exactly 8n when all orders are delivered |
| `KitchenProgress.EnoughAwake` | Final Project/src/Server.c:160-197 | at least min(queue length, C) cooks are awake, a sleeping cook leaves as many at the lock as orders wait, and an order never waits for a sleeping manager |
| `KitchenProgress.KitchenNeverStuck` | Final Project/src/Server.c:158-261 | while the shop runs with a cook, an order not yet forwarded can be moved on by the manager or a cook |
| `KitchenProgress.QuiescentMeansDone` | Final Project/src/Server.c:158-332 | when nothing can be handed on, all orders are delivered, or all couriers have left and the rest waits ready |
| `KitchenEnd.CouriersGone` | Final Project/src/Server.c:315-332 | in every reached state of a running shop as many couriers have left as deliveries closed a connection |
| `KitchenEnd.QuiescentDelivered` | Final Project/src/Server.c:158-332 | with more couriers than closing deliveries, nothing left to hand on means an empty delivery queue and every admitted order delivered |
| `KitchenEnd.AllCanBeDelivered` | Final Project/src/Server.c:158-332 | from every reached state of a running shop with a cook and a courier left, a continuation delivers all orders, and the last delivery can close the connection or not |
| `KitchenShutdown.AfterShutdown` | Final Project/src/Server.c:139-145 | after a shutdown, in every continuation, no thread takes an order from a queue or falls asleep on one |
| `KitchenShutdown.LateOrderStays` | Final Project/src/Server.c:394-427 | an order admitted after a shutdown stays in its queue in every continuation |
| `KitchenShutdown.EveryoneCanLeave` | Final Project/src/Server.c:158-332 | from every state reached after a shutdown all threads can leave, also those with orders in the full oven |
| `AcceptGate.AssignSlot` | Final Project/src/Server.c:569-574 | the slot loop puts the socket into the first free slot and touches no other |
| `AcceptGate.AssignFreeAt` | Final Project/src/Server.c:569-574 | the first free slot, and only it, is filled |
| `AcceptGate.SharedGate.MainSection` | Final Project/src/Server.c:564-578 | main's section on the array is one step, placing the socket or sleeping |
| `AcceptGate.SharedGate.HandlerSection` | Final Project/src/Server.c:340-350 | a handler's section is one step and yields the socket of its slot |
| `AcceptGate.SharedGate.ReleaseSlot` | Final Project/src/Server.c:453-457 | a release is one step, freeing one slot |
| `AcceptGate.StepKeeps` | Final Project/src/Server.c:339-578 | every step keeps the count of slots, the match of handlers and slots, and the account of sockets |
| `AcceptGate.RunKeeps` | Final Project/src/Server.c:339-578 | so does every run, for every pool size, also when couriers or the signal handler close accepted sockets in between |
| `AcceptGate.ReleaseWakesMain` | Final Project/src/Server.c:453-457 | main asleep means all slots taken and no handler asleep, so the single signal of a release reaches main |
| `AcceptGate.AssignedSocketIsSeen` | Final Project/src/Server.c:340-349 | the handler of a filled slot is never asleep: it is on the way, at work on that socket, or has left with it |
| `AcceptGate.EverySocketAccounted` | Final Project/src/Server.c:564-578 | each accepted socket is with main, in one slot, or released; `active_threads` counts the filled slots |
| `AcceptGate.MainFillsOneSlot` | Final Project/src/Server.c:564-578 | below the pool size main always finds a slot and its handler awake |
| `AcceptGate.MainWaitsInVain` | Final Project/src/Server.c:315-457 | in every reached state in which main waits for a slot: some continuation takes it back to its loop head unless every handler is lost, that is has left, leaves at its next lock, or is yet to use a closed socket; then no continuation does, or frees a slot |
| `AcceptGate.StuckAfterFailedGreeting` | Final Project/src/Server.c:354-357 | a run with a pool of one that ends like this after a failed send |
| `AcceptGate.StuckAfterFailedRead` | Final Project/src/Server.c:371-377 | one after a failed read, with the handler still in its loop |
| `AcceptGate.StuckAfterCourierCloses` | Final Project/src/Server.c:315-326 | one without any failed call, in which a courier closes the connection accepted last before its handler has greeted it |
| `AcceptGate.DescriptorUsedAgain` | Final Project/src/Server.c:371-377 | a run in which the next connection gets the closed descriptor, so that the handler greets it on the old slot and is not lost |
| `GateRuns.NoDescriptorForgotten` | Final Project/src/Server.c:375-457 | in every reached state each open descriptor is in main's hand or in a slot whose handler is not past its session |
| `GateRuns.ClosedStaysClosed` | Final Project/src/Server.c:371-451 | after a failed read, a failed order or the end of a session the socket is closed until accept gives its number again |
| `GateRuns.OpenUnlessClosed` | Final Project/src/Server.c:351-358 | without these and without a close from outside every accepted socket is open, also one whose greeting failed |
| `GateRuns.SlotKeptUntilRelease` | Final Project/src/Server.c:371-457 | once the numbers of a session are read the handler keeps socket and slot in every continuation up to its release, also when orders fail |
| `GateRuns.SessionsAddUp` | Final Project/src/Server.c:351-457 | over every run greetings, readings, ends of sessions and releases match, but for those under way |
| `GateRuns.ReleaseWakesOne` | Final Project/src/Server.c:453-457 | the signal of a release takes exactly one thread out of the wait set when there is one |
| `GateRuns.AfterShutdown` | Final Project/src/Server.c:339-347 | after a shutdown, in every continuation, no handler begins with another socket or falls asleep |
| `GateRuns.EveryoneCanLeave` | Final Project/src/Server.c:339-578 | from every state reached after a shutdown all handlers can leave, and main can if and only if it does not wait in vain |
| `GateRuns.LateConnection` | Final Project/src/Server.c:553-578 | a run in which a connection is accepted after a shutdown, gets a slot and is never served |
| `GateRuns.TwoHandlersOneSocket` | Final Project/src/Server.c:394-402 | a run in which an order fails, accept gives the closed number again, and two handlers use it at once |
| `DirectoryTree.TasksAreRegularFiles` | Assignment_04/src/210104004142_main.c:146-178 | the loaded list is the depth-first list of regular files, with equal relative paths on both sides |
| `DirectoryTree.RegularFilesDistinct` | Assignment_04/src/210104004142_main.c:159-160 | slash-free names that differ between siblings make all relative paths differ |
| `DirectoryTree.DirectoriesMadeFirst` | Assignment_04/src/210104004142_main.c:161-168 | every file's and every directory's parent is the root or was made earlier |
| `DirectoryTree.ParentAndBaseName` | Assignment_04/src/210104004142_main.c:194-201 | a path with a slash is its parent joined with the slash-free name behind the last slash |
| `DirectoryTree.TasksIndependent` | Assignment_04/src/210104004142_main.c:146-178 | for a destination apart from the source, destinations differ pairwise and none is a source |
| `DirectoryTree.CopyTreeDoesTheTasks` | Assignment_04/src/210104004142_main.c:146-178 | a recursive copy of the tree equals copying the loaded list one by one |
| `DirectoryTree.CopyAllResult` | Assignment_04/src/210104004142_main.c:88-99 | a sequential copy leaves each source's bytes at its destination and changes nothing else |
| `TreePaths.RegularFilesAreChains` | Assignment_04/src/210104004142_main.c:153-169 | a path is copied if and only if it joins the names along a chain of entries, none "." or "..", all but the last opened directories, the last a regular file |
| `TreePaths.MadeDirectoriesAreChains` | Assignment_04/src/210104004142_main.c:153-164 | a directory is made if and only if it ends such a chain, opened itself or not |
| `TreePaths.LoadCounts` | Assignment_04/src/210104004142_main.c:153-175 | each statistic counts the entries of its kind that such chains reach |
| `TreePaths.BaseNameOfJoin` | Assignment_04/src/210104004142_main.c:194-201 | a slash-free name behind any directory is the base name |
| `TreePaths.BaseNameAlone` | Assignment_04/src/210104004142_main.c:194-201 | a path without a slash is its own base name |
| `Loader.TaskBuffer.Add` | Assignment_04/src/210104004142_main.c:126-143 | an addition appends, keeps the earlier entries in order and the capacity a doubling of the first one |
| `Loader.TaskBuffer.Double` | Assignment_04/src/210104004142_main.c:130-131 | reallocation doubles the capacity and loses nothing |
| `Loader.DoublingIsCheap` | Assignment_04/src/210104004142_main.c:129-136 | capacity is B doubled and at most max(B, 2n); all moves together stay below 2n |
| `Loader.DirectoryLoader.LoadDirectory` | Assignment_04/src/210104004142_main.c:146-178 | the recursive walk makes the directories and adds the files of the tree in order, and counts both |
| `Loader.DirectoryLoader.LoadEntry` | Assignment_04/src/210104004142_main.c:154-175 | each kind of entry has its own effect; `.` and `..` have none |
| `Loader.DirectoryLoader.HandlePath` | Assignment_04/src/210104004142_main.c:188-205 | a directory is walked; a file dir/name becomes the task dest/name, and so does a file without a slash, after dest was made |
| `CopierSections.SharedWork.WorkerLocks` | Assignment_04/src/210104004142_main.c:63-74 | a worker's section is one step and hands out the next entry of the list, once |
| `CopierSections.SharedWork.AddBytes` | Assignment_04/src/210104004142_main.c:103-105 | adding to the statistics is one step |
| `CopierSections.SharedWork.AnnounceDone` | Assignment_04/src/210104004142_main.c:248-251 | the announcement is one step that wakes all workers |
| `CopierSafety.StepKeeps` | Assignment_04/src/210104004142_main.c:60-108 | every step, also a failing one, keeps claims, files, totals, phases and the barrier's count |
| `CopierSafety.RunKeeps` | Assignment_04/src/210104004142_main.c:60-108 | so does every run |
| `CopierSafety.CopyLoop` | Assignment_04/src/210104004142_main.c:88-99 | whatever sizes read and write return, the destination is a prefix of the source, and all of it and fully counted when no call failed or fell short |
| `CopierSafety.ClaimsKept` | Assignment_04/src/210104004142_main.c:68-74 | every claimed index is with the worker that claimed it or finished with, never twice |
| `CopierTheorems.FirstTasksProcessedOnce` | Assignment_04/src/210104004142_main.c:62-106 | for any list of tasks, after the join, interrupted or not, exactly the first `nextTask` entries were processed, each once; all of them without a signal and with a worker |
| `CopierTheorems.PrefixCopied` | Assignment_04/src/210104004142_main.c:62-106 | without a failed call the files are those of a sequential copy of these entries, and the total is the sum of their sizes |
| `CopierBytes.BytesAddUp` | Assignment_04/src/210104004142_main.c:86-105 | in every reached state, whatever failed, the bytes written so far are the total, the counts in the workers' hands and the bytes of short writes together |
| `CopierBytes.TotalIsBytesWritten` | Assignment_04/src/210104004142_main.c:86-105 | after the join the total is the bytes written less those of short writes; it is exact if and only if no write fell short after some bytes |
| `CopierBytes.EveryDestination` | Assignment_04/src/210104004142_main.c:76-101 | whatever fails, in every reached state each destination is as before or holds a prefix of its source, an unclaimed one is as before, one finished without a failure holds it all, and no other file changes |
| `CopierTheorems.UnfailedAreCopied` | Assignment_04/src/210104004142_main.c:76-101 | when some calls fail, every other processed file is still copied exactly |
| `CopierTheorems.ParallelCopyIsSequential` | Assignment_04/src/210104004142_main.c:241-255 | for every worker count and interleaving the result is that of a recursive copy: each file under its relative path, all else unchanged |
| `CopierTheorems.StatisticsFinal` | Assignment_05/src/210104004142_main.c:262-267 | for any list of tasks, past the barrier no worker is in its loop, and statistics and files no longer change |
| `CopierInterrupt.AfterSignal` | Assignment_04/src/210104004142_main.c:46-106 | for any list of tasks, after a signal no index is claimed in any continuation, and what is still finished with was in a worker's hand, each index once |
| `CopierInterrupt.InterruptedAnywhere` | Assignment_04/src/210104004142_main.c:46-106 | for any list of tasks and any n, some run is interrupted and ends with exactly the first n entries claimed |
| `CopierRuns.ShortWriteUncounted` | Assignment_04/src/210104004142_main.c:88-99 | a run that reads two bytes and gets one written leaves that byte at the destination and a total of 0 |
| `CopierRuns.FailedReadLeavesEmpty` | Assignment_04/src/210104004142_main.c:82-99 | a run whose first read fails leaves an empty destination |
| `CopierRuns.FailedOpenLeavesFiles` | Assignment_04/src/210104004142_main.c:76-86 | a run whose open of the source or of the destination fails leaves all files as they were |
| `CopierRuns.CopiedAtOnce` | Assignment_04/src/210104004142_main.c:88-99 | a file of up to 4096 bytes can be copied by one read and one write |
| `CopierRuns.ReadsFitBuffer` | Assignment_04/src/210104004142_main.c:88-89 | no read of any run asks for more than 4096 bytes |
| `CopierRuns.NoBusyWaiting` | Assignment_04/src/210104004142_main.c:63-71 | over every run workers lock the mutex at most once each when started and when loading ends, once per finished file and once per waking |
| `CopierTermination.StepsTowardsTheEnd` | Assignment_04/src/210104004142_main.c:65-71 | for any list of tasks, in every reached state after `done`, every step but a signal lowers a measure that stays non-negative and leaves no worker asleep |
| `CopierTermination.RunsAreFinite` | Assignment_04/src/210104004142_main.c:248-255 | for any list of tasks a run that goes on after `done` has no more steps than the measure says, signals aside |
| `CopierTermination.NeverStuck` | Assignment_04/src/210104004142_main.c:62-106 | for any list of tasks, in every reached state until main has joined, also while workers are started and at the barrier, some step is enabled in which no call fails but the opening of a missing source |
| `CopierTermination.CanFinish` | Assignment_04/src/210104004142_main.c:62-106 | for any list of tasks every reached state can be completed with no signal and no further failure but those of sources that were missing from the start |
| `Admission.Server.CheckPlace` | Midterm Project/src/server.c:201-209 | the search tells whether the pid is active |
| `Admission.Server.RemoveClient` | Midterm Project/src/server.c:525-535 | the flag-driven loop removes the first occurrence and keeps the order of the rest, with duplicates too |
| `Admission.Server.PromoteWaiter` | Midterm Project/src/server.c:543-550 | the head of the waiting array becomes the last client, the others move up |
| `Admission.Server.Handle` | Midterm Project/src/server.c:460-553 | one message changes the arrays as the transition on lists says |
| `Admission.NeverOverLimit` | Midterm Project/src/server.c:462-482 | never more clients than the limit, for any limit, and nobody waits while there is a place |
| `Admission.ServedInOrder` | Midterm Project/src/server.c:538-551 | promoted followed by waiting is the order of queueing |
| `Admission.EnteredStayOrQuit` | Midterm Project/src/server.c:460-553 | everyone who became active is active or has quit, as often |
| `Admission.CommandsRunForActive` | Midterm Project/src/server.c:460-505 | a command runs exactly for a pid that became active more often than it quit |
| `Admission.TurnedAwayWhenFull` | Midterm Project/src/server.c:459-482 | one that is not inside is turned away if and only if entered less quit ones fill the limit, whatever it sends, and queued if and only if moreover it sends "1" |
| `Admission.HistoryGrows` | Midterm Project/src/server.c:459-551 | what one message adds to the histories of entering, queueing, promotion and quitting, in terms of these histories alone |
| `Admission.NoOvertaking` | Midterm Project/src/server.c:460-470 | nobody is connected past a waiting client |
| `Admission.DistinctUnlessResent` | Midterm Project/src/server.c:480-481 | clients stay distinct over a run exactly when no waiting one asks to be queued again |
| `Admission.ActiveTwice` | Midterm Project/src/server.c:480-481 | a run with two places in which a client asks again and ends up active twice |
| `Tokenizer.Symbolago` | Midterm Project/src/server.c:46-57 | the loop returns the first four tokens, or all when there are fewer |
| `Tokenizer.TokensOfRender` | Midterm Project/src/server.c:46-57 | tokens laid out with any runs of delimiters are read back |
| `Tokenizer.EveryStringIsARender` | Midterm Project/src/server.c:46-57 | every string is such a layout of its tokens, so only delimiters are lost |
| `Tokenizer.ClimbingPrefix` | Midterm Project/src/server.c:62-67 | the loop builds one step up for each component |
| `Tokenizer.PrefixComponents` | Midterm Project/src/server.c:62-67 | read as a path, the prefix is that many steps up |
| `Tokenizer.ClimbReturns` | Midterm Project/src/server.c:597-601 | from inside the directory it leads back to the start if and only if the start is the root, or the path is relative with plain components only |
| `Tokenizer.ClimbMissesStart` | Midterm Project/src/server.c:597-601 | from /home/u it does not lead back for "/srv" or "." |
| `LineEditor.ReadLineLoop` | Midterm Project/src/server.c:270-280 | readF with a number returns that piece of the file, or nothing |
| `LineEditor.ReadAllLoop` | Midterm Project/src/server.c:270-280 | readF without a number returns the file |
| `LineEditor.InsertLoop` | Midterm Project/src/server.c:330-337 | the copying loop slips the new line in before the numbered piece |
| `LineEditor.AppendLoop` | Midterm Project/src/server.c:330-342 | without a number the string goes to the end, behind a newline when the file was there before |
| `LineEditor.Split` | Midterm Project/src/server.c:270-330 | every file is glued from a list of newline-free stretches |
| `LineEditor.ChunksAreLines` | Midterm Project/src/server.c:270-330 | fgets sees the lines of a file exactly when each fits its buffer |
| `LineEditor.LinesOfInsert` | Midterm Project/src/server.c:332-336 | inserting puts the line at its number and moves the others down |
| `LineEditor.InsertExactlyWhenLinesFit` | Midterm Project/src/server.c:330-337 | writeT is insertion into the list of lines, for all numbers and strings, exactly when every line fits the buffer |
| `LineEditor.LongLineMisplaced` | Midterm Project/src/server.c:330-337 | with a line that does not fit, some number and string go astray |
| `LineEditor.Directory.ReadF` | Midterm Project/src/server.c:253-280 | readF reports what its request says, or finds no file |
| `LineEditor.Directory.WriteT` | Midterm Project/src/server.c:306-346 | opening, truncating, copying, removing and renaming together do what the request says: the named file gets the new text and temp.txt is gone |
| `LineEditor.AppendExactlyAfterOpenLine` | Midterm Project/src/server.c:338-342 | writeT without a number appends a line if and only if the file is not empty and does not end in a newline; otherwise it leaves an empty line in between |
| `LineEditor.CommandSimulates` | Midterm Project/src/server.c:235-350 | each command does to the text of its file what it does to the list of stretches between newlines, an append adding one stretch, and reports the line or the text it should |
| `LineEditor.RequestSimulates` | Midterm Project/src/server.c:235-350 | any request leaves the intended lines in all files other than temp.txt, and reports what it should unless it reads temp.txt |
| `LineEditor.WritesExactlyElsewhere` | Midterm Project/src/server.c:306-346 | after a writeT the named file holds the intended lines if and only if it is not temp.txt, and temp.txt is gone either way |
| `LineEditor.TempIsLost` | Midterm Project/src/server.c:306-346 | a file temp.txt is gone after an append to it, and after one to another file |
| `LineEditor.RunSimulates` | Midterm Project/src/server.c:235-350 | so does every run of requests, whichever files they name: all files other than temp.txt, and all reports but those read from temp.txt, are as intended |
| `LineEditor.InsertThenRead` | Midterm Project/src/server.c:270-346 | after inserting s at n into a file other than temp.txt, reading n gives s and a newline, earlier lines are unchanged and later ones moved by one; any other n changes nothing, and other files stay as they were |

## Left out

- Sockets and FIFOs beyond which descriptors of accepted sockets are open, `popen`, `system`, logging, printing, `sleep`, `rand` and the floating-point courier delay: input, output and timing.
- The test of `delivered_orders` against `total_orders` (Final Project/src/Server.c:315-327): both counters are changed without a common lock and reset by other sessions, so the model lets a courier close the connection and leave after any delivery, and in the gate lets any accepted socket be closed at any time.
- The efficiency counters and `print_most_efficient_personnel`: reset by any session while cooks and couriers increment them.
- Shutdown of the shop by a signal: the handler broadcasts without the mutexes, so a sleeper can miss it; what is proved after shutdown is what holds once threads have left.
- Sessions that overlap: `clientCounter` is not synchronized, so order ids may then repeat. Only the statements about a cook's own order in the oven need distinct ids, and they say so.
- KitchenTheorems.QueuesFit: the code does not check the array bounds, so the limit on undelivered orders is a hypothesis.
- A failing `accept`, which ends the server, and a failing `fork`, which the file server does not handle.
- The single-file branch of Assignment_05, which locks the mutex twice, and `notFull`, which the directory branch never waits on.
- File types other than those the loader distinguishes, permissions, and what existing files and links at the destination do to `mkdir`; a failing `mkdir` shows up as a failing open.
- The readers/writers semaphores and the file registry of the file server: requests run in forked children that do not share them, and error returns keep a semaphore.
- LineEditor.CommandSimulates: covers commands that reach the end of their branch; `readF` of a missing file, where `LineEditor.Directory.ReadF` reports none, and a line number that is no number return early.
- The help texts, `list`, `archive`, the copying in `upload` and `download`, and the shutdown loop of the file server.
- Assignment_01, Assignment_02 and Assignment_03: their properties are simpler forms of these, or fail on record boundaries and interleaved writes.
