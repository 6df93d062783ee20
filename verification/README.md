# A model of the multi-threaded file server

The repository is a file server in C. A main thread accepts connections and numbers them. A pool
of client threads reads commands line by line and turns them into tasks; a pool of worker threads
carries the tasks out and sends one response for each through a per-connection entry of a response
map. Everything the threads share goes through one closable, blocking queue built on an array heap.
Files are stored XOR-ed with a fixed key, in chunks of 8192 bytes; users live in a linked list.

This project models that behaviour in Dafny and proves what it keeps.

| file | what it holds |
|---|---|
| `Types.dfy` | priorities, commands, time stamps, tasks |
| `Heap.dfy` | the sifting loops as functions on sequences; laws for every comparator, then laws for total preorders |
| `QueueModel.dfy` | queue states and runs: refinement of a bag, conservation, growth |
| `Queue.dfy` | the class over an array |
| `TaskOrder.dfy` | the task comparator, with the sign as written and the sign as documented |
| `Protocol.dfy` | all threads, mutexes, condition variables and queues as a labelled transition system |
| `ProtocolInvariants.dfy`, `ProtocolRequests.dfy`, `ProtocolHandshake.dfy`, `ProtocolWakeups.dfy`, `ProtocolLedger.dfy`, `ProtocolOrder.dfy`, `ProtocolMatching.dfy`, `ProtocolAccounts.dfy` | the inductive invariants, one file a subject |
| `ProtocolTheorems.dfy`, `ProtocolProgress.dfy` | what holds in every reachable state |
| `ProtocolTaskQueue.dfy` | the protocol with the heap in the place of its bag of tasks |
| `ProtocolHistory.dfy`, `ProtocolSteps.dfy`, `ProtocolRuns.dfy` | the history variables; every kind of step written out; concrete runs |
| `ResponseMap.dfy` | the searched array behind the response map, and the map it stands for |
| `Scanning.dfy`, `Framing.dfy`, `Commands.dfy` | `snprintf` and `sscanf`; `recv_line`; the client's printers against the server's parser |
| `WireFormat.dfy` | the texts, lengths and limits of the protocol written out, apart from the definitions that produce them |
| `Sessions.dfy` | the server's loop over the lines of one connection |
| `Worker.dfy` | the worker's switch: one response for each task, and what it says |
| `Listing.dfy` | LIST, from the directory to the client's socket |
| `Cipher.dfy` | the cipher inside the chunk loops |
| `UserStore.dfy` | the linked list of users and the map it refines |

`dafny verify dfyconfig.toml` checks all of it.

Code that works on arrays, buffers and linked nodes is written as classes and methods with loops.
Each is proved equal to a function of the old state, and the theorems are about that function.

## What turned out otherwise than documented

- The header promises a positive result when the first task is the more urgent (include/types.h:45-46);
  the code returns a negative one (src/task.c:41-48). With the code as written the queue serves the
  least urgent task first. `LiteralServesMostUrgentIff` says when it nevertheless serves a most urgent one.
- The worker releases the map's mutex before it uses the entry it found. `EntryLifetimeIff` says that the
  entry is there exactly as long as the connection is served, and `EntryLifetime` that this is so while no
  wait was lost. After a timeout a client may quit first: in the run of `UseAfterFree` the worker uses an
  entry that was freed; its program counter is then `Faulted`.
- A response that comes after the timeout stays in the entry. In the run of `StaleReply` the next request is
  answered with it. `MatchedUntilLost` says that up to the first lost wait nothing of the kind happens.
- A command that does not fit its print buffer loses its newline: the server waits for the rest of a short
  one, and takes an upload's temporary path to be a prefix of what it is. `RoundTripIff` gives the exact
  condition; by one byte it is laxer for the 512-byte buffers, because the server's line buffer is as long.
- Removal from the response map moves the last entry into the gap. It keeps the heap order only under the
  condition of `RemovalKeepsHeapIff`; routing does not need the order.
- A name of 64 characters or more can be signed up again and again and never found
  (`SignupThenFindIff`, `LongNameSignsUpTwice`). `ServerRefinesMap` shows that no line a client sends can
  bring such a name to the store.
- An upload of more than 10 MiB is refused to every user, although the refusal advises to upgrade
  (`Worker.ServeUpload`): the copy of the user that the worker looks at always has priority LOW.

## How the protocol is modelled

A state holds the program counter of every thread, the owner of every mutex, the queues as bags with a
close flag, and the response entries. There are any number of client and worker threads and no bound on
connections. Taking a mutex, waiting, waking (by a signal, by a broadcast, spuriously, or on a timeout),
and the code between two such points are the steps; a run is any interleaving of them. A wait interrupted
by a signal that is not yet over goes back to sleep, and is a spurious wake-up. The end of a client's
stream, an empty line and QUIT all lead to deregistration and are one step, `Read(Quit)`. Which element a
pop returns is left open, so whatever holds of the model holds for every comparator; `ProtocolTaskQueue`
puts the heap in the place of the bag of tasks. `fate`, `conn`, `served`, `popped`, `lost` and `log` are
history variables; `HistoryFree` proves that no step depends on the first five, and `log` is only extended.

`Lost(s, c)` counts the waits of connection `c` that ended without a response; it is zero as long as `c`
has not suffered a timeout, or a failure of the wait.

Strings are sequences of characters without the terminating NUL, so a C string is one that contains none.

## Model

| member | source | states |
|---|---|---|
| Heap.SiftUpPermutes | src/queue.c:18-31 | Sifting up ends and permutes the array, whatever the comparator answers |
| Heap.SiftDownPermutes | src/queue.c:34-63 | Sifting down ends and permutes the array, whatever the comparator answers |
| Heap.UpSwapsBound | src/queue.c:18-31 | Sifting up from index i makes at most floor(log2(i+1)) swaps, under any comparator |
| Heap.DownSwapsBound | src/queue.c:34-63 | Sifting down from index i makes at most floor(log2(size/(i+1))) swaps, so floor(log2(size)) from the root, under any comparator |
| Heap.UpStaysIff | src/queue.c:18-31 | Sifting up moves nothing if and only if the parent is not smaller: a tie stops it |
| Heap.DownStaysIff | src/queue.c:34-63 | Sifting down moves nothing if and only if no child is larger; of two equal larger children the left one moves up |
| Heap.InsertAdds | src/queue.c:117-123 | A push adds exactly one item to the contents, under any comparator |
| Heap.RemoveRootRemoves | src/queue.c:156-165 | A pop removes exactly the root item from the contents, under any comparator |
| Heap.SiftUpMakesHeap | src/queue.c:18-31 | Under a total preorder, sifting up repairs an array that is a heap except above index i |
| Heap.SiftDownMakesHeap | src/queue.c:34-63 | Under a total preorder, sifting down repairs an array that is a heap except below index i |
| Heap.RootIsMaximumOfBag | src/queue.c:152-153 | The root of a heap is a maximum of the contents: no item compares greater |
| Heap.DrainSorts | src/queue.c:131-169 | Popping a heap until it is empty yields a permutation of its contents in non-increasing order |
| QueueModel.RunRefinesBag | src/queue.c:92-169 | Every run of pushes, pops and closes keeps the heap order and is a run of a bag whose pop removes some maximum and fails only when the bag is empty |
| QueueModel.RunConserves | src/queue.c:92-169 | Over any run, contents plus what was handed out equal the first contents plus the accepted pushes, whatever comparator each operation has |
| QueueModel.DrainAfterAnyRun | src/queue.c:131-169 | A queue built by any run from `queue_init` drains as a sort of its contents |
| QueueModel.PopsDrain | src/queue.c:131-169 | As many pops as there are items hand out exactly the drained order and leave the queue empty |
| QueueModel.ClosedAndEmptyIsStable | src/queue.c:140-150 | Once a pop returns NULL, every later pop does, whatever happens in between and whatever comparator each operation has |
| QueueModel.AmortisedGrowth | src/queue.c:105-120 | Over any run from empty: size at most capacity, capacity 0 or 16 doubled, at most max(16, twice the peak size); regrowth copies at most two elements for each accepted push |
| QueueModel.PeakIsReached | src/queue.c:105-120 | The peak of that bound is the size at some moment of the run, and no size along it is larger |
| Queue.Queue.HeapifyUp | src/queue.c:18-31 | The in-place loop computes the sift function on the live part, leaves the rest alone, and keeps to the swap bound |
| Queue.Queue.HeapifyDown | src/queue.c:34-63 | The same for the downward loop |
| Queue.Queue.Reserve | src/queue.c:105-115 | A full array is replaced by one of 16 or twice the capacity with the same contents |
| Queue.Queue.Push | src/queue.c:92-129 | Refused exactly when closed; otherwise the state becomes that of inserting the item into a grown array |
| Queue.Queue.Pop | src/queue.c:131-169 | Returns the root, or NULL exactly when empty and closed, or would wait; the state becomes that of removing the root |
| Queue.Queue.Close | src/queue.c:74-79 | Sets the flag and changes nothing else |
| TaskOrder.SignOfCompare | src/task.c:36-51 | The comparator is negative exactly when the first task is the more urgent, zero exactly when neither is |
| TaskOrder.EarlierIsLessTime | src/task.c:46-49 | Stamps are ordered as the nanoseconds they denote |
| TaskOrder.ComparatorsArePreorders | src/task.c:36-51 | The comparator is a total preorder, with either sign |
| TaskOrder.DocumentedServesMostUrgent | include/types.h:45-47 | With the documented sign, after any run the next task served is of the highest priority queued, and of those the earliest |
| TaskOrder.LiteralServesLeastUrgent | src/task.c:41-48 | With the sign as written, after any run no queued task is less urgent than the next one served |
| TaskOrder.LiteralServesMostUrgentIff | src/task.c:41-48 | The code serves a most urgent task if and only if all queued tasks have the same urgency |
| TaskOrder.LiteralServesLowBeforeHigh | src/task.c:41-48 | A concrete run after which the code serves LOW and the documented sign serves HIGH |
| TaskOrder.LiteralDrainIsReversed | src/task.c:41-48 | Emptying the queue as written hands tasks out from the least urgent to the most urgent |
| TaskOrder.ThreePriorities | include/priority.h:4-9 | A queue with one task of each priority, pushed in any order at any times, hands out LOW, NORMAL, HIGH as written, and HIGH, NORMAL, LOW with the documented sign |
| ProtocolTheorems.StepKeepsInv | src/client.c:32-204 | Every step of every thread keeps the conjunction of all invariants |
| ProtocolTheorems.MutualExclusion | src/queue.c:92-169 | No two threads are ever inside the same mutex |
| ProtocolTheorems.SleepersHoldNothing | src/client.c:150-178 | A thread asleep on a condition variable holds no mutex; in particular the pop at line 176 never sleeps with the entry locked |
| ProtocolTheorems.NoChain | src/worker.c:51-69 | A thread that blocks the holder of a mutex is not blocked itself |
| ProtocolTheorems.NoMutexDeadlock | src/main.c:64-100 | No reachable state has a circle of threads, each blocked on a mutex of the next |
| ProtocolTheorems.OwnersGetOn | src/client.c:130-178 | The owner of a mutex is neither asleep nor gone, and is blocked at most by a thread that is not blocked |
| ProtocolProgress.RunningCanStep | src/client.c:121-201 | A thread that is not blocked, asleep or at its end always has a step: the entry, item or response it needs is there |
| ProtocolProgress.MutexProgress | src/worker.c:38-69 | Whoever waits for a mutex waits for the owner, or for the one thread blocking the owner, and that one can step |
| ProtocolTheorems.NoLostWakeup | src/queue.c:117-143 | While a thread sleeps on a queue, the queue is open and no larger than the number of threads woken and not yet back |
| ProtocolTheorems.NoLostResponse | src/worker.c:55-67 | While a client sleeps on its entry, the entry is empty, or the worker that found it empty and pushed to it holds its mutex and is about to signal |
| ProtocolTheorems.RoutingTable | src/main.c:152-168 | Each connection is listed at most once, under an id below the next one, and popped at most once; a served connection is listed, open and has one server |
| ProtocolTheorems.ResponsesAreRouted | src/worker.c:31-59 | A response for c is only ever in the entry of c, and only ever written to c |
| ProtocolTheorems.RequestLedger | src/client.c:121-197 | Before close and while c is registered: its tasks in the queue, plus those in workers' hands, plus responses in its entry, equal its lost waits plus one while it waits |
| ProtocolTheorems.RepliesInOrder | src/client.c:121-196 | Lost waits or not, the records of the waits of c, and so the lines written to it, follow the order of its pushes, one record a request, and no response is taken twice |
| ProtocolTheorems.ReplyMatching | src/client.c:121-196 | While no wait of c was lost, c has at most one outstanding request, the one it waits for, and the lines written to it answer, each its own, its requests in their order |
| ProtocolTheorems.MatchedUntilLost | src/client.c:121-196 | Any initial part of the waits of c got, each, the response to its own request if and only if each got some response |
| ProtocolRuns.StaleReply | src/client.c:150-196 | A concrete run: a wait times out, the client asks again, and is answered with the response to its first request |
| ProtocolTheorems.EntryLifetimeIff | src/worker.c:38-69 | The entry a worker delivers to is registered and open, from the pop of the task to the signal, if and only if a client thread still serves the connection |
| ProtocolTheorems.EntryLifetime | src/worker.c:38-69 | That is so while no wait of the client was lost, though the map's mutex is released in between |
| ProtocolRuns.UseAfterFree | src/worker.c:49-58 | A concrete run: a wait times out, the worker looks the entry up, the client quits and its entry is freed, and the worker goes on to use it |
| ProtocolTheorems.NothingDiscarded | src/worker.c:70-76 | A response is never thrown away while its client is registered, nor while no wait of the client was lost |
| ProtocolTheorems.PoppedAtMostOnce | src/worker.c:107-113 | Every accepted task is either in the queue or has been popped exactly once |
| ProtocolTheorems.RequestsAccounted | src/client.c:54-56 | Every number given to a request belongs to exactly one, which was submitted or is about to be pushed by the thread that read it |
| ProtocolTheorems.PushOutcome | src/queue.c:100-103 | A push before the close queues the request; after it the request is dropped and the client waits all the same |
| ProtocolTheorems.ExitedMeansDrained | src/queue.c:145-150 | A thread that got NULL leaves a queue that is closed and empty, and every step keeps it so |
| ProtocolTheorems.DrainedAtShutdown | src/main.c:174-179 | Once all workers have ended, every task whose push was accepted has been popped exactly once and its response delivered, taken, or thrown away, the last only when its client has left after a lost wait |
| ProtocolTheorems.StoppedMeansDone | src/main.c:174-180 | After the joins every other thread has exited and all three queues are closed |
| ProtocolSteps.Asks | src/client.c:65-107 | A line with any command but QUIT becomes a request of that kind for that connection |
| ProtocolSteps.Ignores | src/client.c:111-114 | A line with no command changes nothing and the connection is served on |
| ProtocolSteps.SubmitsTo | src/queue.c:125-128 | A push wakes one sleeper and adds exactly the request |
| ProtocolSteps.LooksInVain | src/worker.c:72-76 | A worker that does not find the entry goes back to its queue |
| ProtocolSteps.SignalsNobody | src/worker.c:62-67 | An entry that was not empty is not signalled |
| ProtocolRuns.PoolsOfAnySize | src/main.c:141-150 | The pools of client and worker threads may be of any size |
| ProtocolRuns.EachKindIsAnswered | src/worker.c:124-315 | Concrete runs: a command of each kind is read, pushed, served and answered with its own response, both pools being woken from sleep |
| ProtocolRuns.ShutsDown | src/main.c:174-180 | A concrete run that serves a request and ends with every thread joined |
| ProtocolHistory.HistoryFree | src/client.c:121-201 | Whether a step is possible, and what it does to all but the history, does not depend on the history |
| ProtocolTaskQueue.HeapStepIsStep | src/queue.c:131-169 | What the heap makes a popping worker do is one of the things that the bag leaves open |
| ProtocolTaskQueue.HeapRunKeeps | src/queue.c:92-169 | In every run with the heap as task queue the array holds exactly the bag, is closed exactly when the bag is, and is in heap order under a total preorder |
| ProtocolTaskQueue.HeapRunIsRun | src/queue.c:92-169 | Every run of the threads with the heap as task queue is a run of the protocol |
| ProtocolTaskQueue.HeapLetsStep | src/queue.c:140-150 | A thread that can step with the bag can step with the heap |
| ProtocolTaskQueue.NothingToTake | src/queue.c:140-150 | A worker with nothing to take leaves if and only if the pop returned NULL, and else sleeps |
| ProtocolTaskQueue.TakesMaximum | src/worker.c:107-113 | Whatever the interleaving, the task a worker takes is a maximum of all that are queued, for any total preorder |
| ProtocolTaskQueue.WorkersTakeLeastUrgent | src/worker.c:107-113 | As written, no queued task is less urgent than the one a worker takes |
| ProtocolTaskQueue.DocumentedWorkersTakeMostUrgent | include/types.h:45-47 | With the documented sign none is more urgent |
| ResponseMap.FindEntry | src/client.c:129-137 | The scan returns the first entry with the id, or nothing when there is none |
| ResponseMap.Register | src/main.c:40-60 | Registration is a push of the entry: refused exactly when the map is closed |
| ResponseMap.Deregister | src/main.c:64-84 | Returns the entry found and leaves the array with the last entry in its place, one shorter; an unknown id changes nothing |
| ResponseMap.LeaveKeepsRouting | src/main.c:69-83 | Swap-with-last removal deletes the entry of the client and no other |
| ResponseMap.ScanAfterAnyRun | src/main.c:152-168 | Over any history, with any comparator at each push, the scan finds the entry of each live client and nothing else; ids are distinct and below the next one |
| ResponseMap.RemovalKeepsHeapIff | src/main.c:78-83 | Removal keeps the heap order if and only if the last entry was removed or fits where it is moved |
| ResponseMap.RemovalCanBreakHeap | src/main.c:78-83 | A concrete heap whose order removal destroys |
| Scanning.ScanDecimal | src/client.c:90 | Every size below 2^64 that %zu prints is read back by %zu, and the rest of the line is kept |
| Scanning.ScanNumeral | src/client.c:90 | %zu of a numeral: 2^64 - 1 for what is larger, and 2^64 less the number after a minus sign |
| Scanning.SpacesAre | src/client.c:68 | The characters that separate words are the six of the C locale |
| Scanning.DigitsAre | src/client.c:90 | The digits are 0 to 9, in this order |
| Scanning.SnprintfCuts | src/client_program.c:126 | What is printed is the beginning of the text, as much of it as the buffer holds |
| Scanning.DecimalOfValue | src/client_program.c:195 | Printing the value of a numeral without leading zeros gives the numeral back |
| Scanning.ValueOfDecimal | src/client_program.c:195 | What is printed for a number is a numeral, and denotes the number |
| Framing.ReceiveLine | src/client.c:16-30 | The byte loop returns, and leaves in the buffer, exactly the text up to the newline or the full buffer, the unfinished rest at the end of the stream, or -1 there |
| Framing.UnfinishedLine | src/client.c:21 | What is left at the end of the stream without a newline is returned, and then -1 |
| Framing.FramingExact | src/client.c:16-30 | Repeated calls return exactly the lines sent if and only if each is at most two bytes shorter than the buffer |
| Sessions.ReadSession | src/client.c:46-110 | The loop looks at the lines of the connection up to the end of the stream, an empty line, or the first line that begins with QUIT |
| Sessions.SessionExact | src/client.c:46-110 | The loop looks at exactly the lines sent if and only if each has 1 to 510 bytes, the last at most 511, and only the last begins with QUIT (stated for any buffer size, here 512) |
| Commands.ParseLine | src/client.c:65-114 | The branches that fill the task compute the task of the line's keyword and its conversions; QUIT hangs up and an unknown line is ignored |
| Commands.SscanfOfWords | src/client.c:65-110 | Scanning printed words with conversions that suit them gives the words back; the last is cut at its width |
| Commands.LineIsUnderstood | src/client_program.c:94-102 | The line of every well-formed command is dispatched to the task that the client means, with every field and the SIGNUP priority |
| Commands.FittingCommand | src/client_program.c:217-219 | A command that fits is received whole whatever follows it, and the rest of the stream is kept |
| Commands.OverlongUpload | src/client_program.c:194-196 | An upload that does not fit is taken for one whose temporary path is a proper prefix |
| Commands.UnfinishedCommand | src/client_program.c:309-310 | Another command that does not fit leaves the server waiting for its end |
| Commands.RoundTripIff | src/client_program.c:194-196 | Print, `recv_line`, dispatch and `sscanf` recover what the client means if and only if the command fits |
| Commands.AlwaysFits | src/client_program.c:124-126 | LOGIN, DOWNLOAD, LIST and QUIT always fit, and SIGNUP with a priority of at most 119 characters |
| WireFormat.PrintedText | src/client_program.c:99-101 | The text of each command, word by word, cut to 255 or 511 characters |
| WireFormat.FitsIff | src/client_program.c:309-310 | Which commands fit, in numbers: for DELETE, name and path of at most 246 characters together |
| WireFormat.KindIff | src/client.c:65-108 | A line is taken for the command whose name it begins with, whatever follows |
| WireFormat.OutcomeIff | src/client.c:108-114 | A line hangs up if and only if it begins with QUIT, and is ignored if and only if it begins with no command |
| WireFormat.SignupPriority | src/client.c:71-82 | The priority of a SIGNUP is HIGH if and only if its third word is HIGH letter by letter in either case, LOW if and only if it is LOW, and else NORMAL |
| WireFormat.FewWords | src/client.c:68-105 | Words that are missing leave their fields empty; a SIGNUP of two words has priority NORMAL |
| WireFormat.BrokenUpload | src/client.c:90 | An UPLOAD without its last word keeps its size; one whose third word is no number has size 0 and no temporary path |
| Sessions.SessionRoundTrip | src/client.c:46-110 | Any number of commands that fit, printed one after the other: the server looks at the lines of those up to the first QUIT, and each is understood as it was meant |
| Worker.ServeUpload | src/worker.c:186-236 | Answers OK exactly when paths, user, size, temporary file and copy allow it; never for more than 10 MiB |
| Worker.ServeDownload | src/worker.c:237-280 | Exactly one of the branches sends a response: the path of the copy, or the first complaint |
| Worker.ServeTask | src/worker.c:124-315 | Each task that can be pushed is answered by exactly one response; the line it becomes begins with OK if and only if the user and the file results that its kind needs are there, kind by kind |
| Worker.SignupVerdict | src/worker.c:125-140 | The response to a SIGNUP, in words |
| Worker.LoginVerdict | src/worker.c:141-185 | The response to a LOGIN |
| Worker.UploadVerdict | src/worker.c:186-236 | The response to an UPLOAD, with the reasons to refuse it in their order and the limit of 10 MiB |
| Worker.DownloadVerdict | src/worker.c:237-280 | The response to a DOWNLOAD |
| Worker.DeleteVerdict | src/worker.c:281-295 | The response to a DELETE: "deleted" only if the file was removed |
| Worker.ListVerdict | src/worker.c:296-313 | The response to a LIST |
| Worker.UsersAfter | src/worker.c:129 | Only a SIGNUP of a new name changes the users; the account has a quota of 100 MiB |
| Worker.LineTaskFits | src/client.c:68-105 | Whatever the line, the strings of its task fit their fields and its kind is one that is answered |
| Worker.ServerRefinesMap | src/worker.c:124-315 | Whatever lines clients send and in whatever order their tasks are served, every response, status and message, is the one that a map from name to password and quota calls for |
| Listing.PrintAt | src/fs.c:254 | One bounded print: what it writes, where, and the length it reports |
| Listing.FsList | src/fs.c:245-260 | The buffer is left as if the newline-terminated listing had been printed over it once; nothing is written past its end |
| Listing.ShownOne | src/fs.c:253 | A name is shown unless it is `.` or `..` |
| Listing.ShownCounts | src/fs.c:252-253 | Every other name is shown as often as the directory has it |
| Listing.OverlayText | src/worker.c:297 | In a zeroed buffer that text is the first buflen-1 characters of the listing |
| Listing.ListTask | src/worker.c:296-313 | LIST succeeds exactly for a known user whose directory opens, with the first 511 characters of the listing |
| Listing.ReplyText | src/client.c:190-193 | For every message that fits a response the line is OK or ERR, a space, the message and a newline |
| Listing.ReplyStatus | src/client_program.c:115 | The first two characters of the line are OK if and only if the response is a success |
| Listing.TimeoutText | src/client.c:181-187 | What a client is told when its wait times out |
| Listing.ListingReachesClient | src/client.c:190-194 | The client's line is OK and the first 511 characters of the listing; all of it if and only if there are no more |
| Listing.CutListing | src/fs.c:254-256 | A cut listing is a number of whole names and at most a proper part of the next |
| Cipher.XorCipher | src/crypto.c:9-14 | Every output byte is the input byte XOR the key byte at its index modulo the key length |
| Cipher.KeyIsText | src/crypto.c:18 | The key is the text MySecretKey123 |
| Cipher.Upload | src/fs.c:46-71 | The copy loop stores the file encoded in chunks of 8192 bytes |
| Cipher.Download | src/fs.c:164-200 | The copy loop delivers the stored file decoded in chunks of 8192 bytes |
| Cipher.StoredByte | src/crypto.c:9-14 | The stored byte at i is the source byte XOR key[(i % chunk) % keylen], for every key and chunk size |
| Cipher.FileRoundTrip | src/fs.c:164-200 | Download gives back every file that upload stored, whatever its length |
| Cipher.StoredFile | src/fs.c:46-71 | The stored byte at i is the source byte XOR key[(i % 8192) % 14] and differs from the source byte |
| Cipher.ChunkSizesMustMatch | src/crypto.c:17-31 | Decoding with another chunk size undoes encoding for every file if and only if the sizes are equal or both multiples of 14; with 8192 on one side only 8192 works |
| UserStore.Store.Signup | src/user_db.c:182-219 | Succeeds exactly when no stored name equals the new one, and then puts the cut name and password in front |
| UserStore.Store.Login | src/user_db.c:248-267 | Succeeds exactly when the first account of that name has that password |
| UserStore.Store.LockUser | src/user_db.c:304-324 | A fresh copy with the name and quota of the first account of that name, all else zero; nothing when there is none |
| UserStore.ListRefinesMap | src/user_db.c:182-324 | A list that represents a map answers every history of names and passwords of at most 63 characters as the map does, and ends representing it |
| UserStore.HistoryRefinesMap | src/user_db.c:182-324 | The same from the empty list: SIGNUP succeeds exactly for a new name, login exactly for the password of that signup, a lookup gives its quota, and stored names are pairwise distinct |
| UserStore.RunTruncates | src/user_db.c:203-204 | After any history stored names and passwords have at most 63 characters |
| UserStore.FindIsFirst | src/user_db.c:255-263 | Of several accounts with a stored name the first in the list counts, the one signed up last |
| UserStore.SignupThenFindIff | src/user_db.c:203 | After any history and one more SIGNUP of a name, accepted or not, the name is found if and only if it has at most 63 characters |
| UserStore.SignupThenLoginIff | src/user_db.c:203-204 | Whatever the list, logging in with what was just accepted works if and only if both strings have at most 63 characters |
| UserStore.LongNameSignsUpTwice | src/user_db.c:188-204 | A concrete name of 64 characters that is accepted twice |

## Left out

- Sockets, signals, logging and real clocks: a timeout is a step that may happen at any time, and `enqueue_time` is arbitrary, since it is stamped before the push and outside the lock (src/task.c:19).
- Failure of `malloc`, `calloc` and `realloc`, and the release of memory other than that of entries; what a worker does after it has used a freed entry.
- Which response follows a lost wait: it depends on the order of the entry's queue, whose comparator has no meaning for responses.
- The comparator on entries, responses and connections: it casts them to tasks and reads what is there. It is modelled as an arbitrary function for each operation. One call of a sifting loop never compares the same two addresses in the same order twice, so a function is enough for it.
- The `priority` argument of `queue_push`, which is stored and never read.
- `queue_size` and `queue_peek`, which nothing calls, and the destruction of the queues at the end of `main`.
- SQLite branches of src/user_db.c, and src/user.c, which the build does not include.
- Per-user locking and quotas, which the server does not enforce; the mutex of the user store, which is taken and released inside single calls of the store.
- `receive_file_data` and `send_file_data`: the client takes the whole first buffer for the header (src/client_program.c:273), so that no round trip holds; the server's call is never reached, because the looked-up user never has priority HIGH.
- The paths of src/fs.c on which opening, reading or writing fails: reads are short only at the end of the file. `Worker` takes the outcome of each file operation, and the text of a printed size, as a parameter.
- A line unfinished at the end of the stream: `recv_line` returns it without a terminator (src/client.c:21), and what the parser then sees depends on the buffer's older contents.
- Strings with NUL characters inside.
- The login check of `send_command`, the interactive menu, temporary path names, src/config.c, src/priority.c and the repository's tests: input and output, or easy.
- Client threads that stay blocked in `read` at shutdown: that they come back is not claimed. Tasks pushed after the task queue was closed are `Dropped`; src/client.c:121 ignores the refusal.
- Liveness in general: the progress lemmas say that a step is possible, not that the scheduler takes it.
- Cipher.Upload: the loop that reads in its condition is written as read, test and break.
- UserStore.Store.Signup: the creation of the user's directory is not modelled; nodes are constant because nothing writes them once they are linked.
- ProtocolTheorems.DrainedAtShutdown: a worker that has used a freed entry counts as ended.
