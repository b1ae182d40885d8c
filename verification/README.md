# Verified models of an operating-systems course

The repository is the code of an operating-systems course: small concurrent protocols over semaphores,
locks and shared memory, and a few sequential programs with real index arithmetic. This project models the
hardest of them and proves what they are for.

Each concurrent program is a labelled transition system (`Runs.System`): a program counter for each thread,
semaphores as naturals, shared memory as fields, and history fields that only record. Each access to shared
memory or to a semaphore is one step, the number of threads and the sizes are arbitrary, and the theorems
are about every interleaving: an invariant over every run, and where a run must end a measure that bounds it.
The sequential programs are imperative Dafny over arrays and files with an offset, proved against
specification functions about which the promises are then proved.

| module | program |
|---|---|
| Options, Runs, Counting, Modular | options, runs and invariants, sums over threads, arithmetic modulo n |
| Router, RouterLocks, RouterLists, RouterActors, RouterRoutes, RouterRuns | message router: senders, master, linked queues, semaphores; its invariant part by part, and its runs |
| Censor | censors comparing and starring one shared word, byte by byte |
| Broadcast | one writer, N readers, three counting semaphores |
| Scatter | input dealt in chunks to n files and dealt back by a handler, in two implementations |
| BoundedQueue, SlotSemaphores, SlotLocks, CounterBuffer | three bounded buffers against one queue |
| ReadersWriters | readers, one writer, and a reader that exits inside its section |
| LoadBalancer | packets to the shortest of several queues, lengths read without the lock |
| TokenRing | a number passed round a ring of shared cells |
| HandOff | two mutexes that pass the turn between main and workers |
| ShellText, ShellStages, ShellParser, ShellPipes, CommandLine | strtok, the stages a line stands for and those the shell makes of it, the command-line parser, the stage loop with its pipes, the command-line printer |
| PageAllocator | bitmap allocator of contiguous pages |
| Files, FileReverse, MiniTar | files with an offset, reversal in place, archiver and extractor |

Five results contradict what a reader of the code might expect:

- A fast reader of the broadcast can read one message twice, against the comment in exercise4 at lines 84-91.
  `Broadcast.NoRepeatExactlyWhen` says when the comment is right.
- The page allocator never tries the last start and can pass over a gap that fits.
  `PageAllocator.SearchIsExact` says which starts it can grant.
- The shell looks for the next stage behind the first '|' character, not behind the bar it has counted to.
  `ShellParser.NextStageExactlyWhen` says when the two are the same, `ShellParser.LostStage` shows a line on which
  they are not. Such a line can even leave a pipe to the first stage of the next line;
  `ShellStages.LeavesPipeExactlyWhen` says which lines do.
- Every stage of a pipeline but the last keeps the read end of its own output pipe open
  (`ShellPipes.RedirectedIsStage`, `ShellPipes.PipelineConnects`).
- Positions in an archive are stored as int. A content that ends between 2^31 and 2^32 is extracted as nothing,
  while those before it come out right (`MiniTar.RoundTrip`, `MiniTar.ExtractedExactlyWhen`; `MiniTar.LongArchive` is an
  example), and the empty name finds the first unused slot unless the archive is full (`MiniTar.ArchiveAnswers`).

## Model

| member | source | states |
|---|---|---|
| RouterRuns.RouterDelivers | Tutoraggio SO/Tutoraggio 12/exercise2(UNIX).c:37-118 | In every run, for each thread: received, in hand, queued, in the master's hand and in the master queue make up, in this order, everything pushed for it; what it received is a prefix of that, and each sender's messages arrive in sending order |
| RouterRuns.RouterQueues | Tutoraggio SO/Tutoraggio 12/exercise2(UNIX).c:37-118 | In every run each queue is an acyclic list, disjoint from every other; head and tail are both null or both set when the lock is free; its length is the semaphore plus pushes not yet posted plus waits not yet popped |
| RouterRuns.RouterIsMemorySafe | Tutoraggio SO/Tutoraggio 12/exercise2(UNIX).c:37-114 | In every run no step follows a null or dangling pointer; in particular no dequeue finds a null head |
| RouterRuns.StepInv | Tutoraggio SO/Tutoraggio 12/exercise2(UNIX).c:29-120 | Each step of any sender or of the master keeps ownership, heap, semaphore and order invariants together |
| Router.NoFault | Tutoraggio SO/Tutoraggio 12/exercise2(UNIX).c:41-44 | No enabled step of a state with the invariant dereferences null or freed memory |
| RouterRuns.NobodyIsStuck | Tutoraggio SO/Tutoraggio 12/exercise2(UNIX).c:29-120 | In every run each sender and the master can go on, or waits for a lock whose holder can go on, or is the master with nothing posted for it |
| Router.HeadThere | Tutoraggio SO/Tutoraggio 12/exercise2(UNIX).c:97-100 | Whoever is about to advance a head finds a non-empty queue whose head is the packet it read |
| Router.MutualExclusion | Tutoraggio SO/Tutoraggio 12/exercise2(UNIX).c:39-46 | Two actors are never inside the same queue |
| Censor.CensorRuns | Esami pratici/prova-pratica-23-1-2019/ex.c:43-223 | In every run, byte by byte: the output is the censoring of a prefix of the words, main never touches the buffer while a thread compares or stars, every thread examines every word once, and once all threads have posted the buffer is all stars or the word itself |
| Censor.BufferIsCensored | Esami pratici/prova-pratica-23-1-2019/ex.c:56-72 | Whatever the interleaving of compares and star writes, when all threads are done with a word the buffer is as many stars as the word has letters if the word is one of the strings, and the word otherwise |
| Censor.CompareProgress | Esami pratici/prova-pratica-23-1-2019/ex.c:57 | A byte that differs shows that the thread's string is not the word, or that another thread starred it; an equal byte extends the common prefix |
| Censor.Match | Esami pratici/prova-pratica-23-1-2019/ex.c:57-59 | A thread that reaches both terminators has a string as long as the word, and the word is censored even if the buffer was half starred when it compared |
| Censor.StepInv | Esami pratici/prova-pratica-23-1-2019/ex.c:43-223 | Each step keeps token laws, buffer law and per-thread progress |
| Censor.AllIdle | Esami pratici/prova-pratica-23-1-2019/ex.c:173-187 | When main has taken back one token per thread every thread waits for its next token |
| Censor.NeverStuck | Esami pratici/prova-pratica-23-1-2019/ex.c:43-223 | No reachable state before the end of the input is stuck |
| Censor.MeasureDrops | Esami pratici/prova-pratica-23-1-2019/ex.c:43-223 | Every step, whoever makes it, lowers a measure of the words, the strings and the buffer |
| Censor.CensorEnds | Esami pratici/prova-pratica-23-1-2019/ex.c:156-223 | No run is longer than a bound in the number of words, and a run that cannot go on has printed the censoring of all of them |
| Broadcast.BroadcastSafety | Tutoraggio SO/Tutoraggio 11/exercise4(UNIX).c:57-141 | In every run nobody reads while the writer writes, every message before the newest was read exactly N_READER times with its full text, and after the final drain this holds for all N_STEP messages |
| Broadcast.InvIsSafe | Tutoraggio SO/Tutoraggio 11/exercise4(UNIX).c:205-216 | The token laws imply exclusion and complete rounds; when the drain has succeeded every message was read N_READER times and all readers are at the barrier |
| Broadcast.StepInv | Tutoraggio SO/Tutoraggio 11/exercise4(UNIX).c:41-142 | Each semaphore operation, read and write keeps the two balance laws of the semaphores |
| Broadcast.NeverStuck | Tutoraggio SO/Tutoraggio 11/exercise4(UNIX).c:51-216 | No reachable state before completion is stuck |
| Broadcast.MeasureDrops | Tutoraggio SO/Tutoraggio 11/exercise4(UNIX).c:57-141 | Every step lowers a measure of N_STEP and N_READER by exactly one |
| Broadcast.BroadcastLiveness | Tutoraggio SO/Tutoraggio 11/exercise4(UNIX).c:182-216 | No run is longer than 4 N_READER N_STEP + 5 N_STEP + 1 steps, a run has completed exactly when it has that length, and any shorter one can go on |
| Broadcast.OvertakingRepeats | Tutoraggio SO/Tutoraggio 11/exercise4(UNIX).c:84-96 | With two or more readers there is a run in which one reader reads a message twice |
| Broadcast.NoRepeatExactlyWhen | Tutoraggio SO/Tutoraggio 11/exercise4(UNIX).c:84-96 | The comment's claim that no reader reads a message twice holds in all runs exactly when there is one reader or no message |
| Scatter.ScatterRuns | Esami pratici/prova-pratica-19-9-2018/ex.c:79-222 | In every run of either program file k holds exactly its share of the chunks written, and main refills the buffer only while every thread sleeps and none has been woken |
| Scatter.FileHoldsEveryNth | Esami pratici/prova-pratica-19-9-2018/ex.c:189-222 | The q-th chunk of file f is chunk f + q n of the input |
| Scatter.RoundTrip | Esami pratici/prova-pratica-19-9-2018/ex.c:41-62 | A handler that has finished printed a prefix of the input, at least what was on file when it started, at most what is on file now |
| Scatter.HandlerProgress | Esami pratici/prova-pratica-19-9-2018/prog.c:98-128 | The handler's next read yields the next chunk if it is on file, and otherwise ends the printing with all that is on file |
| Scatter.NextPiece | Esami pratici/prova-pratica-19-9-2018/prog.c:106-128 | The piece read at the handler's file and offset is the next chunk of the input, or nothing |
| Scatter.WrittenGrows | Esami pratici/prova-pratica-19-9-2018/ex.c:93 | What is on file stays on file |
| Scatter.StepInv | Esami pratici/prova-pratica-19-9-2018/prog.c:136-223 | In both programs exactly one token exists, and each step keeps the chunk it stands for and the files |
| Scatter.NeverStuck | Esami pratici/prova-pratica-19-9-2018/ex.c:79-222 | The dealing never gets stuck |
| SlotSemaphores.RefinesQueue | SO esempi/7_SYNCHRONIZATION/UNIX/semaphores/semaphore-producer-consumer.c:29-92 | Every run simulates a FIFO queue of capacity SIZE: items are delivered in order, at most SIZE are outstanding, the protocol-broken branch is unreachable, and the consumer ends after END |
| SlotSemaphores.StepSimulates | SO esempi/7_SYNCHRONIZATION/UNIX/semaphores/semaphore-producer-consumer.c:29-92 | Each step is one queue operation or none |
| SlotSemaphores.StepInv | SO esempi/7_SYNCHRONIZATION/UNIX/semaphores/semaphore-producer-consumer.c:29-92 | Slot i mod SIZE holds item i for every outstanding i, and its two semaphores together with the two processes hold one token |
| SlotSemaphores.NeverStuck | SO esempi/7_SYNCHRONIZATION/UNIX/semaphores/semaphore-producer-consumer.c:29-92 | No reachable state is stuck before the consumer has ended |
| SlotLocks.StepIsSemaphoreStep | SO esempi/7_SYNCHRONIZATION/UNIX/spinlocks/synchronized-producer-consumer-V1.c:41-90 | A step with try-locks is the same step with semaphores, or a failed attempt that changes nothing |
| SlotLocks.RefinesQueue | SO esempi/7_SYNCHRONIZATION/UNIX/spinlocks/synchronized-producer-consumer-V1.c:41-90 | The try-lock form simulates the same queue; its protocol-broken branch is unreachable |
| SlotLocks.NeverSpinsForever | SO esempi/7_SYNCHRONIZATION/UNIX/spinlocks/synchronized-producer-consumer-V1.c:41-90 | In every reachable state before the consumer has ended some step is no failed attempt |
| CounterBuffer.RefinesQueue | SO esempi/7_SYNCHRONIZATION/UNIX/pthread-spinlocks-mutexes/pthread-mutex-producer-consumer.c:26-78 | The form with a global mutex simulates the same queue, its counter is always the number of items, and its protocol-broken branch is unreachable |
| CounterBuffer.NeverStuck | SO esempi/7_SYNCHRONIZATION/UNIX/pthread-spinlocks-mutexes/pthread-mutex-producer-consumer.c:26-78 | Before the consumer has ended a thread that cannot take the mutex waits for one that can go on, and the buffer is not full and empty at once |
| CounterBuffer.StepSimulates | SO esempi/7_SYNCHRONIZATION/UNIX/pthread-spinlocks-mutexes/pthread-mutex-producer-consumer.c:26-78 | Each step under the mutex is one queue operation or none |
| ReadersWriters.ReadersSeeSnapshots | SO esempi/7_SYNCHRONIZATION/UNIX/readers-writers-synchronization/readers-writers-syncronization.c:34-116 | In every run each completed sum is SIZE times the last fully written value, the values one reader sees never decrease, at most NUM_READERS readers are inside and none while the producer fills the array |
| ReadersWriters.Snapshot | SO esempi/7_SYNCHRONIZATION/UNIX/readers-writers-synchronization/readers-writers-syncronization.c:93-96 | While a reader is inside, the whole array holds one value |
| ReadersWriters.StepInv | SO esempi/7_SYNCHRONIZATION/UNIX/readers-writers-synchronization/readers-writers-syncronization.c:34-116 | Each step keeps the token laws of both semaphores and the array's contents |
| ReadersWriters.UndoReturnsTheToken | SO esempi/7_SYNCHRONIZATION/UNIX/readers-writers-synchronization/readers-writers-syncronization.c:79-104 | A reader that exits inside its section leaves both semaphores as a post would have, so the token laws still hold |
| ReadersWriters.NeverStuck | SO esempi/7_SYNCHRONIZATION/UNIX/readers-writers-synchronization/readers-writers-syncronization.c:34-116 | No reachable state is stuck |
| LoadBalancer.BalancerRuns | Tutoraggio SO/Tutoraggio 12/exercise1(UNIX).c:29-91 | In every run a consumer that saw a positive length without the lock never pops an empty queue; a free queue's length is exact; every packet is queued, in hand or consumed as often as it was produced |
| LoadBalancer.NoFault | Tutoraggio SO/Tutoraggio 12/exercise1(UNIX).c:74-84 | The consumer never follows a null head and the length never wraps below zero |
| LoadBalancer.LeastLoaded | Tutoraggio SO/Tutoraggio 12/exercise1(UNIX).c:44-55 | A producer about to lock its choice has a shortest queue, failed attempts included, unless some length was stored since it made its packet |
| LoadBalancer.ProducerConserves | Tutoraggio SO/Tutoraggio 12/exercise1(UNIX).c:57-59 | A producer's step moves packets but loses and duplicates none |
| LoadBalancer.ConsumerConserves | Tutoraggio SO/Tutoraggio 12/exercise1(UNIX).c:80-90 | A consumer's step moves packets but loses and duplicates none |
| TokenRing.RingRuns | Tutoraggio SO/Tutoraggio 10/esercizio3(UNIX).c:32-113 | In every run the reads are 1, 2, ... in order, number k by process (k - 1) mod n; if all processes have exited there were exactly limit - 1 + n reads, otherwise some step changes the state; the changing steps of a run are bounded |
| TokenRing.StepInv | Tutoraggio SO/Tutoraggio 10/esercizio3(UNIX).c:32-47 | Each step keeps the one number in the ring and what each process read last |
| TokenRing.InEveryRound | Tutoraggio SO/Tutoraggio 10/esercizio3(UNIX).c:34-39 | Of any n numbers in a row each process reads one |
| TokenRing.RoundBefore | Tutoraggio SO/Tutoraggio 10/esercizio3(UNIX).c:36-37 | A number that arrives differs from the one its reader read last, which is a full round older |
| TokenRing.ExitedMeansOver | Tutoraggio SO/Tutoraggio 10/esercizio3(UNIX).c:34-47 | When all have exited all limit - 1 + n numbers were read |
| TokenRing.MeasureDrops | Tutoraggio SO/Tutoraggio 10/esercizio3(UNIX).c:32-47 | Every step that changes the state lowers a measure; only busy waiting changes nothing |
| HandOff.HandOffRuns | Esami pratici/prova-pratica-26-6-2018/prog-A-solution.c:100-229 | In every run each integer read is on exactly one list, in exactly one worker's hand or still to be copied; lists are newest first; main never overwrites an integer nobody has copied |
| HandOff.NothingNewer | Esami pratici/prova-pratica-26-6-2018/prog-A-solution.c:112-119 | While an integer is pending, everything a worker has is older |
| HandOff.NeverStuck | Esami pratici/prova-pratica-26-6-2018/prog-A-solution.c:100-229 | With at least one worker no reachable state is stuck |
| ShellText.Tokenizer.First | Tutoraggio SO/Tutoraggio 8/esempio2(shell-pipe)(UNIX).c:34 | strtok on a fresh string, after section 7.24.5.8 of ISO/IEC 9899:2011: position of the first word, its end overwritten, state kept for the next call |
| ShellText.Tokenizer.Again | Tutoraggio SO/Tutoraggio 8/esempio2(shell-pipe)(UNIX).c:45 | strtok with a null pointer goes on behind the last word |
| ShellText.CutLaw | Tutoraggio SO/Tutoraggio 8/esempio2(shell-pipe)(UNIX).c:123-126 | After a call the token is the first word, and the rest of the text is as before for the next call |
| ShellParser.CountArgs | Tutoraggio SO/Tutoraggio 8/esempio2(shell-pipe)(UNIX).c:14-96 | The number of words of the first stage or -1 for a blank text, whether another stage follows, and the position two behind the first bar character; the line itself is not changed |
| ShellParser.FindBar | Tutoraggio SO/Tutoraggio 8/esempio2(shell-pipe)(UNIX).c:69-71 | The scan finds the first bar character even where strtok has put ends of strings |
| ShellParser.BuildArgVector | Tutoraggio SO/Tutoraggio 8/esempio2(shell-pipe)(UNIX).c:99-139 | The vector points at the first argNum words as strings and ends with NULL; the buffer differs from the line only by ends of strings behind those words |
| ShellParser.NextStageExactlyWhen | Tutoraggio SO/Tutoraggio 8/esempio2(shell-pipe)(UNIX).c:69-77 | The next command starts right behind the bar exactly when no word of the counted stage has a bar character in it; otherwise it starts inside that stage |
| ShellParser.LostStage | Tutoraggio SO/Tutoraggio 8/esempio2(shell-pipe)(UNIX).c:69-77 | A line on which the scan goes wrong and a stage is lost |
| ShellParser.NextWords | Tutoraggio SO/Tutoraggio 8/esempio2(shell-pipe)(UNIX).c:69-77 | For every line, cuts of this stage included: the words at next_command are the next stages, or the rest of a word with a bar character in it, the word behind that one, or the bar and what follows |
| ShellParser.ParseStage | Tutoraggio SO/Tutoraggio 8/esempio2(shell-pipe)(UNIX).c:200-210 | One round of parsing, for every line: whether it is blank, the stage's arguments as execvp sees them, whether another stage follows, and the words that the next round will see |
| ShellStages.LaunchedIsSplit | Tutoraggio SO/Tutoraggio 8/esempio2(shell-pipe)(UNIX).c:69-77 | If no word of any stage but the last has a bar character in it, the stages launched are exactly those of the line and no pipe is left |
| ShellStages.OrderlyBarsAlone | Tutoraggio SO/Tutoraggio 8/esempio2(shell-pipe)(UNIX).c:45-96 | Lines whose bars stand alone, none first in its stage, are such lines |
| ShellStages.LeavesPipeExactlyWhen | Tutoraggio SO/Tutoraggio 8/esempio2(shell-pipe)(UNIX).c:69-77 | The last process of a line writes to a pipe that nobody reads exactly when the first bar character inside a word, of any stage but the last, is the second to last character of its word |
| ShellStages.SplitUndoesJoin | Tutoraggio SO/Tutoraggio 8/esempio2(shell-pipe)(UNIX).c:45-96 | The stage split recovers any non-empty stages that were joined by bars |
| ShellStages.JoinUndoesSplit | Tutoraggio SO/Tutoraggio 8/esempio2(shell-pipe)(UNIX).c:45-96 | Joining the stages gives back the words, but for a bar at the end |
| ShellStages.SplitIsProper | Tutoraggio SO/Tutoraggio 8/esempio2(shell-pipe)(UNIX).c:45-96 | The stages of an orderly line are not empty and hold no bar |
| ShellPipes.Shell.constructor | Tutoraggio SO/Tutoraggio 8/esempio2(shell-pipe)(UNIX).c:149-151 | The shell starts with its own descriptors and no pipe pending |
| ShellPipes.Shell.OpenPipe | Tutoraggio SO/Tutoraggio 8/esempio2(shell-pipe)(UNIX).c:228-235 | The two lowest free descriptors become the ends of a new pipe |
| ShellPipes.Redirect | Tutoraggio SO/Tutoraggio 8/esempio2(shell-pipe)(UNIX).c:253-255 | close, dup, close moves a descriptor to the standard one |
| ShellPipes.RedirectedIsStage | Tutoraggio SO/Tutoraggio 8/esempio2(shell-pipe)(UNIX).c:251-270 | The child's table: the pipe before as input, the new pipe as output, and the new pipe's read end still open |
| ShellPipes.Shell.KeepReadEnd | Tutoraggio SO/Tutoraggio 8/esempio2(shell-pipe)(UNIX).c:290-307 | The shell closes the read end of the pipe before and the write end of the new one |
| ShellPipes.Shell.Launch | Tutoraggio SO/Tutoraggio 8/esempio2(shell-pipe)(UNIX).c:221-307 | One stage: arguments and descriptors of the child, and a pipe pending exactly if another stage follows, with one extra read end open then and none otherwise |
| ShellPipes.Shell.RunLine | Tutoraggio SO/Tutoraggio 8/esempio2(shell-pipe)(UNIX).c:185-322 | For every line, even with a pipe pending from the line before: the loop ends, launches exactly the stages that ShellStages.Launched gives for its words, the first reads the pipe pending before, each other one the pipe of its predecessor, and a pipe is pending afterwards exactly for lines that leave one |
| ShellPipes.PipelineConnects | Tutoraggio SO/Tutoraggio 8/esempio2(shell-pipe)(UNIX).c:251-307 | In such a pipeline, none pending before or after, each stage writes what the next reads, the ends are the shell's own, each write end is held by its writer's output alone, and each stage but the last keeps the read end of its own pipe |
| CommandLine.BuildCommandLine | SO esempi/5_PIPES-MESSAGES/WINDOWS/shell-with-pipes/shell-pipe.c:58-69 | The arguments with single blanks between them and the end of the string behind the last, and nothing else overwritten |
| CommandLine.RoundTrip | SO esempi/5_PIPES-MESSAGES/WINDOWS/shell-with-pipes/shell-pipe.c:58-69 | A line written from words reads back as these words |
| CommandLine.StageReadsBack | SO esempi/5_PIPES-MESSAGES/WINDOWS/shell-with-pipes/shell-pipe.c:103-106 | The command line written for a stage reads back as the arguments of the stage |
| PageAllocator.SearchIsExact | Tutoraggio SO/Tutoraggio 9/esercizio2(UNIX).c:108-128 | The search from page 0 grants the lowest admissible start, and refuses exactly if there is none |
| PageAllocator.SearchNearlyComplete | Tutoraggio SO/Tutoraggio 9/esercizio2(UNIX).c:108-128 | A granted block is free and ends before the last page; a request for c pages is granted whenever c + 1 free pages in a row end before the last page |
| PageAllocator.LastStartNeverTried | Tutoraggio SO/Tutoraggio 9/esercizio2(UNIX).c:110 | Free pages at the very end are never granted |
| PageAllocator.GapPassedOver | Tutoraggio SO/Tutoraggio 9/esercizio2(UNIX).c:116-124 | A gap of the right size behind a gap too small can be passed over |
| PageAllocator.FreeUndoesAllocate | Tutoraggio SO/Tutoraggio 9/esercizio2(UNIX).c:213-214 | Freeing what was granted restores the bitmap |
| PageAllocator.Allocator.constructor | Tutoraggio SO/Tutoraggio 9/esercizio2(UNIX).c:16-54 | All pages start free and inaccessible |
| PageAllocator.Allocator.FindBlock | Tutoraggio SO/Tutoraggio 9/esercizio2(UNIX).c:108-128 | The nested loops, the inner one moving the outer index, compute the search |
| PageAllocator.Allocator.SetRange | Tutoraggio SO/Tutoraggio 9/esercizio2(UNIX).c:143-150 | Exactly the pages of a range change, in the bitmap and in their access mode |
| PageAllocator.Allocator.Allocate | Tutoraggio SO/Tutoraggio 9/esercizio2(UNIX).c:98-158 | Every outcome and when it arises; a grant marks exactly a block that was entirely free, anything else changes nothing; accessible pages are those marked 1 |
| PageAllocator.Allocator.Free | Tutoraggio SO/Tutoraggio 9/esercizio2(UNIX).c:160-222 | Every outcome and when it arises; a successful one clears exactly the block, which was entirely allocated, anything else changes nothing |
| FileReverse.ReverseByBytes | Tutoraggio SO/Tutoraggio 7/esempio1a(UNIX).c:34-85 | For every content the file ends up exactly reversed |
| FileReverse.ReverseByBlocks | Tutoraggio SO/Tutoraggio 7/esempio1b(UNIX).c:53-120 | For every content and every block size the file ends up exactly reversed, odd lengths and a short last block included, hence as the other program leaves it |
| FileReverse.ExchangeBytes | Tutoraggio SO/Tutoraggio 7/esempio1a(UNIX).c:49-79 | One round through the implicit offset exchanges the two bytes and leaves the offset behind the front one |
| FileReverse.ExchangeBlocks | Tutoraggio SO/Tutoraggio 7/esempio1b(UNIX).c:63-115 | One round through the implicit offset exchanges the two blocks, each reversed, and leaves the offset behind the front one |
| FileReverse.ReverseBuffer | Tutoraggio SO/Tutoraggio 7/esempio1b(UNIX).c:71-76 | The inner loop reverses the first bytes of a buffer in place |
| FileReverse.SwapCarriesOn | Tutoraggio SO/Tutoraggio 7/esempio1b(UNIX).c:117-119 | Exchanging two reversed blocks carries the reversal of the whole on by their length |
| FileReverse.ReversedTwice | Tutoraggio SO/Tutoraggio 7/esempio1a(UNIX).c:34-85 | Reversing twice restores the file |
| MiniTar.Tar | SO esempi/4_VIRTUAL-FILE-SYSTEM/UNIX/mini-tar/mini-tar.c:33-118 | The archive is a header with names and final positions and then the contents; what keeps the sources from being archived is reported, the first obstacle first |
| MiniTar.CopyAll | SO esempi/4_VIRTUAL-FILE-SYSTEM/UNIX/mini-tar/mini-tar.c:79-102 | A file is appended completely, whatever each read returns |
| MiniTar.PlaceAll | SO esempi/4_VIRTUAL-FILE-SYSTEM/UNIX/mini-tar/mini-tar.c:67-111 | Contents are appended one after the other and their positions noted |
| MiniTar.BackPatch | SO esempi/4_VIRTUAL-FILE-SYSTEM/UNIX/mini-tar/mini-tar.c:116-118 | Writing the header again covers the header and nothing else |
| MiniTar.RangeOf | SO esempi/4_VIRTUAL-FILE-SYSTEM/UNIX/mini-tar/mini-tar.c:71-106 | Ranges are adjacent, behind the header, inside the archive, and hold the contents |
| MiniTar.HeaderRoundTrip | SO esempi/4_VIRTUAL-FILE-SYSTEM/UNIX/mini-tar/extract.c:34-40 | A header read back has the names it was written with, and its positions modulo 2^32 as ints |
| MiniTar.IntRoundTrip | SO esempi/4_VIRTUAL-FILE-SYSTEM/UNIX/mini-tar/extract.c:47-48 | Four bytes give back the number modulo 2^32, hence the number itself exactly when it is an int |
| MiniTar.HeaderSurvivesExactlyWhen | SO esempi/4_VIRTUAL-FILE-SYSTEM/UNIX/mini-tar/extract.c:34-48 | The positions read back are those written exactly when the archive is shorter than 2^31 bytes |
| MiniTar.LookupFinds | SO esempi/4_VIRTUAL-FILE-SYSTEM/UNIX/mini-tar/extract.c:42-66 | The search finds the first source of the name, and nothing for a name that is absent, but for the empty name |
| MiniTar.Extract | SO esempi/4_VIRTUAL-FILE-SYSTEM/UNIX/mini-tar/extract.c:34-68 | For every archive, damaged ones included: the extractor prints the range noted for the first slot of the name, bytes behind the end of the archive repeating the one before, or reports a bad header or a name not found |
| MiniTar.ArchiveAnswers | SO esempi/4_VIRTUAL-FILE-SYSTEM/UNIX/mini-tar/extract.c:42-68 | What an archive of any size answers for each name: the range noted for the first source of that name, or not found; the empty name finds an unused slot |
| MiniTar.ExtractedExactlyWhen | SO esempi/4_VIRTUAL-FILE-SYSTEM/UNIX/mini-tar/extract.c:47-62 | The range noted for a source gives its content exactly if it ends below 2^31, is empty, or its wrapped positions name the same bytes; between 2^31 and 2^32 it gives nothing |
| MiniTar.RoundTrip | SO esempi/4_VIRTUAL-FILE-SYSTEM/UNIX/mini-tar/extract.c:34-68 | For every archive, extracting a name gives byte for byte the content of the first source of that name exactly if that content is intact, which below 2^32 the sizes alone decide; an absent non-empty name is not found |
| MiniTar.LongArchive | SO esempi/4_VIRTUAL-FILE-SYSTEM/UNIX/mini-tar/extract.c:47-62 | A file of 2^31 bytes behind a short one: the short one is extracted, the long one comes out empty |

## Left out

- MiniTar.Tar: at most 128 sources; with more of them the program writes past its arrays, which is not modelled.
- MiniTar.Extract: when the first byte is read behind the end of the archive, what is printed is the value of an unset variable and left open.
- Censor.CensorRuns: words shorter than the buffer; with a longer one scanf writes past the buffer, which is not modelled.
- LoadBalancer.LeastLoaded: says nothing once a length was stored since the producer made its packet, since the lengths it compared are then no longer those of the queues.
- Threads update shared state in place; the model of a concurrent program is a transition system on immutable states, so update in place is a step that yields the next state, and pointers are keys of a heap map (Router) or list values (LoadBalancer, HandOff).
- The hardware memory model: sequential consistency is taken for granted, and the inline cmpxchg is an atomic test-and-set.
- Integer overflow: counters, sums and indices are mathematical integers; in particular first + contiguous of the allocator does not wrap at 2^32. The exception is the header of an archive.
- Mutexes unlocked by a thread that did not lock them (prog-A-solution.c of 26-6-2018) are binary semaphores.
- System calls that fail: creation of semaphores, threads, pipes and processes, short writes. A call interrupted by a signal is retried, which is a step that changes nothing. Failing malloc, mprotect, open and read are modelled where the program goes on after them.
- A fork that fails in the shell leaves both ends of the new pipe open there; the stage loop is modelled for forks that succeed.
- Printing, sleeping, prompts, the "exit" command and the check for lines that are too long; execvp that fails; waiting for the children; the printer of prog-A-solution.c.
- Signal delivery is modelled in Scatter only; there the handler runs beside all threads, not inside one.
- Process creation in the Windows shell; only its command-line printer is modelled.
- prova-pratica-23-1-2019/prog.c, whose star building makes the shared word shorter for a moment, so that the claim about the censor does not carry over.
- Further bounded buffers with mutexes, spinlocks, POSIX and Windows semaphores, and the other exam solutions: they are the protocols above with other calls or fewer parties, and their proofs would be repetitions.
- Programs that are unfinished or do not meet their own specification: 18-7-2018/ex2.c, critical-section/producer-consumer.c, Tutoraggio 11/ex4.c, the printer of exam1_A.c, the Windows reverse-file.c.
- Sockets, FIFOs, message queues, graphical programs, scheduling and mapping demonstrations, introductory C.
