# Verified model of the multithreaded HTTP downloader

This project models a downloader that is driven by an event queue and a transition
table, and that fetches one file in parallel byte ranges. Each downloader has

- an FD object (socket, two thread pointers, byte counter, range, flags),
- a state machine of 13 states and 10 events with its own FIFO queue, read by one
  listener thread,
- worker threads (connector, HEAD requester, body thread) that run beside the
  listener and report back by writing one event to the queue.

`multithreaded_http_downloader` cuts the file into chunks of 2 to 4 MiB, starts one
downloader per chunk on a shared file, and polls their counters until all are full.

## How it is modelled

A downloader is a deterministic labelled transition system (`Downloaders.dfy`). A label
is one listener turn, one step of a worker thread together with what the operating
system or the server answered, or an event written from outside. A run is a sequence of
labels, so a theorem about runs is a theorem about every interleaving, every answer and
every moment at which a user interferes. The parallel download (`Assembly.dfy`) is n such
systems over one file; a move is a step of any of them.

| file | content |
|---|---|
| `Fsm.dfy`, `Tables.dfy` | events, states, tables; the tables as stored rows; the header's comment |
| `Downloaders.dfy` | the transition system: workers, actions, engine, runs, the user's discipline |
| `Invariant.dfy` | the inductive invariant and the safety theorems over disciplined runs |
| `Asserts.dfy` | exactly when an assert fails, over all runs |
| `Origins.dfy` | who wrote the events that are taken |
| `FreshStart.dfy` | exactly when body threads start from zero bytes |
| `Autonomous.dfy`, `Termination.dfy`, `Interrupts.dfy` | runs without a user; how many steps they take; one CANCEL or PAUSE in such a run |
| `Paths.dfy`, `Discipline.dfy`, `Leaks.dfy` | concrete stretches of runs; why the discipline is needed; a run that leaks |
| `Transfer.dfy`, `Threads.dfy` | the read loop and the thread bodies, fragmentation, the step machine against both, which answer gives which event |
| `Outcomes.dfy` | what becomes of every answer and every event that is taken |
| `Resuming.dfy`, `Pauses.dfy`, `Seeking.dfy` | a transfer resumed after PAUSE; a run that comes to one; the two seeks as written |
| `HttpFds.dfy`, `Engine.dfy` | the classes: FD object, output file, engine with its actions |
| `Chunks.dfy` | partition arithmetic, progress figure, the create and launch loops |
| `Servers.dfy` | what an honest server may answer, and what a real one can |
| `Parallel.dfy`, `Assembly.dfy`, `Poller.dfy` | n downloaders on one file, and the completion poller |
| `WholeFile.dfy` | the download without a range |
| `Reachability.dfy`, `Completion.dfy` | runs that finish, of one downloader and of all chunks together |

Decisions a reader should know:

- A NA table entry holds a null action and a null next state, which `efsm_execute` uses
  unguarded. Execution is modelled twice: *strict*, where such an entry is a fault (this
  is what the class `Engine.Efsm` does), and *lenient*, where the event is consumed
  without effect, as the header's "NA" intends. Runs without outside events are shown
  to be the same under both; runs with user events are lenient. `Invariant.StrictRuns`
  relates the two, and `Interrupts.dfy` says when one user event makes the strict one fail.
- The tables in `FileDownloaderFSM.cpp` are the authority. The comment in
  `FileDownloaderStates.h` disagrees with them on nineteen pairs, listed and proved
  exhaustive in `Tables.CodeAndCommentAgreeIff`.
- The user's discipline (`Downloaders.Allowed`): CANCEL and PAUSE at any moment; any other
  event only while no worker is live and no event but CANCEL or PAUSE is queued. This
  allows more than waiting for an empty queue. `Asserts.dfy` does without any discipline.
- A listener turn is atomic with respect to worker steps.
- Every written event is logged with its origin: somebody outside, the listener's own
  action, or a thread of one of three kinds with the number of its spawn.
- The two `fseek` calls pass the offset as `whence`. The content theorems are about the
  absolute seek that is meant. `Seeking.RangeWrittenAsMeantIff` says exactly when the thread
  as written does the same: among the chunks only for the first one, and not if its first
  read carried two body bytes. Without a range it always does.
- After a PAUSE taken in FD_IN_PROGRESS the code asks for the whole range again and writes
  the response header into the file. `Resuming.ResumeStaysRightIff` says exactly when the
  file stays right: when the counter is zero, the guard of the branch that takes the header
  off. The content theorems are about runs in which every PAUSE taken in FD_IN_PROGRESS finds
  a zero counter; a PAUSE anywhere else, or at any time before the first byte, is in them.
  `Pauses.dfy` shows that the condition is needed.
- Sockets, DNS, pthreads and the server are outcomes in the labels. An honest server sends,
  behind an accepted header, the next bytes of the range it was asked for, in pieces of any
  size, and may stop or break at any point.

## Model

| member | source | states |
|---|---|---|
| `Asserts.AssertsHoldIff` | HTTP_FileDownLoader.cpp:103-184 | For every run from a fresh object, strict or lenient, whatever anybody writes: an assert fails if and only if a START is taken in HEAD_CONNECTED or FD_CONNECTED while `sockfd` is -1. |
| `Asserts.ActFailsIff` | FileDownLoaderFSMActions.cpp:42-250 | From any object whatever each action fails an assert if and only if one of those on its way does not hold, listed action by action. |
| `Asserts.AssertionSafety` | HTTP_FileDownLoader.cpp:103-184 | If no CONNECT_SUCCESS is taken in a connecting state while `sockfd` is -1, no assert fails, whatever the user writes and whenever; disciplined runs, with CANCEL and PAUSE at any moment and stale events queued, take none. |
| `Asserts.BareSuccessFailsIff` | HTTP_FileDownLoader.cpp:171-184 | Where any run is about to take such a CONNECT_SUCCESS, listener turns alone go on to fail the assert if and only if no CANCEL is queued before the first START behind it; so they do if no CANCEL is queued. |
| `Invariant.RunKeeps` | FileDownLoaderFSMActions.cpp:13-265 | The invariant over state, queued driver events, thread positions, socket and history is inductive over disciplined runs. |
| `Invariant.SingleDriver` | FileDownLoaderFSMActions.cpp:42-53 | Live workers plus queued driver events never exceed one, and are exactly one in the six active states. |
| `Invariant.NeverStalls` | HTTP_FileDownLoader.cpp:55-101 | In an active state either a driver event waits for the listener or a live thread can move. |
| `Invariant.ResourcesConserved` | HTTP_FileDownLoader.cpp:358-410 | Sockets opened minus closed is one if `sockfd` is set and zero otherwise; threads spawned minus joined is the number of non-null thread pointers: nothing is closed twice, overwritten open, or joined twice. |
| `Invariant.TerminalForever` | FileDownloaderFSM.cpp:422-519 | No continuation of any kind leaves ERROR, FD_CANCELLED or FD_FINISHED, and the destructor's asserts hold ever after if and only if no CANCEL was taken in HEAD_GET_RESPONSE_AWAIT. |
| `Invariant.LeakForever` | FileDownLoaderFSMActions.cpp:93-96 | In every disciplined run in which a CANCEL was taken in HEAD_GET_RESPONSE_AWAIT, and after any continuation, the socket is open and the thread is behind its pointer. |
| `Leaks.CancelInAwaitLeaks` | FileDownLoaderFSMActions.cpp:93-96 | Every fresh object has such a run: a concrete disciplined run with one such CANCEL, after which the destructor's asserts fail for good. |
| `Invariant.StrictRuns` | EventFSM/fsm.cpp:79-84 | The engine as written, on disciplined runs: either it has called a null entry, or it is where the lenient one is and no assert has failed. |
| `Invariant.FinishedMeansComplete` | FileDownLoaderFSMActions.cpp:224-235 | Being in FD_FINISHED means the counter equals GetFileSize(), and without a range the length the HEAD reply announced. |
| `Origins.FinishedByItsPhase` | FileDownLoaderFSMActions.cpp:107-115 | Over the whole history of every disciplined run each FINISHED taken in FD_IN_PROGRESS was written by a body thread, each one taken in HEAD_GET_RESPONSE_AWAIT by a HEAD thread, likewise every event that moved a waiting state on; FD_FINISHED goes back to such a FINISHED of a body thread. |
| `Origins.TakenFromOwnThread` | HTTP_FileDownLoader.cpp:193-341 | The driver event about to be taken in a waiting state was written by the thread behind the pointer, under the number it got at its spawn, and nothing was spawned since: never by a cancelled thread or one of another phase. |
| `Invariant.QueueConserved` | EventFSM/fsm.cpp:58-116 | For any firers, strict or not: executed events followed by queued ones are the fired ones in order, the state is the fold of the tables, and the step accounting holds of the run. |
| `Invariant.SelfFiredWaits` | EventFSM/fsm.cpp:87-98 | A turn takes exactly the head, and what its action fires waits behind everything queued. |
| `FreshStart.WorkersStartFresh` | HTTP_FileDownLoader.cpp:229-260 | In every disciplined run a body thread that has not counted yet stands at zero bytes if and only if every PAUSE taken in FD_IN_PROGRESS found zero bytes, whatever losses and reconnects came before; in particular if none was taken there. |
| `Autonomous.NeverFaults` | EventFSM/fsm.cpp:58-116 | After one START and no further event the strict engine never reaches a NA entry and fails no assert, and at most one event is ever queued. |
| `Autonomous.AutoRuns` | FileDownloaderFSM.cpp:41-519 | Without outside events strict and lenient runs are equal. |
| `Autonomous.RestsOnlyAtTheEnd` | FileDownloaderFSM.cpp:41-519 | Such a run comes to rest only after a failed connect, an error or FINISHED, as its last executed event; a lost connection is always retried. |
| `Termination.AutonomousRunsEnd` | HTTP_FileDownLoader.cpp:55-341 | In every autonomous run of the engine as written, whatever the interleaving and the answers, the listener and the threads take at most 33 steps that change anything, plus 19 for each LOST_CONNECTION taken and 3 for each byte counted. |
| `Termination.RangeRunsEnd` | HTTP_FileDownLoader.cpp:193-341 | Against an honest server the size of the range takes the place of the bytes. |
| `Termination.StuckIsAtRest` | FileDownloaderFSM.cpp:41-519 | Where such a run can go no further no event is queued and no thread is live. |
| `Interrupts.CancelHarmlessIff` | EventFSM/fsm.cpp:79-84 | One CANCEL written at the end of any autonomous run of the engine as written: no continuation faults if and only if the machine rests after a failed connect or has CONNECT_FAILED queued; otherwise some continuation calls a null entry. |
| `Interrupts.PauseCanFault` | EventFSM/fsm.cpp:79-84 | One PAUSE at the end of any autonomous run can always end in a null call. |
| `Discipline.EarlyReconnectFailsAnAssert` | HTTP_FileDownLoader.cpp:171-184 | The failing case of `Asserts.AssertionSafety` is reached: a concrete run, disciplined up to a RECONNECT written while a connector is live, after which a stale CONNECT_SUCCESS makes the first assert of HeadSendGetRequest fail. |
| `Fsm.StepAccounting` | FileDownloaderFSM.cpp:41-519 | For every event sequence: events taken = 7 - rank + 4 LOST + 2 CONNECT_FAILED + 2, 5 or 4 per PAUSE by state, outside ERROR and FD_CANCELLED, and at most 7 plus the surcharges everywhere. |
| `Fsm.TerminalAbsorbs` | FileDownloaderFSM.cpp:422-519 | Events in a terminal state change nothing, not even a count. |
| `Fsm.PausesAndCancels` | FileDownloaderFSM.cpp:202-211 | FD_SUSPENDED needs a PAUSE in FD_IN_PROGRESS; a CANCEL taken in HEAD_GET_RESPONSE_AWAIT happens once and ends in FD_CANCELLED. |
| `Tables.RowsAreTable` | FileDownloaderFSM.cpp:41-519 | The rows indexed by state and event number hold the entries of the table function, for all 130 pairs. |
| `Tables.CodeAndCommentAgreeIff` | FileDownloaderStates.h:129-297 | Code and header comment name the same next state if and only if the pair is none of nineteen. |
| `Tables.StateTables.FsmInit` | FileDownloaderFSM.cpp:521-569 | Installs all 13 rows, and does nothing the second time. |
| `Tables.StateTables.Lookup` | EventFSM/fsm.cpp:79-80 | Once installed, a lookup by numbers gives the table's entry. |
| `Engine.Efsm.Execute` | EventFSM/fsm.cpp:58-85 | Exit, enter and act equal the strict step; the enter-time assert holds; a NA entry is the null-entry fault. |
| `Engine.Efsm.Turn` | EventFSM/fsm.cpp:87-98 | One turn takes the head of the pipe, or blocks if it is empty; it keeps the invariant and fails no assert, unless it calls a null entry. |
| `Engine.Efsm.ListenUntilBlocked` | EventFSM/fsm.cpp:87-98 | In an autonomous state the listener takes the queued event and at most one that its action fired; after two turns at the latest the pipe is empty and it blocks; it never faults. |
| `Engine.Efsm.Drive` | EventFSM/fsm.cpp:87-116 | The classes, driven by any disciplined interleaving of listener turns, thread steps and outside events, end where the transition system does, with the invariant and without a failed assert, or have called a null entry. |
| `Engine.Efsm.RunThread` | HTTP_FileDownLoader.cpp:55-341 | Each step of the three thread bodies changes object, queue and file in place as the transition system says, and moves the thread to the same place. |
| `Engine.Efsm.Perform` | FileDownLoaderFSMActions.cpp:13-265 | Every action method equals its value function on FD object, queue and file. |
| `Engine.Efsm.constructor` | FileDownloaderFSM.cpp:571-582 | A new machine stands in INIT with an empty queue. |
| `HttpFds.HttpFd.HeadConnectServer` | HTTP_FileDownLoader.cpp:103-118 | Succeeds exactly when its four asserts hold, and then spawns one connector and changes nothing else. |
| `HttpFds.HttpFd.CleanupDnloadResources` | HTTP_FileDownLoader.cpp:358-386 | Closes, cancels and joins exactly what is open or running; removes the file exactly when the object is not partial. |
| `HttpFds.HttpFd.Pause` | HTTP_FileDownLoader.cpp:388-410 | Releases the same resources and leaves the file. |
| `HttpFds.HttpFd.ServerHeadConnect` | HTTP_FileDownLoader.cpp:55-101 | Reports success if and only if socket, host and one of five attempts succeed, at the first that does; failure if and only if all five fail; otherwise an error. |
| `HttpFds.HttpFd.HttpSendHeadRequest` | HTTP_FileDownLoader.cpp:120-168 | Which reply gives which event, and when the parsed length is stored. |
| `HttpFds.HttpFd.HttpFileDownload` | HTTP_FileDownLoader.cpp:193-341 | The body thread's counter, file and event are those of its value function. |
| `HttpFds.HttpFd.ReadLoop` | HTTP_FileDownLoader.cpp:311-340 | The read loop and the checks behind it equal the loop function on every list of read results. |
| `HttpFds.HttpFd.SetByteRange` | FileDownLoader.cpp:14-26 | Sets the range, and the partial flag unless both bounds are zero. |
| `HttpFds.RangeAgreesIff` | FileDownLoader.cpp:14-34 | On a fresh object flag and size agree with the range if and only if it is not the one-byte range [0, 0]. |
| `HttpFds.RangeOnAnyObject` | FileDownLoader.cpp:14-34 | For any two bounds and any object: flag value 2 is added unless both are zero and never taken away, and the size is high - low + 1 unless both are zero. |
| `Transfer.BodyOnStream` | HTTP_FileDownLoader.cpp:301-340 | For a body no longer than expected, file, counter and event depend on the stream alone, however it is cut into reads; FINISHED exactly if the length matches and the stream did not break right after a first read that held everything. |
| `Transfer.CutsAgreeIff` | HTTP_FileDownLoader.cpp:311-337 | For reads of at most b bytes, b >= 2, all cuts of an orderly stream are reported alike if and only if it is no longer than expected, or nothing was expected. |
| `Transfer.StepsRunLoop` | HTTP_FileDownLoader.cpp:311-340 | The concurrent thread, run alone from its read loop, ends as the loop function says and changes nothing else. |
| `Threads.StepsRunBodyThread` | HTTP_FileDownLoader.cpp:193-341 | The same for the whole body thread, from its request to the event. |
| `Threads.StepsRunAttempts` | HTTP_FileDownLoader.cpp:84-99 | The same for the connector's retry loop. |
| `Threads.StepsRunConnector` | HTTP_FileDownLoader.cpp:55-101 | The concurrent connector, run alone for every answer of socket(), gethostbyname() and connect(): ERROR if and only if there is no socket or no host, CONNECT_SUCCESS if and only if one of 5 attempts connects, after the first that does, CONNECT_FAILED if and only if all 5 are refused. |
| `Threads.StepsRunHead` | HTTP_FileDownLoader.cpp:120-168 | The concurrent HEAD requester, run alone: LOST_CONNECTION if and only if write or read failed, ERROR if and only if the reply is no 200 or names no length, FINISHED otherwise; the length is stored if and only if it is a number and the thread reports FINISHED. |
| `Threads.BodyThreadEvents` | HTTP_FileDownLoader.cpp:225-340 | Which event the body thread reports: LOST_CONNECTION if and only if the write or a fresh thread's first read failed; ERROR, with the counter and the opened file untouched, if the file does not open or the reply has no complete header, is a 400, or is no 206 to a range; FINISHED only with the counter at the size, and for a body no longer than that exactly when its length is that. |
| `Threads.PartialContentIrrelevant` | HTTP_FileDownLoader.cpp:289-298 | Without a range a 200 and a 206 are the same to the thread, and a complete header that is no 400 is accepted. |
| `Threads.NegativeLowWritesAtStart` | HTTP_FileDownLoader.cpp:248-309 | With a lower bound far below zero every seek fails, and what is read is written one behind the other from the start. |
| `Outcomes.ConnectorOutcome` | FileDownLoaderFSMActions.cpp:13-91 | From a fresh connector to the turn that takes its report: ERROR cleaned up without a socket or a host, the connected state with START queued if one of 5 attempts connects, the unconnected state cleaned up if none does. |
| `Outcomes.HeadOutcome` | FileDownLoaderFSMActions.cpp:93-145 | A refused HEAD reply ends in ERROR with nothing queued, a lost connection in HEAD_CONNECTION_FAILED with RECONNECT queued, otherwise the body phase connects with the size that was named. |
| `Outcomes.BodyOutcome` | FileDownLoaderFSMActions.cpp:194-265 | A lost connection ends in FD_CONNECTION_FAILED with RECONNECT queued and the file kept, a rejected reply, an unopened file or a wrong length in ERROR with an unshared file removed, the right length in FD_FINISHED with the file the thread left. |
| `Outcomes.TurnEffects` | FileDownLoaderFSMActions.cpp:13-265 | After every disciplined run, for each state and event that is taken: what is queued behind the rest, whether the output file is kept or removed, what socket, size, counter and threads are left. |
| `Threads.AttemptsIff` | HTTP_FileDownLoader.cpp:84-99 | The retry loop succeeds if and only if one of its attempts would, and stops at the first. |
| `Resuming.ResumeStaysRightIff` | HTTP_FileDownLoader.cpp:212-252 | For every remote file and every honest answer (header, then the whole range, in reads of at most 4096 bytes, complete or cut short) the file keeps its length, the bytes outside the range and the counted bytes of the range if and only if the thread starts at zero bytes. |
| `Resuming.OwnRangeStaysRightIff` | HTTP_FileDownLoader.cpp:212-252 | For the counted bytes of the object's own range alone: if and only if it starts at zero bytes or already has the whole range. |
| `Pauses.ResumedThreadIsReached` | FileDownLoaderFSMActions.cpp:194-211 | Every fresh object with a range of two bytes or more has a disciplined run with realistic answers, one PAUSE and one RESUME that ends with a body thread at its start, some but not all bytes counted. |
| `Pauses.PauseSpoilsTheFile` | HTTP_FileDownLoader.cpp:212-252 | And from there a complete honest answer leaves the range wrong: a remote file of zeros that is already on disk. |
| `Resuming.ResumeSpoilsZeros` | HTTP_FileDownLoader.cpp:248-252 | On a remote file of zeros every resumed transfer writes the response's first byte into the file. |
| `Seeking.RangeWrittenAsMeantIff` | HTTP_FileDownLoader.cpp:248-309 | With the seeks as written, a fresh thread with a range leaves file, counter and event as meant, for every content and every answer whose first read carries n body bytes, if and only if the range starts at 0 and n is not 2, but for a file of two bytes, or a range of two that is then complete. |
| `Seeking.WholeFileWrittenAsMeant` | HTTP_FileDownLoader.cpp:240-309 | Without a range a thread that starts at zero bytes does what is meant for every answer. |
| `Seeking.ChunkWrittenAsMeantIff` | HTTP_FileDownLoader.cpp:248-309 | Among the chunks of a partition it does if and only if it is the first one and n is not 2. |
| `Seeking.LaterChunksOverwriteTheStart` | HTTP_FileDownLoader.cpp:248-321 | With the seeks as written every later chunk goes to the start of the shared file, with the counter and the event of a correct download. |
| `Seeking.LaterChunkMisplaced` | HTTP_FileDownLoader.cpp:248-321 | After a later chunk the file begins with that chunk's first byte, and the first byte of its own range is still the old one. |
| `Chunks.ChunksTile` | FileDownloaderFSMTest.cpp:138-153 | There are fileSize / 2097152 ranges; the i-th starts at 2097152 i, all but the last have 2097152 bytes, the last ends at the last byte and has at least 2097152 and less than 4194304. |
| `Chunks.ChunkOfByte` | FileDownloaderFSMTest.cpp:146-153 | Every byte of the file lies in exactly one chunk. |
| `Chunks.SizesSumToFile` | FileDownLoader.cpp:28-34 | The chunk sizes add up to the file size. |
| `Chunks.NoOverflow` | FileDownloaderFSMTest.cpp:149-153 | For 32-bit sizes no intermediate product or sum of the range arguments leaves 32 bits. |
| `Chunks.LastChunkExistsIff` | FileDownloaderFSMTest.cpp:152-153 | The slot fd_array[n - 1] exists if and only if the file has at least 2097152 bytes. |
| `Chunks.PercentIsProgress` | FileDownloaderFSMTest.cpp:190-202 | The figure is the largest whole percentage that the bytes cover, lies in 0 to 100, is 100 if and only if the chunk is complete, and its product fits 32 bits. |
| `Chunks.CreateDownloaders` | FileDownloaderFSMTest.cpp:144-153 | Creates distinct fresh objects on the shared file, the i-th with the i-th range. |
| `Chunks.StartDownloaders` | FileDownloaderFSMTest.cpp:155-164 | Binds one machine to each object, in INIT with exactly START queued. |
| `Assembly.LaunchLoopIsFair` | FileDownloaderFSMTest.cpp:157-164 | The launch loop is a fair run from the fresh downloaders and leaves START in every queue. |
| `Assembly.Assembled` | FileDownloaderFSMTest.cpp:129-164 | For every file of at least 2 MiB and every interleaving of the n machines: at every step each chunk's first `bytes` bytes on disk are the remote ones and the file has its full length; when all counters are full the file is the remote file. |
| `Assembly.SharedFileSafe` | HTTP_FileDownLoader.cpp:225-241 | Whatever users and servers do, no sequence of moves removes or truncates the shared file or drops a partial flag. |
| `Poller.PollLoop` | FileDownloaderFSMTest.cpp:176-208 | The polling loop leaves at the first round whose samples all show 100, each taken at its own moment. |
| `Poller.PollerNeverEarly` | FileDownloaderFSMTest.cpp:180-204 | When a round ends with 100 everywhere, every chunk is complete at that moment and the file is the remote file, although each sample may be old. |
| `Poller.PollerExitsWhenDone` | FileDownloaderFSMTest.cpp:180-204 | A round begun when every chunk is complete shows 100 everywhere. |
| `Poller.ProgressNeverFalls` | FileDownloaderFSMTest.cpp:190-202 | At every moment the figure of a chunk is the whole percentage of its counter; it never falls between polls and stays in 0 to 100. |
| `WholeFile.WholeFileCorrect` | FileDownLoaderFSMActions.cpp:107-115 | Without a range, FD_FINISHED means the remote file is on disk, with the size carried from HEAD to GET, after any losses and reconnects; ERROR means no file is left. |
| `Reachability.FinishesHoweverCut` | FileDownloaderFSM.cpp:349-385 | For every cut of what was asked for into reads of at most 4096 bytes, every fresh object, with a range or without, has a disciplined run against a server that answers HEAD with the length and GET with 206 or, without a range, with 200 and these reads, which ends in FD_FINISHED with exactly that on disk. |
| `Reachability.CanFinish` | FileDownloaderFSM.cpp:349-385 | Such a cut, and so such a run, exists for every fresh object. |
| `Completion.EveryChunkFinishes` | FileDownloaderFSMTest.cpp:138-164 | For every remote file of at least one chunk, the launch loop and then some fair run with reads of at most 4096 bytes bring every chunk to FD_FINISHED with full counters and the remote file on disk. |
| `Completion.PollerCanExit` | FileDownloaderFSMTest.cpp:176-208 | And then a round of the poller shows 100 everywhere. |
| `Completion.WholeFileFinishes` | FileDownLoaderFSMActions.cpp:107-115 | Every fresh object without a range has a fair run to FD_FINISHED with the remote file on disk. |

## Left out

- Atomic listener turns are an assumption: `CleanupDnloadResources` closes the socket before it joins the connector, which may still be about to create one.
- Assembly.Assembled: assumes the absolute seeks that are meant (`Seeking.dfy` has the calls as written), an honest server, and that a PAUSE taken in FD_IN_PROGRESS finds zero bytes.
- Poller.PollerNeverEarly: under the same assumptions; a server that sends more than the range could drive the figure past 100.
- WholeFile.WholeFileCorrect: assumes an honest server with an honest Content-Length, and the same of PAUSE; the seeks as written are the meant ones there.
- Seeking.BodyAsWritten: knows the three values of `whence` in ISO C; a platform's further values are not modelled.
- Engine.Efsm.ListenUntilBlocked: the endless listener loop, with a bound on its turns in place of "forever".
- HttpFds.HttpFd.ServerHeadConnect: here the thread bodies are run alone; their interleaving with the listener is in `Engine.Efsm.Drive`, step by step.
- 32-bit wrap-around of `bytes_downloaded` and out-of-range numbers in sscanf: the counter is unbounded here; within a chunk it stays below 4 MiB.
- The read buffer: in the safety theorems a read may deliver any number of bytes; the runs of `Reachability.dfy` and `Completion.dfy`, and the two conditions about resuming and seeking, cover reads of at most 4096. A header end found by strstr is taken to lie within the bytes read.
- stdio buffering: fwrite reaches the file at once, so bytes buffered in a cancelled thread are not lost here, and its leaked FILE is not counted.
- A second process removing or changing the output file.
- Request text, response parsing and URL splitting: abstracted to outcomes; a server name is taken to be non-empty, as the code asserts.
- FDReset, ProgressBar, the destructor and the name-printing functions: never called, console output, or three asserts covered by `Invariant.TerminalForever`.
- The state entry and exit hooks: all null in the state table.
- The final cleanup of multithreaded_http_downloader, which races the listeners: the model stops when the poller exits.
- `Cursor/`, `Pbar/`, `download.cpp`, `idmv1.cpp` and the DHCP client: user interface, earlier prototypes, and an example of another engine version.
