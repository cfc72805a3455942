# MockVision: verified models of the backend's protocols

MockVision simulates network cameras. Its backend keeps them alive with a handful
of small protocols that run concurrently under locks, and reads untrusted files
and templates with hand-written parsers and rewrites. This project models that
logic in Dafny, operation by operation, and proves what the code relies on.

Two kinds of module recur. Where the source changes state, a `class` has the same
fields, its methods are the critical sections of the source's mutex, and each is
proved against a function on the state. Where calls interleave, a state machine
takes one such function, or one step between two of them, as an action; an
invariant is proved for every action, and the theorems are about every state a
run of any length can reach. Where the code fails to meet what it is for, a lemma
gives a run on which it fails, and another says exactly when it does not.

| file | models |
|---|---|
| `Common.dfy` | helpers shared by all modules |
| `Worker.dfy`, `WorkerRuns.dfy`, `JobEnds.dfy` | the background job runner: queue, slots, questions, waiters, pruning, restarts, and how jobs end |
| `Hub.dfy`, `LiveRuns.dfy` | live updates: numbered topics, replay, resync, the panel's client across reconnections |
| `NetHelper.dfy`, `NetCreations.dfy` | concurrent creation and deletion of camera namespaces in the privileged helper |
| `Templates.dfy` | the rewrite of profile templates that counts their steps, and a semantics of the language |
| `Seccomp.dfy` | the compiler from denied system calls to classic BPF, and an interpreter of BPF |
| `Bytes.dfy`, `AnnexB.dfy`, `AccessUnits.dfy`, `EncodedVideo.dfy`, `Mjpeg.dfy`, `JpegImages.dfy` | splitting H.264, H.265 and MJPEG files into pictures |
| `Framing.dfy` | newline framing of the IPC connection over a buffered reader |
| `LoginGuard.dfy`, `LoginRates.dfy` | lockout and token buckets of sign-in, with eviction from bounded tables |
| `Yaml.dfy`, `YamlLines.dfy` | conversion of a YAML node graph with aliases and merge keys, and lines by JSON pointer |
| `Lifecycle.dfy` | the states of a camera session, automatic restarts, reconciliation |
| `EncodeLocks.dfy` | the reference-counted locks that serialize encodings |
| `Addresses.dfy` | the search for the next free address of a subnet |

Findings, each proved below with the input or run that shows it:

- A caller of `Wait` is left blocked, until it gives up or the node restarts, when
  the dispatcher takes a job of a kind that is no longer registered, and only then
  (`DispatchStrandsUnknownKinds`, `StrandedForGood`, `UnknownKindStrandsCaller`).
- A camera whose automatic restart comes due and is refused once is never started
  again by itself, although it has attempts left: its record still looks like a
  pending retry, so reconciliation leaves it alone (`HopelessForever`,
  `OneRefusalIsEnough`).
- Reconciliation may decide to start a camera that has a retry pending, because it
  reads the record twice (`StartsDespiteRecord`): exactly when the record was absent
  or given up at the first reading and is there and not given up at the second
  (`DecidesDespiteRecordIff`), so never when both see the same record
  (`StartsIffNoRecord`).
- A restart of the node, which begins every topic anew, can hide messages from a
  client that was away (`RestartHidesMessages`), exactly when the client's old number
  is one the new sequence can be taken to go on from (`ComesBackCompleteIff`).
- A collector that meets a busy encode lock leaves an entry in the table for good
  (`CollectorLeaksAnEntry`, `SkippedStays`).
- The template guard refuses a range over a negative number, which the language
  takes as empty (`NegativeRangeIsRefused`).
- A YAML field that overrides one brought in by a merge key is refused as repeated
  when it comes behind the merge key (`OverrideMustComeFirst`); `MappingIff` says which
  mappings are taken.

## Model

| member | source | states |
|---|---|---|
| WorkerRuns.Keeps | backend/internal/worker/runner.go:122-598 | every critical section and every step between two of them, restarts of the node included, keeps the whole invariant of the runner |
| WorkerRuns.RunningIsStored | backend/internal/worker/runner.go:122-261 | in every run the memory holds exactly the jobs stored as running or waiting, as they are stored |
| WorkerRuns.StatusPath | backend/internal/worker/runner.go:122-261 | a step moves a stored job only along the lines of its life (`Becomes`), keeps its kind and key, and never brings a deleted one back |
| WorkerRuns.FinalForever | backend/internal/worker/job.go:34-35 | a job that is over keeps that status through any further run, until it is deleted for good |
| WorkerRuns.OneOpenJobPerKey | backend/internal/worker/runner.go:301-371 | two jobs that are not over never share a non-empty key, however submissions, resumptions and ends interleave |
| WorkerRuns.HistoryIsNumbered | backend/internal/worker/runner.go:586-608 | a job's stored events are numbered 1, 2, 3 and so on, across ends, requeues and restarts that forget the counters |
| WorkerRuns.NoLostWakeUp | backend/internal/worker/runner.go:446-474 | a caller that blocked on a busy job of a registered kind has its channel closed as soon as the job is not busy |
| WorkerRuns.DispatchStrandsUnknownKinds | backend/internal/worker/runner.go:190-198 | a caller waiting for a job the dispatcher takes can still be woken after that if and only if the job's kind is registered |
| WorkerRuns.StrandedForGood | backend/internal/worker/runner.go:190-198 | if it is not, the caller stays blocked with its channel open through any further run, unless it stops waiting itself or the node restarts |
| WorkerRuns.UnknownKindStrandsCaller | backend/internal/worker/runner.go:190-198 | a run that leaves a caller blocked on a failed job |
| WorkerRuns.SlotsAreBounded | backend/internal/worker/runner.go:166-215 | running jobs that never asked a question stay within the largest limit read, and all running ones exceed it by no more than those back from a question |
| WorkerRuns.TopIsTheLimit | backend/internal/worker/runner.go:179-182 | with limits of at most M in every dispatch of a run, that bound is M |
| WorkerRuns.AnswersFit | backend/internal/worker/run.go:105-142 | an answer that ends a question was given to that very question, whose number is its own, and is one of its options, or is its default after the time was up |
| WorkerRuns.QuestionsDiffer | backend/internal/worker/run.go:107 | no two questions ever asked, of one job or of two, have a number in common; each has the counter of its moment |
| WorkerRuns.QueueIsBounded | backend/internal/worker/runner.go:312-371 | newly submitted jobs in the queue never exceed 500; only jobs requeued after an interruption can go beyond |
| WorkerRuns.RecoversAllIffFew | backend/internal/worker/runner.go:120-141 | after a restart nothing is left stored as running or waiting if and only if at most 100,000 jobs were of either status |
| WorkerRuns.DispatchIsStartAll | backend/internal/worker/runner.go:166-215 | the machine's dispatch, job by job, is the runner's operation |
| WorkerRuns.BeginAllSound | backend/internal/worker/runner.go:188-214 | dispatching a queue reading starts each job on it once, or fails it if its kind is unknown, and leaves every other job alone |
| JobEnds.JobEnds | backend/internal/worker/runner.go:218-261 | a job whose handler succeeded is stored as completed, whatever it was asked; any other as interrupted if the node was to stop before a user canceled it, canceled if a user came first or nobody did and its question ran out, and failed in the remaining case; told by the actions since it started |
| JobEnds.StatusIs | backend/internal/worker/runner.go:122-524 | for every other action, exactly what it makes of each stored job's status, from the action, the job and the registered kinds |
| JobEnds.StoredIs | backend/internal/worker/runner.go:312-361 | exactly which jobs are stored after each action: a submission adds one if its kind is registered, no job of its key is open and fewer than 500 wait |
| JobEnds.WokenIsOver | backend/internal/worker/runner.go:287-299 | a waiter's channel is closed only by the end or the cancellation of its own job, which is not busy after that |
| JobEnds.DispatchFills | backend/internal/worker/runner.go:166-215 | a dispatch takes the oldest queued jobs until the limit is reached or none is left, and none once the node is to stop |
| JobEnds.FirstOptionIsTaken | backend/internal/worker/runner.go:527-547 | of all answers given to an open question it gets the first that is one of its options, and none if there is none |
| Worker.Runner.Dispatch | backend/internal/worker/runner.go:166-215 | starts exactly the oldest queued jobs, as many as slots are free, and none while stopping |
| Worker.Runner.ListJobsByStatus | database/queries/jobs.sql:33-34 | the oldest jobs of a status in order, and all of them if they are within the limit |
| Worker.Runner.Recover | backend/internal/worker/runner.go:122-141 | marks the running jobs and then the waiting ones as interrupted, each with an event |
| Worker.Runner.EndExecution | backend/internal/worker/runner.go:218-261 | stores how the execution ended, takes it out of memory and wakes its waiters, as `Finish` does in the runs of `JobEnds` |
| Worker.Runner.FinishLocked | backend/internal/worker/runner.go:287-299 | closes every waiter's channel of a job that is not busy, and drops its event counter once it is over |
| Worker.Runner.SubmitJob | backend/internal/worker/runner.go:312-361 | joins the open job of the key and requeues it if it was interrupted; else inserts one, unless the kind is unknown or 500 jobs wait |
| Worker.Runner.CancelJob | backend/internal/worker/runner.go:479-505 | cancels a running job's context once, ends a queued or interrupted one, and refuses the others |
| Worker.Runner.ResumeJob | backend/internal/worker/runner.go:509-524 | requeues an interrupted job of a registered kind and nothing else |
| Worker.Runner.AnswerJob | backend/internal/worker/runner.go:527-547 | passes on the first answer to an open question, and only one of its options |
| Worker.Runner.AskQuestion | backend/internal/worker/run.go:105-119 | drops an answer left over, shows the question and stores the job as waiting |
| Worker.Runner.EndQuestion | backend/internal/worker/run.go:133-137 | stores the job as running again without a question |
| Worker.Runner.StopAll | backend/internal/worker/runner.go:151-159 | stops dispatching and cancels every execution that has no reason to end yet |
| Worker.Runner.AddEvent | backend/internal/worker/runner.go:586-608 | the next number comes from memory, or from the store when memory has none |
| Worker.Runner.LeaveWait | backend/internal/worker/runner.go:453-460 | removes one channel, and the job's entry with the last one |
| LiveRuns.Keeps | backend/internal/api/hub.go:89-175 | publishing, subscribing, sending, cutting off, reconnecting and handling keep the invariant of the updates on their way |
| LiveRuns.NothingMissed | frontend/src/api/live.ts:78-118 | the client's number for a topic means it has the data of every message from where its following began up to that number; that number is one of the topic's, unless the client came back with an old one and has heard nothing since |
| LiveRuns.QueueIsConsecutive | backend/internal/api/hub.go:89-110 | to a client that was not cut off, what is on its way is numbered consecutively from the client's number on, or from the last notice, and carries what was published under its numbers; of a topic named twice in one request, which is replayed twice, no message is skipped |
| LiveRuns.CaughtUp | backend/internal/api/hub.go:148-175 | a client that follows a topic and has handled what was on its way is at the topic's last number and has all data since its following began |
| LiveRuns.OpeningFits | backend/internal/api/hub.go:163-174 | what a subscription queues first, whether replay, notice or resync, follows what the client has and leads up to the topic's last number |
| LiveRuns.MissedIsTail | backend/internal/api/hub.go:165-170 | replay is exactly the buffered messages after the client's number |
| LiveRuns.PublishWF | backend/internal/api/hub.go:94-101 | the buffer always ends with the topic's last message, skips none, and is as long as it may be |
| LiveRuns.BufferHolds | backend/internal/api/hub.go:21-33 | in every run the hub keeps of each topic exactly the last messages: 1 of `node`, 200 of a camera or a job, 1000 of any other |
| LiveRuns.SubscribeFed | backend/internal/api/hub.go:148-175 | a request leaves in sequence each topic it names once, touches no topic it does not name, and skips no message of one it repeats, with full queues as well |
| Hub.RequestAddsTopics | backend/internal/api/hub.go:35-58 | a request for any topics adds those among the six fixed ones, `camera:` or `job:` with 26 digits and capital letters, until the client has 256, and no others; a request for none of these changes nothing |
| Hub.RequestIsGranted | backend/internal/api/hub.go:148-175 | asking for such a topic leaves a client with room following it, with its opening queued behind what was |
| LiveRuns.ComesBackCompleteIff | backend/internal/api/hub.go:112-175 | a client that was away for all a topic published in its present lifetime has all of it, once it handled what its subscription queues, if and only if its old number is zero, beyond the topic's last one, or before the buffer; its following of a topic it had lost then begins at the start of the lifetime, and otherwise at that number |
| LiveRuns.OpeningBringsAllIff | backend/internal/api/hub.go:154-174 | the opening alone brings all data of the lifetime in exactly those cases |
| LiveRuns.RestartHidesMessages | frontend/src/api/live.ts:105-119 | a run in which the node restarts while a client is away, which ends at the last number of the new sequence without its first message |
| Hub.Server.Publish | backend/internal/api/hub.go:89-110 | numbers the message, keeps the last ones and queues it to exactly the clients subscribed |
| Hub.Server.SubscribeClient | backend/internal/api/hub.go:148-175 | registers valid topics within the client's bound and queues their openings in order |
| Hub.Server.Open | backend/internal/api/hub.go:154-174 | queues the replay, the notice or the resync a subscription starts with |
| Hub.WsClient.PushMessage | backend/internal/api/ws.go:65-71 | queues a message, or ends the connection when 4096 wait |
| Hub.WsClient.AddTopic | backend/internal/api/ws.go:47-55 | accepts a topic it has, or any while it has fewer than 256 |
| Hub.LiveClient.Handle | frontend/src/api/live.ts:105-119 | takes over the number, and loads again on a resync or when the sequence moved while it was away |
| NetHelper.Keeps | backend/internal/netctl/helper_linux.go:161-350 | every critical section and every step between two of them, of any number of concurrent creates and deletes, keeps the invariant |
| NetHelper.ReleasedOnce | backend/internal/netctl/helper_linux.go:187-202 | in every interleaving a namespace is released at most once, and nothing else is |
| NetHelper.SettledRecord | backend/internal/netctl/helper_linux.go:309-350 | once all calls on a record have returned, it is a listed camera with its namespace, or it is out of the map, its process is gone and all that was made for it is released once |
| NetHelper.NothingLeftBehind | backend/internal/netctl/helper_linux.go:306-350 | when every call has returned, the namespaces not released are exactly those of the listed cameras |
| NetHelper.RemovesOnlyItsOwn | backend/internal/netctl/helper_linux.go:343-347 | a camera leaves the map only through a call on the very record listed, and through a delete only once its process is gone |
| NetCreations.CreationIsRegular | backend/internal/netctl/helper_linux.go:161-251 | in every interleaving the steps of a creation come in their order, both looks for a delete included, until one gets a bad answer, and then its ending comes |
| NetCreations.NothingAfterBad | backend/internal/netctl/helper_linux.go:187-226 | after a namespace, an interface or a process that could not be made, or a look that found a delete, nothing but the ending follows: no process is started |
| NetCreations.FailedCreationLeavesNothing | backend/internal/netctl/helper_linux.go:187-242 | a creation that got a bad answer and returned leaves its record out of the map, no process started, and all its namespaces released once |
| NetCreations.FinishedCreationStays | backend/internal/netctl/helper_linux.go:205-251 | a creation that returned without one took every step, its process was started, and unless a delete of it began its record is listed with its namespace |
| NetCreations.AskedIff | backend/internal/netctl/helper_linux.go:309-320 | a record is marked as being deleted if and only if a delete of it has begun |
| NetHelper.Helper.RegisterCamera | backend/internal/netctl/helper_linux.go:176-183 | lists a new record unless the ID is taken |
| NetHelper.Helper.Fail | backend/internal/netctl/helper_linux.go:189-196 | hands the namespace over and takes the record, and no other one, out of the map |
| NetHelper.Helper.BeginDelete | backend/internal/netctl/helper_linux.go:310-320 | marks the listed record as being deleted |
| NetHelper.Helper.TakeNamespace | backend/internal/netctl/helper_linux.go:323-327 | hands the namespace over to one delete |
| NetHelper.Helper.EndDelete | backend/internal/netctl/helper_linux.go:343-347 | takes the record out of the map unless a newer one is there |
| Templates.GuardPreservesMeaning | backend/internal/tmpl/tmpl.go:126-231 | a guarded render succeeds with an output if and only if the template as written ends with it, ranges over no negative number or channel, and has at most 100,000 items to go over and templates to call |
| Templates.ChargeIsItems | backend/internal/tmpl/tmpl.go:187-214 | whatever can be ranged over is charged exactly its items, and only negative numbers and channels are refused |
| Templates.ElementsAreWritten | backend/internal/tmpl/tmpl.go:187-231 | a range over a list or a number that writes its element renders under the guard if and only if there are at most 100,000, and writes them all in order |
| Templates.GuardedRenderIsBounded | backend/internal/tmpl/tmpl.go:126-231 | every guarded render ends, recursive template calls included, with at most `MaxSteps` iterations and calls and `MaxSteps`+1 times the nodes of the largest tree |
| Templates.NegativeRangeIsRefused | backend/internal/tmpl/tmpl.go:175-185 | a template that renders as written and is refused under the guard |
| Templates.TrackList | backend/internal/tmpl/tmpl.go:126-165 | node by node the guarded tree computes what the original does, with the same variables, loop variables included, output and jumps, as long as the guard lets it |
| Templates.RewriteGuardsList | backend/internal/tmpl/tmpl.go:126-165 | the rewrite leaves no range without a charge and no range body without a tick in front, and no template call without a charge, at any depth |
| Templates.MoreFuelList | backend/internal/tmpl/tmpl.go:261-297 | the depth of calls the semantics allows makes no difference to a render that ends |
| Templates.RangeBindsEach | backend/internal/tmpl/tmpl_test.go:126-141 | a range binds its index and element anew in each iteration: a body that writes one of them writes its value for every item, in order |
| Templates.Guard.Step | backend/internal/tmpl/tmpl.go:175-185 | takes steps within the limit or refuses, and never goes past it |
| Templates.Guard.Bound | backend/internal/tmpl/tmpl.go:188-214 | charges a range exactly the number of its items, through pointers, and refuses it only if that is too many or it is over a negative number or a channel |
| Seccomp.Seccomp | backend/internal/sandbox/sandbox_linux.go:179-203 | the filter built gives the policy's verdict on every call, architecture and flags, and the kernel takes it if and only if it has at most 4096 instructions |
| Seccomp.FilterImplementsPolicy | backend/internal/sandbox/sandbox_linux.go:184-203 | running the compiled program is the declared policy |
| Seccomp.AllowedIff | backend/internal/sandbox/sandbox_linux.go:174-203 | a call goes through if and only if nothing in the policy is against it |
| Seccomp.FilterAccepted | backend/internal/sandbox/sandbox_linux.go:204-207 | the kernel takes the filter it is handed, with its 16-bit length, if and only if the filter has at most 4096 instructions, and it never takes a part of one |
| Seccomp.WellFormedNeverFaults | backend/internal/sandbox/sandbox_linux.go:184-203 | a program whose jumps land inside and that ends with a return returns a verdict on every call, from every position |
| Seccomp.Relocate | backend/internal/sandbox/sandbox_linux.go:195-202 | code with relative jumps runs the same wherever it is placed |
| Seccomp.ExtraCorrect | backend/internal/sandbox/sandbox_amd64.go:11-16 | the amd64 rule refuses every x32 call and touches no other |
| Seccomp.FilterIsWellFormed | backend/internal/sandbox/sandbox_linux.go:184-203 | for every list each jump lands inside the program, which ends with a return and has the stated length |
| AnnexB.SplitAnnexB | backend/internal/media/stream.go:193-229 | the loop returns the units of the stream, or says why it has none |
| AnnexB.SplitUndoesJoin | backend/internal/media/stream.go:193-229 | units joined with any mix of start codes and padding come back in order and unchanged |
| AnnexB.RoundTrip | backend/internal/media/stream.go:193-229 | non-empty clean units within the limit survive joining and splitting |
| AnnexB.AcceptedIffJoined | backend/internal/media/stream.go:193-229 | a stream splits into some units if and only if it is those units joined behind a start code |
| AnnexB.OutputIsCanonical | backend/internal/media/stream.go:208-229 | every unit returned is non-empty, holds no start code and ends in no zero |
| AccessUnits.ParseVideo | backend/internal/media/stream.go:88-175 | a stream is accepted if and only if it splits, has 1 to 600 pictures, its parameter sets and a first keyframe |
| AccessUnits.GroupingIffFold | backend/internal/media/stream.go:46-86 | the loop's pictures and its leftover are the one and only grouping of the units in which pictures have slices and nothing that opens one follows a slice |
| AccessUnits.GroupingOfFold | backend/internal/media/stream.go:46-86 | pictures followed by the leftover are the units not dropped, in order |
| AccessUnits.FirstIsFirst | backend/internal/media/stream.go:88-128 | a parameter set carried is the first of its kind in the stream |
| EncodedVideo.PicturesComeBack | backend/internal/media/stream.go:46-175 | however pictures are written, told by the header bytes of their units, the parser gives back the very same pictures without the delimiters |
| EncodedVideo.EncodedIsTaken | backend/internal/media/stream.go:88-175 | a file of such pictures is taken if and only if it has its parameter sets and its first picture a keyframe |
| Mjpeg.NextJPEG | backend/internal/media/stream.go:254-320 | finds the end of the first image of the input, or says what is wrong with it |
| Mjpeg.ParseMJPEG | backend/internal/media/stream.go:234-251 | the loop takes image after image until the input is used up |
| Mjpeg.FramesIffConcat | backend/internal/media/stream.go:234-251 | an input parses into frames if and only if it is their concatenation and each is an image |
| Mjpeg.ImagesArePrefixFree | backend/internal/media/stream.go:254-320 | whatever follows an image, its end is found in the same place |
| Mjpeg.ImageMarkers | backend/internal/media/stream.go:254-320 | every frame starts and ends with the JPEG markers |
| JpegImages.ImageIffParts | backend/internal/media/stream.go:254-320 | some bytes are one whole image if and only if they are a start, well-formed segments with a frame header among them, a scan, coded data in which every 0xFF is followed by a stuffed zero or a restart marker, and an end |
| Framing.Reader.ReadLine | backend/internal/ipc/conn.go:161-183 | gives the next line whole, or one too-large result for all of it, however the buffer was filled |
| Framing.Reader.Run | backend/internal/ipc/conn.go:96-153 | the frames read are those of the bytes sent, for every way the reader fills its buffer |
| Framing.FramesOfLines | backend/internal/ipc/conn.go:157-183 | each line of at most `MaxMessageSize` bytes comes out intact and each longer one as one error |
| Framing.LinesOfStream | backend/internal/ipc/conn.go:157-183 | every byte stream is some lines and a tail without one |
| Framing.LinesAreUnique | backend/internal/ipc/conn.go:157-183 | and those lines and that tail are the only ones |
| Framing.WrittenIsRead | backend/internal/ipc/conn.go:223-245 | every message accepted for writing is read back, in order |
| Framing.Writer.Write | backend/internal/ipc/conn.go:223-245 | appends the message and a newline, or refuses one that is too large |
| LoginGuard.AttemptsAreBounded | backend/internal/app/auth.go:550-571 | over any stretch an address gets at most the burst, the rate times the stretch, what was given back, and a burst for each time its bucket was dropped unfilled |
| LoginGuard.StepPays | backend/internal/app/auth.go:550-604 | every attempt let through is paid for from the bucket |
| LoginRates.RefusedIff | backend/internal/app/auth.go:550-604 | in every run an attempt is refused if and only if, since some earlier action and without losing its bucket, the address was let through more than nine times, ten a minute and what it was given back |
| LoginRates.AlwaysSince | backend/internal/app/auth.go:550-604 | at every moment of a run the attempts an address has are its burst, what time gave it and what it was given back since some action, less those let through |
| LoginGuard.DroppingFullIsInvisible | backend/internal/app/auth.go:573-592 | a guard that dropped its full buckets can do exactly what it could have done without, evictions of unfilled buckets included, and gives the same answers, over every run |
| LoginGuard.SameAnswers | backend/internal/app/auth.go:550-604 | two guards that differ in full buckets alone allow the same runs, evict the same buckets, give the same answers, and go on differing in full buckets alone |
| LoginGuard.TablesAreBounded | backend/internal/app/auth.go:439-450 | in every run both tables stay within 10,000 entries |
| LoginGuard.LockedGoLast | backend/internal/app/auth.go:509-533 | a locked pair is evicted only in a pass that removes every unlocked one, of which there is less than a tenth |
| LoginGuard.OldestGoFirst | backend/internal/app/auth.go:509-533 | among pairs alike, those that failed longest ago go first |
| LoginGuard.LockStays | backend/internal/app/auth.go:486-507 | a step other than signing in or eviction keeps the pair, counts its failures exactly, and moves its lock only to a later end |
| LoginGuard.LockHolds | backend/internal/app/auth.go:486-533 | the same over any run |
| LoginGuard.LocksGrow | backend/internal/app/auth.go:501-506 | locks grow from thirty seconds with each failure and reach fifteen minutes at the tenth |
| LoginGuard.LockedIff | backend/internal/app/auth.go:476-533 | in every run a pair is locked if and only if it failed five times or more since it signed in or was evicted, and its last failure was at most 30, 60, 120, 240, 480 or, from the tenth on, 900 seconds ago |
| LoginGuard.Oldest | backend/internal/app/auth.go:518-532 | picks so many keys that none of the others sorts before |
| LoginGuard.Guard.AllowIP | backend/internal/app/auth.go:550-571 | admits an attempt if and only if the refilled bucket holds one, and takes it |
| LoginGuard.Guard.EvictBuckets | backend/internal/app/auth.go:573-592 | drops the full buckets, and a tenth of the rest, least recently used first, if that was not enough |
| LoginGuard.Guard.AddFailure | backend/internal/app/auth.go:486-507 | counts a failure, makes room first when the table is full, and locks from the fifth on |
| LoginGuard.LockedUntilDue | backend/internal/app/auth.go:476-507 | after the f-th failure in a row, f being at least five, the pair is refused up to the end of the lock that f earns, over any run in which it neither signs in nor is evicted, and no longer if it does not fail again; with fewer it is not refused |
| LoginGuard.Guard.SignedIn | backend/internal/app/auth.go:594-604 | forgets the pair and gives its address one attempt back, up to the burst |
| Yaml.Converter.Convert | backend/internal/profile/yaml.go:112-169 | ends on every node graph after at most `MaxNodes`+1 visits; succeeds if and only if the unfolding of the node is a value within the limits, and then gives that value, its visits and its positions |
| YamlLines.ParseYAML | backend/internal/profile/yaml.go:66-90 | from the root on, the positions are exactly the pointers of the paths met, through keys and decimal indices, each with the line of the first node met there |
| YamlLines.LineOfPath | backend/internal/profile/yaml.go:36-48 | the line found for the pointer of a path of the document is the line of the first node met there |
| YamlLines.ItoaReadsBack | backend/internal/profile/yaml.go:158-163 | item numbers are decimal numerals without leading zeros that read back as the number |
| YamlLines.SizeIsVisits | backend/internal/profile/yaml.go:112-129 | the nodes and aliases held against the limits are exactly those met |
| YamlLines.SequenceMeans | backend/internal/profile/yaml.go:155-163 | a list is taken if and only if all its items are, and its value has theirs in order |
| Yaml.Converter.Merge | backend/internal/profile/yaml.go:171-197 | brings in the fields of a mapping or of a list of mappings; those present win |
| Yaml.MappingIff | backend/internal/profile/yaml.go:130-152 | a mapping of any size is taken if and only if its keys and values are, merge keys bring in mappings, and no plain key comes behind one that brought the field in already, merge keys included; its value has what the keys bring in, as the first one brings it |
| Yaml.OverrideMustComeFirst | backend/internal/profile/yaml.go:130-152 | the shortest such mappings: an override is taken before a merge key and refused behind it |
| Yaml.DepthIsBounded | backend/internal/profile/yaml.go:112-197 | every value accepted nests within the depth limit, whatever aliases and merge keys bring in |
| Yaml.CyclesAreRefused | backend/internal/profile/yaml.go:123-129 | a node that contains itself, through any path of aliases, fields, items and merge keys, is refused at every depth limit |
| Yaml.Line | backend/internal/profile/yaml.go:36-48 | for any string, the loop gives the line of its longest recorded beginning that ends at a slash or at its end, and for the pointer of a path that of its closest recorded part |
| Yaml.ClosestIsLongest | backend/internal/profile/yaml.go:36-48 | that is the longest recorded beginning of the path |
| Yaml.PointersDiffer | backend/internal/profile/yaml.go:231-233 | different paths have different pointers (section 3 of RFC 6901) |
| Yaml.EscapeRoundTrip | backend/internal/profile/yaml.go:231-233 | escaping a token can be undone and leaves no slash (sections 3 and 4 of RFC 6901) |
| Lifecycle.Session.Run | backend/internal/app/supervisor.go:217-341 | whatever a session meets, its states are a path of the lifecycle table; it ends stopped exactly if a stop came before any failure, goes on running exactly if all went well, and else ends in an error, which asks for a restart once |
| Lifecycle.SessionEnds | backend/internal/app/supervisor.go:217-341 | the same of the first stop or failure among what it meets |
| Lifecycle.CanTransition | backend/internal/domain/camera.go:27-52 | the loop finds a state in the table's row if and only if it is there |
| Lifecycle.RetryBackoff | backend/internal/domain/camera.go:200-214 | two seconds doubled with each attempt, up to a minute |
| Lifecycle.RetriesAreBounded | backend/internal/app/supervisor.go:815-837 | between two removals of its record a camera arms at most five timers, with waits that never get shorter |
| Lifecycle.RetriesAreExact | backend/internal/app/supervisor.go:815-837 | a camera that should run is retried 2, 4, 8, 16 and 32 seconds after its first five failures since its record last was removed, and given up after the sixth |
| Lifecycle.StartsOnlyWhenClear | backend/internal/app/supervisor.go:906-925 | reconciliation decides to start a camera only if it had no retry record at some moment since it was found not running |
| Lifecycle.DecidesIff | backend/internal/app/supervisor.go:906-925 | a pass that found the camera not running decides to start it if and only if the record was absent or given up at the first reading and is absent or not given up at the second, whatever happens between them |
| Lifecycle.DecidesDespiteRecordIff | backend/internal/app/supervisor.go:906-925 | it decides so with a record present if and only if the record was absent or given up at the first reading and is present and not given up at the second |
| Lifecycle.StartsIffNoRecord | backend/internal/app/supervisor.go:858-872 | when both readings see the same record, whatever happens between them, it decides so if and only if there is none |
| Lifecycle.StartsDespiteRecord | backend/internal/app/supervisor.go:915-919 | a run in which it decides so with a retry pending |
| Lifecycle.HopelessForever | backend/internal/app/supervisor.go:839-872 | a camera with a record and no timer running stays so, and is not started again, in any run until a user acts |
| Lifecycle.ElseItCanStart | backend/internal/app/supervisor.go:839-925 | any other camera that should run can be started by its timer or by reconciliation |
| Lifecycle.OneRefusalIsEnough | backend/internal/app/supervisor.go:839-856 | a run into that condition after one failure and one refused restart |
| Lifecycle.Supervisor.AfterFailure | backend/internal/app/supervisor.go:815-837 | counts the failure and arms a timer, or gives up after the fifth attempt |
| Lifecycle.Supervisor.Cancel | backend/internal/app/supervisor.go:874-881 | stops the record's timer and removes the record |
| EncodeLocks.NeverTwoAtOnce | backend/internal/app/assets.go:286-317 | in every interleaving a mutex stays in the table while someone holds it, waits for it or has yet to drop it, and no two work on one rendition |
| EncodeLocks.ListedIffUsedOrSkipped | backend/internal/app/assets.go:301-311 | the table holds a mutex if and only if someone uses it or a collector once failed to get it |
| EncodeLocks.SkippedStays | backend/internal/app/assets.go:599-604 | an entry a collector left is never removed |
| EncodeLocks.CollectorLeaksAnEntry | backend/internal/app/assets.go:599-611 | a run of one encoder and one collector that leaves an entry behind |
| EncodeLocks.Service.EncodeLock | backend/internal/app/assets.go:286-299 | counts a use of the key's mutex, making one if there is none |
| EncodeLocks.Service.DropEncodeLock | backend/internal/app/assets.go:301-311 | drops a use, and the entry with the last one |
| Addresses.NextHost | backend/internal/app/bulk.go:230-253 | the first free host after the start in cyclic order, and none if and only if every other host is used |
| Addresses.CandidateDistance | backend/internal/app/bulk.go:232-253 | the loop tries the addresses in cyclic order, wrapping at the end of the subnet |
| Addresses.OtherThanStart | backend/internal/app/bulk.go:232-253 | the address found differs from the start, the network address and the last one |
| Addresses.LastAddrIsLast | backend/internal/domain/network.go:94-100 | filling the host bits gives the last address of the prefix |
| Addresses.WrapIsInvisible | backend/internal/app/bulk.go:232-253 | wrap-around of the sum at 64 bits does not change the address tried |

## Left out

- The denied system calls by number: the list is a parameter, so the theorem holds for any list on either architecture.
- Landlock, network namespaces, netlink, process start, FFmpeg, the file system and SQLite itself: their success or failure is any input, and store writes succeed.
- A job's progress, step name, result, error text, checkpoint and times, and the tick and kick that make the dispatcher look again: only what decides a job's course is in the model.
- The order in which the waiters of one job are woken: they are a set.
- Pages and filters of job lists and events.
- A restart of the node with more than 100,000 running or waiting jobs: a run of the job runner has none, and `RecoversAllIffFew` says what such a restart would leave.
- Connections after they are ended: the writer may go on for a while and deliver later messages, which the panel takes; for the topics concerned the theorems on live updates go on when it connects again.
- Other panels: a hub's work for one connection does not depend on the others, so a run has one client.
- Data of a topic's earlier lifetime that a client missed: it is not asked for later, and the theorems are about the present one. Of a topic forgotten while the client follows it, nothing is said until the client connects again.
- Timeouts and aborts of a render, and the sharing of trees between renders: a tree is rewritten as a value, and the abort flag is never set.
- The functions templates may call and how values print: any functions, which may answer differently each time.
- What the codec library reads from parameter sets and image headers: any predicates.
- The request and reply table of the IPC connection, and JSON encoding: a message is any bytes without a newline.
- Grouping of IPv6 addresses, the identity of a pair and the limit on password hashing: keys are strings.
- Floating point in the token bucket: tokens and times are real numbers.
- Yaml.Converter.Convert: does not say which error and line a refused document gets; whether a position is a block scalar is not recorded either.
- YAML lexing, the decoding of scalars, the size of a file and its number of documents: a document is its root node, and each scalar has a decoded value or none.
- Status rows and messages written outside a session, such as the error of a refused restart, which do not follow the lifecycle table.
- The names of namespaces, camera configuration, metrics and notices of a session.
- The loop that re-encodes a camera's streams after changes, whose end may miss a change that comes in between its two critical sections.
