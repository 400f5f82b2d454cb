# Verification of the bulk copy engine

A Dafny model of the copy engine in `crates/b2c-engine`: the scanner that plans a tree copy, the
planner that cuts files into chunks, the pipeline in which any number of role-agnostic workers
move chunks from source to destination, the controller that splits the workers between reading
and writing, and the averages it steers by.

Check the whole project with `dafny verify dfyconfig.toml`.

## How it is organised

**The pipeline as a transition system.** `Pipeline.dfy` gives every worker a program counter and
turns each atomic operation, each boundary of a locked section and each file operation into one
step. `Next(c, s, w, e, t)` says that worker `w` takes state `s` to state `t`, where the event `e`
decides what the program does not: the scheduler's answer, whether a timed wait expires, and how a
file operation ends. Source files, arena buffers and destinations are byte sequences. What a
prepared destination holds is arbitrary. Two logs record history (what was read and written for
each job, what happened to each file); no step looks at them.

The invariant is built in layers: who holds which buffer and job (`Ownership`), what has happened
to each job and file (`History`), locks and finalisation (`Finalisation`), what buffers hold
(`Content`), what destinations hold (`Destinations`), byte counters and a termination measure
(`Progress`). `Copy` joins them, shows that every state of every run satisfies the invariant, and
derives the theorems about single states; `Outcome` says what holds when the workers have exited;
`Liveness` bounds the work and excludes deadlock; `Fairness` shows that rounds of the workers' loops make
progress under every interleaving, and that every fair run ends with all workers out of their loops.
`Failures` says that each failing operation, and nothing else, is told of in the messages, the marks and the
count; `Handles` that every handle in use comes from an open that succeeded; `Sides` that a worker turns to
the other side only when its own has no work.

**The worker as a program.** `Engine.dfy` is the same worker as sequential code: a class with the
shared fields, over the classes of `Rings.dfy` and `Arena.dfy`, one method for each function of the
source, and one small method for each statement. Every statement is proved to be a step of the
transition system, so a call is a stretch of a run. Any number of workers taking turns, in any order
and under any reader targets, gives a complete program, `RunBulk`, whose termination and result are
proved. Interleavings inside a turn are those of the transition system.

**The rest.** `Planning` cuts files into jobs. `Glob`, `Scanner`, `Ordering` and `Walk` plan a tree;
`Selection` says which files, directories and links of a tree a plan takes, in terms of names and patterns.
`TreeCopy` joins the scanner, the planner and the pipeline. `Stats` and `Scheduler` (module
`Scheduling`) are the averages and the controller, and `Cliffs` says when its cliffs can persist;
`Modes` says which readings of the rings and rates lead to which mode and split. `Observed` (module
`Observation`) shows that the samples of a running pipeline are those `Cliffs` speaks of, and what the state of
its rings does to the split.
`SmallFiles` is the small-file phase and the outcome of a whole run. `Counting` and `Device` hold sums and rounding.

## What is assumed

- Atomic operations are sequentially consistent; the source uses relaxed ordering.
- The bytes of a source file do not change during the run, but its length may differ from the
  scanned one, and a read may return fewer bytes than asked.
- A positioned write that reports success has written the number of bytes it reports (which the
  engine ignores); one that fails may damage its own range only.
- Creating a file truncates it; setting a length cuts or extends it; preallocation and valid-data
  calls leave arbitrary content of the right length; a failed sizing leaves arbitrary content; a
  failed create or trim leaves the file as it was.
- The block size is positive and below 2^32, a multiple of the alignment, and the number of files is
  at most 2^32. `Planning.BlockMustFitU32` and `Planning.ChosenBlock` say exactly where this holds.
- Distinct destinations are not assumed but proved from distinct names in each directory
  (`TreeCopy.PlanIsTree`).
- Sizes, counters and rates are mathematical integers and reals. `exp` is any function with values
  in (0, 1) that does not rise, as `Stats.Decaying` spells out; `Cliffs` asks that it falls strictly.
- A tick takes its four numbers in one state; the source loads them one after another, so a chunk may
  move in between. `Observation.SamplesAreObservable` and `Cliffs` rest on this; `Scheduling.NoThreeCliffs`
  and the other run theorems of `Scheduling` hold for any numbers at all.
- Fairness (`Fairness.Fair`) asks two things only: no worker that can move is passed over for ever, and
  every call that waits for a buffer or a chunk returns.
- Sorting and removal of adjacent repeats are the standard library's; they are represented by
  functions with the contracts in `Ordering`. Names are compared by code point, paths component by
  component.
- A timed wait either finds an item or may give up. A shutdown is signalled only after the workers
  have been joined.

## Where the code and what is said of it differ

- README.md:100-101 promises that a shortfall is never reported as success. For files that is proved,
  for the bulk phase (`Outcome.NoSilentShortfall`) and for the whole run and its exit code
  (`SmallFiles.ShortfallIsNoSuccess`); success is reported exactly when no operation failed and no mismatch was
  found (`SmallFiles.SuccessMeansNoFailure`). The promise does not extend to bytes: a read that returns less than asked
  is filled with zeros and counted (crates/b2c-engine/src/engine.rs:636-641).
  `Outcome.ShortReadGoesUnnoticed` states the failing family and `Engine.ZeroFilledCopy` is a concrete
  one-byte copy. `Outcome.ExactlyWhenRestIsZero` and `Engine.BulkExact` give the exact condition on what
  the reads report: a copy equals its source if and only if every read that stopped short stopped
  before nothing but zeros.
- A failing trim is reported but the file is still counted
  (crates/b2c-engine/src/engine.rs:748-761), so the exactness theorems speak of the trim.
- The matching loop compares characters before it looks for a star
  (crates/b2c-engine/src/scanner.rs:176-182), so a `*` in the text is consumed by a `*` in the pattern.
  `Glob.FaithfulTexts` shows that texts without a star are exactly those on which the loop
  implements every pattern. The error is one-sided: an exclusion can miss a name but never takes one
  that no pattern means (`Glob.NeverOverExcludes`).
- A scan of a single file leaves `total_bytes` at zero
  (crates/b2c-engine/src/scanner.rs:46-68); `Walk.Scan` states it.
- With a source depth of zero, or depths that together cannot occupy all workers, the reader bounds
  of crates/b2c-engine/src/scheduler.rs:147-156 exceed the source's depth on every tick;
  `Scheduling.SplitSafe` gives the exact condition.

## Model

| member | source | states |
|---|---|---|
| Ownership.BufferStep | crates/b2c-engine/src/rings.rs:62-104 | every step of every worker keeps the number of places a buffer is in (free stack, filled queue, a worker's hand), which the invariant has at one |
| Ownership.JobStep | crates/b2c-engine/src/engine.rs:594-703 | every job stays in exactly one place (unclaimed, queued, one worker, settled) and `remaining` stays the number of jobs that still owe a decrement |
| Finalisation.LockStep | crates/b2c-engine/src/engine.rs:713-743 | a file's mutex is held exactly by the worker inside its locked section |
| Finalisation.FinalStep | crates/b2c-engine/src/engine.rs:701-762 | `done` is the number of credited chunks, at most one worker finalises a file, and `files_done` is the number of counted files, kept by every step |
| Finalisation.DoneAtMostChunks | crates/b2c-engine/src/engine.rs:701 | `done` never exceeds the planned chunks and reaches them if and only if every chunk of the file was credited |
| Content.BufferInvStep | crates/b2c-engine/src/engine.rs:622-691 | a buffer keeps the bytes read for its chunk, zeros included, until its write |
| Destinations.DestinationStep | crates/b2c-engine/src/engine.rs:690-750 | every step keeps, for every chunk of a prepared file, its range of the destination equal to what was prepared, read and written for it |
| Destinations.CompleteMeansPrepared | crates/b2c-engine/src/engine.rs:741-744 | a worker about to trim finds the file prepared and its master handle present |
| History.HistoryStep | crates/b2c-engine/src/engine.rs:587-705 | a job's log follows its life (read before written, tried before credited), and a failed file is always named in the error list unless the list is full |
| Copy.InvStep | crates/b2c-engine/src/engine.rs:567-762 | the whole invariant is kept by every step of every worker under every outcome |
| Copy.AlwaysInv | crates/b2c-engine/src/engine.rs:567-762 | every state of every run, for any number of workers and any schedule, satisfies the invariant |
| Copy.BytesInOrder | crates/b2c-engine/src/engine.rs:643-695 | at every moment bytes written <= bytes read <= the jobs' total length |
| Copy.CounterIsPositive | crates/b2c-engine/src/engine.rs:615-699 | `remaining` is positive whenever a worker is about to decrement it, so it never underflows |
| Copy.Exclusive | crates/b2c-engine/src/arena.rs:102-105 | no two workers hold one buffer, work on one job, or are inside one file's lock |
| Copy.PreparationDestroysNothing | crates/b2c-engine/src/engine.rs:708-738 | the truncating create and the sizing only hit a file with no write attempt so far, also on a retry, and a write finds the file prepared, its handle kept, and no trim done |
| Copy.TrimIsLast | crates/b2c-engine/src/engine.rs:741-762 | the trim finds its handle, comes once, comes after a write attempt for every chunk, and no other worker can write to or finalise the file then |
| Copy.DroppedFileIsNeverFinalised | crates/b2c-engine/src/engine.rs:611-685 | a file with a chunk lost to a failed open, read or preparation is never trimmed or counted |
| Copy.CountedIsDelivered | crates/b2c-engine/src/engine.rs:587-762 | for a counted file every chunk was written, and each byte up to the length the file has, padding included, is the source's byte read at that place, a zero past what the read returned, or what preparation left past what the write took |
| Copy.ExactlyWhenIntact | crates/b2c-engine/src/engine.rs:636-641 | for every source length, a counted file equals its source if and only if the source is as long as the file was left (the scanned size if trimmed, else that size rounded up) and the counts keep every byte: below the write count the read count covers it or it is zero, above the write count preparation happened to have it |
| Copy.ByteExact | crates/b2c-engine/src/engine.rs:587-762 | a counted and trimmed file none of whose transfers fell short equals its source, length and bytes |
| Copy.ResizedSourceDiffers | crates/b2c-engine/src/engine.rs:748 | a trimmed copy never equals a source whose length is not the scanned one |
| Outcome.ExitSettlesJobs | crates/b2c-engine/src/engine.rs:454-459 | when the workers have been joined nothing is queued, every job is settled, every buffer is free and every lock is released |
| Outcome.ExitSettlesFiles | crates/b2c-engine/src/engine.rs:454-459 | after the join a file is counted exactly when every chunk was read and written without an error, exactly when it is not marked failed, and every other file and every failed trim is reported |
| Outcome.NoSilentShortfall | crates/b2c-engine/src/engine.rs:454-472 | after the join of the bulk phase fewer counted files than planned ones means a non-empty error list of at most 64 entries, and an empty list means all files counted and trimmed |
| Outcome.CleanRun | crates/b2c-engine/src/engine.rs:587-762 | a run without failing operations never reaches an error path and reports nothing |
| Outcome.MetRun | crates/b2c-engine/src/engine.rs:625-691 | whatever is true of the byte counts of all transfers of a run is true of all the counts in its log |
| Outcome.QuietCopy | crates/b2c-engine/src/engine.rs:454-459 | without a failing operation every file is counted and trimmed and nothing is reported |
| Outcome.ExitCountsBytes | crates/b2c-engine/src/engine.rs:454-472 | after the join the bytes counted as written are those of the chunks whose write succeeded |
| Outcome.QuietTotals | crates/b2c-engine/src/engine.rs:643-695 | without a failing operation both byte counters end at the total length of the jobs |
| Outcome.CleanCopy | crates/b2c-engine/src/engine.rs:352-472 | if no operation fails or falls short, every destination equals its source, under every schedule and every role assignment |
| Outcome.QuietBytes | crates/b2c-engine/src/engine.rs:625-650 | without a failing operation each byte of each destination is the byte that was read, or zero where the read stopped short |
| Outcome.ExactlyWhenRestIsZero | crates/b2c-engine/src/engine.rs:636-641 | without a failing operation and with full writes, a copy equals its source if and only if the source bytes past what each read reported are all zero |
| Outcome.ShortReadGoesUnnoticed | crates/b2c-engine/src/engine.rs:636-641 | a read that stops short of a non-zero byte yields a counted file, no message, and a copy that differs |
| Outcome.ForeignFilesStay | crates/b2c-engine/src/engine.rs:654-762 | a run never creates, changes or removes a file outside its plan |
| Failures.FailuresDecide | crates/b2c-engine/src/engine.rs:587-762 | after the join a file is missing from the count if and only if an open, read, create, sizing or write of one of its chunks failed, its trim is noted as failed if and only if it failed, and there is one message for each failing operation, up to 64 |
| Failures.SilentMeansQuiet | crates/b2c-engine/src/engine.rs:113-121 | the message list of the bulk phase is empty if and only if no operation failed |
| Handles.HandlesWereOpened | crates/b2c-engine/src/engine.rs:601-688 | a worker has a source or destination handle if and only if an earlier step of its own opened that file with success |
| Handles.OpenedOnce | crates/b2c-engine/src/engine.rs:601-688 | a worker opens the same file with success at most once |
| Handles.HandleInvStep | crates/b2c-engine/src/engine.rs:622-691 | every step keeps that reads and writes go through a handle of the worker, and that what was read or written of a job came through one |
| Handles.UnopenedLeavesNoTrace | crates/b2c-engine/src/engine.rs:601-620 | a file none of whose source opens succeeded has no byte read, its destination is as before the run, and it is not counted |
| Handles.UnopenedIsNotWritten | crates/b2c-engine/src/engine.rs:669-688 | a file none of whose destination opens succeeded has no chunk written and is not counted |
| Sides.OwnSideFirst | crates/b2c-engine/src/engine.rs:577-580 | under any interleaving a worker told to read turns to the queue in the same round only after finding no buffer or no job, and one told to write turns to the free buffers only after a wait for a chunk in vain |
| Progress.MeasureStep | crates/b2c-engine/src/engine.rs:567-762 | every productive step lowers one measure over job stages and program counters, and looking for work leaves it unchanged |
| Liveness.BoundedWork | crates/b2c-engine/src/engine.rs:573-584 | every run takes at most 27 productive steps per chunk, however workers are scheduled |
| Liveness.BusyMeansMovable | crates/b2c-engine/src/engine.rs:587-762 | a worker that is not looking for work can take a productive step, or waits for the mutex of one that can |
| Liveness.WorkToFind | crates/b2c-engine/src/engine.rs:587-598 | when all workers look for work and some remains, there is a filled chunk, or an unclaimed job with a buffer for it |
| Liveness.OneIterationAdvances | crates/b2c-engine/src/engine.rs:573-584 | with all others at the loop head, one loop iteration of any worker moves a job on, whatever the scheduler answers and however its waits end |
| Liveness.NoDeadlock | crates/b2c-engine/src/engine.rs:567-705 | from every reachable state with work remaining, some role answers and wait outcomes lead to a productive step within five |
| Fairness.RoundsAreProductive | crates/b2c-engine/src/engine.rs:567-705 | for any number of workers, under any interleaving, role answers and wait outcomes: if work remains and every worker completes a round of its loop, some step was productive |
| Fairness.RoundsAreBounded | crates/b2c-engine/src/engine.rs:573-584 | no run has more than 27 full rounds of all its workers per planned chunk |
| Fairness.LeavesLoop | crates/b2c-engine/src/engine.rs:573-585 | once no job remains a worker leaves its loop at its next step at the loop head and never returns |
| Fairness.StuckMeansExited | crates/b2c-engine/src/engine.rs:567-585 | a reachable state in which no worker can move is one in which all have left their loops |
| Fairness.FairRunsEnd | crates/b2c-engine/src/engine.rs:567-705 | no fair run goes on for ever, whatever the roles, the waits and the outcomes of the operations |
| Engine.Shared.constructor | crates/b2c-engine/src/engine.rs:413-432 | the shared state starts as an initial state of the transition system, with an empty run recorded |
| Engine.Shared.Message | crates/b2c-engine/src/engine.rs:113-121 | the failure is counted, and its message appended unless 64 are kept already |
| Engine.Shared.Abandon | crates/b2c-engine/src/engine.rs:612-616 | the failure is reported, only the file's mark changes, the buffer is given back and `remaining` falls by one, as a stretch of a run back to the loop head |
| Engine.Shared.OpenSource | crates/b2c-engine/src/engine.rs:601-620 | it succeeds if and only if the worker has the file open or the device opens it; success adds the handle and failure changes no handle |
| Engine.Shared.ReadJob | crates/b2c-engine/src/engine.rs:600-651 | a claimed job is published as its chunk, its bytes counted and nothing else settled, if and only if its source was or could be opened and the read succeeds; otherwise it is abandoned with its buffer given back and `remaining` one lower; both are stretches of a run to the loop head |
| Engine.Shared.ClaimJob | crates/b2c-engine/src/engine.rs:594-598 | the cursor moves by one; a job below the end is worked on, and past the end the buffer is given back and nothing else changes in the rings or in `remaining` |
| Engine.Shared.TryRead | crates/b2c-engine/src/engine.rs:587-652 | the reading side returns true if and only if a buffer was free and a job left, and has lowered the work left; otherwise false after fruitless steps only; it takes no chunk and writes nothing, and the cursor moves by one whenever a buffer was free |
| Engine.Shared.PrepareDestination | crates/b2c-engine/src/engine.rs:708-738 | it succeeds if and only if the file was prepared or can be created and sized, and then the file is prepared; from the unlocked check to the write path or the error path no lock stays held |
| Engine.Shared.OpenDestination | crates/b2c-engine/src/engine.rs:669-688 | it succeeds if and only if the worker has the destination open or the device opens it; success adds the handle and failure changes no handle |
| Engine.Shared.WriteBytes | crates/b2c-engine/src/engine.rs:690-691 | a positioned write takes the reported number of bytes from the start of the chunk's buffer, and a failing one may leave anything in the chunk's range |
| Engine.Shared.AttemptWrite | crates/b2c-engine/src/engine.rs:690-696 | if the write succeeds its bytes are counted and nothing is marked; if it fails its failure is reported, the file marked and no byte counted |
| Engine.Shared.SettleChunk | crates/b2c-engine/src/engine.rs:698-704 | the buffer goes back, `remaining` falls and `done` rises by one; after the last chunk the file is settled, and otherwise disk, file records and count stay as they are |
| Engine.Shared.Finalize | crates/b2c-engine/src/engine.rs:741-762 | the file's trim has been tried, the file is counted unless marked failed, no other mark changes and the mutex is free again, as a stretch of a run |
| Engine.Shared.TryWrite | crates/b2c-engine/src/engine.rs:654-705 | the writing side returns true if and only if a chunk waited, which is the one it takes off the queue; the cursor and the read counter stay |
| Engine.Shared.Turn | crates/b2c-engine/src/engine.rs:577-583 | with work remaining a turn lowers the work left; a worker below the reader target moves the next job into a buffer if there are both, and only otherwise takes the oldest chunk; the others take the oldest chunk if there is one and only otherwise read |
| Engine.Shared.Work | crates/b2c-engine/src/engine.rs:567-585 | the workers' loops end with all of them exited, for any number of workers, any order of turns, any reader targets and every outcome of the operations; until no job remains the run consists of turns of the workers the order names, each on the side its reader target gives it first |
| Engine.BulkOutcome | crates/b2c-engine/src/engine.rs:454-472 | what a finished run leaves: an empty queue, counted files or messages, and, without failures, every byte where the operations' counts put it |
| Engine.BulkExact | crates/b2c-engine/src/engine.rs:636-641 | without failures and with full writes a file equals its source if and only if each of its reads stopped, if at all, before nothing but zeros |
| Engine.RunBulk | crates/b2c-engine/src/engine.rs:352-472 | planning, working, joining and shutting down with any number of workers taking turns ends; a shortfall leaves a message; without failures each byte of each file is given by the transfer counts, with the exact condition for equality; other files are untouched |
| Engine.ZeroFilledCopy | crates/b2c-engine/src/engine.rs:636-641 | a one-byte file whose read returns nothing is counted without a message and copied as a zero |
| BufferRings.Rings.constructor | crates/b2c-engine/src/rings.rs:42-51 | all buffers start free, no chunk is queued, no shutdown is signalled |
| BufferRings.Rings.AcquireFree | crates/b2c-engine/src/rings.rs:62-77 | the first finding before the timeout that is not empty or signals a shutdown decides: the top of the stack, but nothing after a shutdown, also one that comes during the wait |
| BufferRings.Rings.ReleaseFree | crates/b2c-engine/src/rings.rs:79-82 | the buffer goes on top of the stack |
| BufferRings.Rings.PushFilled | crates/b2c-engine/src/rings.rs:84-87 | the chunk goes to the end of the queue |
| BufferRings.Rings.PopFilled | crates/b2c-engine/src/rings.rs:89-104 | the first finding that is not empty or signals a shutdown decides: the oldest chunk, handed out even after a shutdown, and nothing if the queue is empty then |
| BufferRings.Rings.Shutdown | crates/b2c-engine/src/rings.rs:114-118 | the flag is set and neither ring changes |
| BufferArena.RangesApart | crates/b2c-engine/src/arena.rs:93-105 | the ranges of two buffers lie inside the arena and do not overlap |
| BufferArena.BufferCount | crates/b2c-engine/src/arena.rs:34-36 | there are at least four buffers, never more than the requested size holds beyond that, and no further whole buffer would fit |
| BufferArena.Arena.Ptr | crates/b2c-engine/src/arena.rs:102-105 | a buffer's start leaves room for a whole block and for every other buffer |
| BufferArena.Arena.Store | crates/b2c-engine/src/arena.rs:102-105 | overwriting part of one buffer changes that part and no other buffer |
| BufferArena.Arena.Load | crates/b2c-engine/src/engine.rs:624-625 | a device fills the front of one buffer and nothing else |
| BufferArena.Arena.Clear | crates/b2c-engine/src/engine.rs:639-641 | the slack of one buffer becomes zero and nothing else changes |
| Device.RoundUpIsLeastMultiple | crates/b2c-engine/src/device.rs:136-141 | rounding up gives the least multiple of the alignment that is not below the value |
| Device.RoundUpShift | crates/b2c-engine/src/device.rs:136-141 | rounding commutes with adding whole multiples |
| Planning.PlanJobs | crates/b2c-engine/src/engine.rs:386-409 | the two planning loops produce exactly the jobs and chunk counts of the plan's definition, casts included |
| Planning.ChosenBlock | crates/b2c-engine/src/engine.rs:168-172 | the rounded block size serves the pipeline if and only if it is positive and fits 32 bits, with the chosen alignment and with alignment 1 |
| Planning.ChunkRange | crates/b2c-engine/src/engine.rs:390-394 | each chunk's offset and length, its padded length fits one buffer, and the last padded range ends at the file's rounded size |
| Planning.OneChunkPerByte | crates/b2c-engine/src/engine.rs:388-400 | every byte of a file of any size lies in exactly one chunk |
| Planning.PaddedRangesTile | crates/b2c-engine/src/engine.rs:723 | every position below the prepared length lies in exactly one padded range, and none beyond it |
| Planning.RequestsAligned | crates/b2c-engine/src/engine.rs:168-172 | with power-of-two alignments every offset and padded length is a multiple of both volumes' alignments |
| Planning.PlanIsWellFormed | crates/b2c-engine/src/engine.rs:386-409 | the planned jobs fit their files and buffers, stay apart, cover every byte and with their padding every prepared position, and are counted right |
| Planning.PlanLength | crates/b2c-engine/src/engine.rs:386-409 | the jobs' lengths add up to the files' sizes |
| Planning.JobsInOrder | crates/b2c-engine/src/engine.rs:386-409 | the jobs come file by file in the order of the list, and within a file from front to back |
| Planning.BlockMustFitU32 | crates/b2c-engine/src/engine.rs:394 | the 32-bit cast of the chunk length loses nothing if and only if the block is below 4 GiB |
| Glob.GlobMatch | crates/b2c-engine/src/scanner.rs:169-195 | the loop with one backtrack point decides, for every pattern and every text, what the recursive reading with a literal star decides |
| Glob.NoEarlierExit | crates/b2c-engine/src/scanner.rs:179-186 | a stretch of pattern walked greedily is never left earlier by a later placement, which is why the latest star suffices |
| Glob.DecidesIsMeaning | crates/b2c-engine/src/scanner.rs:169-195 | on texts without a star the loop's answer is the meaning of `*` and `?` |
| Glob.NeverTooMuch | crates/b2c-engine/src/scanner.rs:169-195 | on every text, stars included, whatever the loop matches the meaning matches |
| Glob.NeverOverExcludes | crates/b2c-engine/src/scanner.rs:164-195 | an excluded name is one that some pattern means |
| Glob.StarInTextMisleads | crates/b2c-engine/src/scanner.rs:176-182 | for every text with a star there is a pattern that matches by meaning and is refused by the loop |
| Glob.FaithfulTexts | crates/b2c-engine/src/scanner.rs:169-195 | the loop implements every pattern on a text if and only if the text has no star |
| Glob.MeansOfParts | crates/b2c-engine/src/scanner.rs:168-195 | a pattern made of two parts means the texts that some cut divides into what the parts mean |
| Glob.MeansOfOne | crates/b2c-engine/src/scanner.rs:168-195 | `*` means any text, `?` any one character, any other character itself, and the empty pattern the empty text |
| Glob.Excluded | crates/b2c-engine/src/scanner.rs:164-166 | a name is excluded if and only if one of the patterns decides for it |
| Scanner.FilesAreLeads | crates/b2c-engine/src/scanner.rs:78-122 | the recursive walk finds exactly the files that names lead to through readable, unexcluded directories, each rebased |
| Scanner.DirsAreLeads | crates/b2c-engine/src/scanner.rs:104-108 | the recursive walk finds exactly the directories that names lead to |
| Scanner.DistinctDestinations | crates/b2c-engine/src/scanner.rs:103-120 | distinct names in every directory give distinct destinations |
| Walk.Descend | crates/b2c-engine/src/scanner.rs:106-108 | pushing a directory keeps planned plus stacked plus rest equal to the tree |
| Walk.Take | crates/b2c-engine/src/scanner.rs:109-120 | planning a file keeps planned plus stacked plus rest equal to the tree, and the total equal to the sum |
| Walk.Visit | crates/b2c-engine/src/scanner.rs:87-121 | handling one entry keeps planned plus stacked plus rest equal to the tree and does not add to the work left |
| Walk.Push | crates/b2c-engine/src/scanner.rs:156-162 | a task goes to the bulk list at or above the threshold and to the small list below it |
| Walk.TotalSizePermutes | crates/b2c-engine/src/scanner.rs:111-152 | the total depends on the tasks and not on the order sorting gives them |
| Walk.Scan | crates/b2c-engine/src/scanner.rs:40-154 | the stack walk ends and its plan holds exactly the files of the recursive walk, split at the threshold, the bulk list by descending size, their total, the links passed over, and the directories in strictly ascending order; the error exits and the single-file branch as in the source |
| Selection.PlanSelects | crates/b2c-engine/src/scanner.rs:87-162 | a plan holds exactly the files that readable directories lead to and none of whose names a pattern decides for, each with its length or zero if that is unknown, split at the threshold, the bulk list by falling size |
| Selection.PlanSelectsDirs | crates/b2c-engine/src/scanner.rs:75-108 | the directory list is exactly the destination and the directories that allowed names lead to |
| Selection.ExcludedStaysOut | crates/b2c-engine/src/scanner.rs:90-92 | no name of a planned file or directory is one that a pattern decides for, nor one that a pattern means if the name has no star |
| Selection.LinksPassedOver | crates/b2c-engine/src/scanner.rs:98-101 | the number of skipped links is that of the links that allowed names lead to, each once if names are distinct |
| Ordering.DedupSorts | crates/b2c-engine/src/scanner.rs:148-149 | on a sorted list removing adjacent repeats removes all repeats |
| Ordering.PathsAreOrdered | crates/b2c-engine/src/scanner.rs:148 | comparing paths component by component is a total order |
| Ordering.LexMeans | crates/b2c-engine/src/scanner.rs:148 | a list is below another if it is a proper prefix or has the lesser element at the first difference |
| Ordering.SiblingsByCode | crates/b2c-engine/src/scanner.rs:148 | siblings are ordered by the code point of the first character in which their names differ |
| Ordering.ParentFirst | crates/b2c-engine/src/scanner.rs:147-148 | a directory is ordered before everything below it |
| SmallFiles.SmallStep | crates/b2c-engine/src/engine.rs:487-513 | every step of every thread keeps each small file unclaimed, in one hand, copied and counted, or failed and reported |
| SmallFiles.SmallSettled | crates/b2c-engine/src/engine.rs:480-517 | when the threads have finished every small file was copied or its failure reported, and the count is full if and only if all were copied |
| SmallFiles.FailedCopiesTell | crates/b2c-engine/src/engine.rs:494-511 | there is a message about the small files if and only if a copy of one failed |
| SmallFiles.ShortfallIsNoSuccess | crates/b2c-cli/src/main.rs:145-156 | a whole run that counts fewer files than the scanned plan holds exits with a non-zero code, its count is full if and only if every planned file was counted, and an exit code of zero also means every trim succeeded |
| SmallFiles.MessagesReachTheExit | crates/b2c-cli/src/main.rs:145-156 | the exit code is 0 if and only if the error list of every phase that ran is empty and the verification found no mismatch, and 2 otherwise |
| SmallFiles.SuccessMeansNoFailure | crates/b2c-engine/src/engine.rs:287-306 | the exit code is 0 if and only if no operation of the pipeline failed, no copy of a small file failed and no mismatch was found |
| SmallFiles.CountMeansTree | crates/b2c-engine/src/engine.rs:287-302 | the count of a run is full if and only if every file of the scanned tree was counted under its rebased path, by the pipeline from the threshold up and by the platform copy below it; an exit code of zero settles the whole tree |
| TreeCopy.PlanIsTree | crates/b2c-engine/src/scanner.rs:40-154 | a task is on the bulk list if and only if it is a file of the tree of at least the threshold size, rebased; destinations are distinct when names are |
| TreeCopy.CreationSafe | crates/b2c-engine/src/scanner.rs:75-149 | no directory is listed twice, the root is first, every other one comes after its parent, and every file's parent is listed |
| TreeCopy.TreeIsPlanned | crates/b2c-engine/src/engine.rs:386-409 | a scanned plan meets everything the pipeline demands |
| TreeCopy.TreeIsCopied | crates/b2c-engine/src/engine.rs:239-306 | scanning, planning and running without failure or shortfall puts every bulk file of the tree at its rebased path, byte for byte |
| TreeCopy.LargestFirst | crates/b2c-engine/src/scanner.rs:150-152 | jobs of larger files come first, and those of one file from front to back |
| TreeCopy.TreeTotals | crates/b2c-engine/src/engine.rs:643-695 | without a failing operation both byte counters end at the scanned length of the bulk files |
| TreeCopy.NothingElseTouched | crates/b2c-engine/src/engine.rs:352-472 | whatever fails, only destinations of bulk files of the tree change |
| TreeCopy.BytesWithinTotal | crates/b2c-engine/src/engine.rs:643-695 | at every moment bytes written <= bytes read <= bulk total <= scanned total |
| Stats.Ewma.Update | crates/b2c-engine/src/stats.rs:83-91 | the first sample becomes the value; after a later one the distance to the sample is `exp(dt / tau)` of what it was |
| Stats.Ewma.Get | crates/b2c-engine/src/stats.rs:93-95 | reading gives the value |
| Stats.AverageInRange | crates/b2c-engine/src/stats.rs:83-91 | after any samples the average stays between the least and the greatest of them |
| Stats.ShortBelowLong | crates/b2c-engine/src/stats.rs:83-91 | on any non-increasing samples with shared positive time steps the short average never exceeds the long one |
| Scheduling.Scheduler.constructor | crates/b2c-engine/src/scheduler.rs:113-123 | half of the workers start as readers, one of one, and the state is Balanced |
| Scheduling.RolesFollowTarget | crates/b2c-engine/src/scheduler.rs:125-131 | of all workers exactly the target number is told to read, or all if there are fewer, and the rest to write |
| Scheduling.CrewSplit | crates/b2c-engine/src/scheduler.rs:125-156 | after every tick at least one worker is told to read and no more to write than the destination's depth |
| Scheduling.Scheduler.Steer | crates/b2c-engine/src/scheduler.rs:204-282 | one tick's classification, hysteresis, target and clamp are those of the tick function, and the published split adds up to the workers |
| Scheduling.Scheduler.Run | crates/b2c-engine/src/scheduler.rs:160-298 | the loop computes the fold of the tick function over the samples |
| Scheduling.SplitSafe | crates/b2c-engine/src/scheduler.rs:147-156 | after every tick some worker reads and the writers respect the destination's depth; exact conditions for a writer to exist and for the readers to respect the source's depth |
| Scheduling.OneWorkerPerTick | crates/b2c-engine/src/scheduler.rs:244-282 | from the second tick on the split moves by at most one worker |
| Scheduling.StarvedSideGains | crates/b2c-engine/src/scheduler.rs:258-277 | a committed Fill or Cliff moves one worker to reading and a committed Drain one to writing, unless the bound is reached |
| Scheduling.HysteresisMeansRepeated | crates/b2c-engine/src/scheduler.rs:228-243 | the committed state is the latest classification indicated twice running, or Balanced |
| Scheduling.SharedSpindleThrashes | crates/b2c-engine/src/scheduler.rs:216-241 | on a shared spindle the state is Thrash from the second tick on |
| Scheduling.SharedSpindleBursts | crates/b2c-engine/src/scheduler.rs:244-257 | on a shared spindle, from the second tick on, all workers write while less than 12 percent of the buffers are free, else all read while less than 12 percent are filled, and otherwise nobody changes sides |
| Scheduling.ThrashNeedsSharedSpindle | crates/b2c-engine/src/scheduler.rs:216-241 | off a shared spindle Thrash is never committed or indicated |
| Scheduling.NoCliffAtFullDepth | crates/b2c-engine/src/scheduler.rs:211-214 | a destination whose depth is at least the number of workers never shows a cliff |
| Scheduling.CliffGivesUpDepth | crates/b2c-engine/src/scheduler.rs:260-277 | a committed Cliff leaves fewer writers than the destination's depth, if the bounds leave a choice |
| Scheduling.NoThreeCliffs | crates/b2c-engine/src/scheduler.rs:211-277 | no run classifies a cliff three times running, if the bounds leave a choice |
| Cliffs.CliffPersists | crates/b2c-engine/src/scheduler.rs:161-277 | with a single split that uses the destination's depth, an observable burst followed by silence is classified as a cliff from some tick on, for as many ticks as one likes, at any pace of at least a tenth of a second |
| Cliffs.WhenCliffsEnd | crates/b2c-engine/src/scheduler.rs:147-277 | no observable run classifies a cliff three times running if and only if the bounds leave a choice of splits or the destination's depth is out of reach |
| Observation.SamplesAreObservable | crates/b2c-engine/src/scheduler.rs:176-196 | samples taken at any later and later states of any run with at least four buffers, a tick or more apart, are observable: written within read, free and filled within the arena, counters never falling |
| Scheduling.AveragesFoldReadings | crates/b2c-engine/src/scheduler.rs:176-190 | in every run both write averages are the averages of the same readings |
| Scheduling.ReadAveragesFoldReadings | crates/b2c-engine/src/scheduler.rs:180-187 | in every run both read averages are the averages of the read rates |
| Modes.ReadingAt | crates/b2c-engine/src/scheduler.rs:176-185 | a rate times its interval is the bytes written since the last tick, and the interval is the time since then, at least a microsecond |
| Modes.IndicatesWhatItShows | crates/b2c-engine/src/scheduler.rs:201-226 | a tick indicates Thrash, Cliff, Drain, Fill or Balanced if and only if the spindle, the depth and the two write averages, the free buffers and the filled chunks are as the source compares them, in that order |
| Modes.ShownTwiceTakesEffect | crates/b2c-engine/src/scheduler.rs:208-243 | what two consecutive samples both show is the state; a sample that shows something else than the one before changes nothing; a run starts Balanced |
| Modes.StarvedSideIsServed | crates/b2c-engine/src/scheduler.rs:147-282 | two consecutive samples with too few buffers for the readers take a reader away, two with too few chunks for the writers or with a collapsed rate add one, two with neither move one towards the weighted split, all up to the bounds |
| Modes.StartsWithHalf | crates/b2c-engine/src/scheduler.rs:113-123 | the controller starts with half of the workers reading, and with one of one |
| Observation.RingsMoveTheSplit | crates/b2c-engine/src/scheduler.rs:192-282 | along any run of the pipeline, fewer free buffers than readers at two consecutive ticks make the controller drain and give up a reader; buffers but fewer chunks than writers make it fill and add one |
| Scheduling.SteadyRatesAreNoCliff | crates/b2c-engine/src/scheduler.rs:106-214 | rates within a band whose floor is 0.7 of its ceiling never classify as a cliff |
| Scheduling.BalancedConverges | crates/b2c-engine/src/scheduler.rs:267-277 | over any stretch of Balanced ticks the reader count walks straight to the settled split, one per tick, and stays there |
| Scheduling.FixedPoint | crates/b2c-engine/src/scheduler.rs:147-156 | the settled split is the weighted one, at least one, when the depths can occupy all workers, and workers minus the destination's depth otherwise |

## Left out

- Engine.RunBulk: workers take whole turns one after another; interleavings inside a turn are covered by the theorems on the transition system, not by this program.
- Engine.Shared.Work: turns follow one another whole, as in `RunBulk`; runs that interleave inside a turn are covered by `Fairness`, `Sides` and `Copy`.
- Engine.Shared.TryRead: the wait for a buffer ends at its first timeout, because nobody else runs during the turn; wake-ups are steps of the transition system.
- Engine.Shared.Finalize: that the trim precedes the count is said of every state by `Copy.TrimIsLast`, not by this contract.
- Walk.Scan: does not model overflow of the 64-bit total, nor the order among bulk files of equal size.
- Relaxed memory ordering and panics of a thread.
- The content of small files, which a library call copies, and verification by hash, which only adds messages.
- Opening, probing and classifying devices, privileges, large pages and arena sizing.
- Real time: ticks and intervals are inputs.
- Timestamps, preallocation and valid-data calls: best effort in the source.
- Names that differ only in case, and Unicode folding: folding is a parameter.
- A dry run, which reports every file as done and moves nothing, and the errors that end a run before its phases.
- Formatting, progress lines, the dashboard and the command line.
