# Verification of mirror-v3

A Dafny model of an exactly-once mirror of Kafka partitions, of the way back
from a backup into a topic, and of the notification and cache beside it, with
proofs about every run of them.

* The **source** is one log of records in offset order, with holes. Delivering
  a record late, again or never is a step of the models that read it.
* The **destinations** are directories of objects (append chains, or snapshots
  of a last-writer-wins view) and Kafka partitions behind the high-watermark
  gate. A mirror fans the source out to them through a tee.
* A **world** is what exists at one moment: destinations with no process, or a
  process with its tee. Puts and produces land or not, are reported or not;
  processes fail, crash, shut down and start again from what they find.
* A **backup** is read back by planning a chain from a listing, verifying every
  object, and producing it, or by following it while it grows.
* **Notification** is two tasks and a watch that interleave at their locks, over
  any number of runs, each going on from the offset the last one committed.

The files, in reading order:

| file | contents |
|---|---|
| `Records.dfy`, `Text.dfy`, `Views.dfy` | records, text keys, the source log, last-writer-wins folds and snapshots |
| `Naming.dfy`, `Chain.dfy` | object names; listings put in order, validated and planned |
| `BlobSink.dfy`, `Outcomes.dfy` | the buffering blob destination and its store; what each of its calls comes to |
| `Sinks.dfy`, `Tee.dfy`, `Mirror.dfy` | all destinations as one type, the tee, the run loop, whole runs |
| `Alignment.dfy`, `Holes.dfy`, `Progress.dfy` | starts below the low watermark that go wrong; a source hole in front of a Kafka destination; what every start and turn comes to, and that destinations fill |
| `Readers.dfy`, `Produce.dfy`, `RoundTrip.dfy` | reading and summing up a backup; restoring it while others may write; from any run of the mirror to its restore |
| `Follow.dfy`, `Standby.dfy` | the growing backup as a source, and followed into a partition |
| `Notify.dfy`, `Dispatch.dfy`, `Batches.dfy` | notification across interleavings and restarts; how it catches up and settles; its buffer and acknowledgements |
| `Cache.dfy`, `FlushCoordinator.dfy`, `BatchSize.dfy` | the cache, the flush coordinator, record batch sizes |

What the source updates step by step is a class or a method proved equal to a
function on values; the results over whole runs are lemmas about those
functions. They come in pairs: what no failure can break, and what a call, a turn
or a run comes to when nothing outside fails. What the environment decides (timers,
outcomes of puts and produces, listing orders, which task goes next) is an argument
or an arbitrary choice.
`hide` keeps definitions out of proofs that do not need them.

Where a plain statement would be false, the exact condition is proved:

* Aligning a tee to the source's low watermark succeeds exactly when no blob
  destination is past it, although the run loop looks only at the least of them
  (`Tees.AlignSucceedsIff`). A snapshot directory with one object up to offset 8,
  beside an empty one, cannot start on a source that begins at 5
  (`Alignments.AlignFailsIff`, `Alignments.AlignCanFail`).
* The idle check after an alignment passes exactly when no resume cursor was left
  below (`Tees.IdleAfterAlignIff`, `Mirrors.IdleDriftsIff`). A source trimmed from 3
  to 5 while a mirror starts fails it with drift nobody caused
  (`Alignments.TrimmedWhileStarting`).
* While the source has a record to notify on each side of the high watermark of a
  start, the commits after it pass only notified records if and only if the mirror
  serves a cache or that watermark is not above its commit
  (`Notify.PromiseKeptIff`). A mirror that only notifies is registered without its
  commit (crates/mirror-bin/src/main.rs:619-631,
  crates/mirror-core/src/cache.rs:306-328), which the configuration allows
  (crates/mirror-config/src/lib.rs:1201-1206). It comes back at commit 0 and high
  watermark 1, suppresses record 0, notifies record 1 and commits 2
  (`Notify.NotifyOnlyFeedLosesARecord`).
* A failed append flush has let go of its buffer, so a failed sink must be
  opened again (`BlobSinks.AFailedFlushForgetsTheBuffer`).
* The drift check finds another writer's object exactly if it sorts after the
  second-to-last object of the chain, and a lost object exactly if it is the last
  (`Outcomes.ForeignObjectIsFound`, `Outcomes.LostObjectIsFound`).
* Following in place, a hole is an error before any record of its object is
  yielded, also one before the hole (`Follow.ChainSource.Place`).
* Two destinations flushed up to offset 0 look like two that never flushed
  (`FlushCoordinators.FlushedToZeroIsSilent`).
* Names that parse, but that the mirror would not write, need not sort in the
  order of their ranges (`Naming.ParsedNamesNeedNotBeOrdered`).

Where the repository's comments and code differ the model follows the code: the
comment on `align_to_source_low_watermark` (crates/mirror-core/src/lib.rs:377-390)
also names an alignment at the first delivery inside the loop, which the loop does
not make; a hole there moves only the loop's own position. The comment in
examples/notify-only.yaml:8-10 says that a restart notifies every record again from
the low watermark on; it suppresses those below the high watermark.

## Model

| member | source | states |
|---|---|---|
| `Mirrors.EveryRunIsExactlyOnce` | crates/mirror-core/src/lib.rs:754-951 | over every run of starts, deliveries, replays, flushes, ambiguous puts and produces, failures and crashes: each append destination, listed in any order, holds exactly the source's records below the position it continues at, each once and in order; each snapshot destination's newest object is the fold of what was delivered; each Kafka partition is an identical-offset prefix |
| `Mirrors.NoFalseAlarm` | crates/mirror-core/src/lib.rs:876-948 | while nothing else writes, and no start has a floor below the low watermark or, starting below that watermark, has to align a blob destination that is past it, no run reports destination drift, a source that went back, a destination that cannot be opened, or anything a sink or the tee finds inconsistent or out of place: every sink error is of the transport or a rejected record |
| `Mirrors.NoFalseAlarmStartingPlainly` | crates/mirror-core/src/lib.rs:754-951 | so no run at all does whose starts each find a source that begins at 0, or have a single destination and no floor below the low watermark, however often it restarts with data |
| `Mirrors.StepKeeps` | crates/mirror-core/src/lib.rs:754-951 | one step keeps every destination sound, loses nothing it held, leaves the tee where the loop is, and any failure has an outside cause, or is of a start that has to align a destination past the low watermark, or is the drift of a cursor left behind |
| `Mirrors.RunKeeps` | crates/mirror-core/src/lib.rs:754-951 | the same over a whole run: sound destinations that only ever grow |
| `Mirrors.BeginKeeps` | crates/mirror-core/src/lib.rs:767-812 | a run starts at the tee's position or at the low watermark; a cursor is left behind exactly when it is below that watermark; it is inconsistent only when it is below, is not ahead of the source, may be aligned, and a blob destination is past the watermark (when it must fail is `Progress.StartComesTo`) |
| `Mirrors.IdleDriftsIff` | crates/mirror-core/src/lib.rs:937-948 | the idle check of a sound mirror fails exactly when the cursor lags the loop and every destination could be asked |
| `Holes.NothingPastTheHole` | crates/mirror-core/src/lib.rs:886-916 | over every run from fresh destinations of which one is a Kafka partition, no destination ever holds, buffers or folds a record at or past the source's first hole |
| `Alignments.AlignFailsIff` | crates/mirror-core/src/lib.rs:767-812 | a start that nothing outside disturbs fails as inconsistent if and only if its slowest destination or floor is below the low watermark, none is ahead of the source, all allow compaction, and a blob destination is past the watermark |
| `Alignments.AlignCanFail` | crates/mirror-core/src/lib.rs:767-812 | such a start: a snapshot directory with one object up to offset 8 beside an empty one, and low watermark 5 |
| `Alignments.FloorBelowLowDrifts` | crates/mirror-core/src/lib.rs:937-948 | after any start with a floor below the low watermark the first idle check of destinations that answer reports drift |
| `Alignments.TrimmedWhileStarting` | crates/mirror-core/src/lib.rs:937-948 | such a start: a fresh snapshot directory, floor 3, and a low watermark of 5 when the loop asks |
| `Mirrors.ShutdownLeavesNothingBuffered` | crates/mirror-core/src/lib.rs:839-846 | a shutdown that reports no failure leaves every destination itself at its position, at or past all that was delivered |
| `Mirrors.RunMirror` | crates/mirror-core/src/lib.rs:754-951 | the loop with its own `expected` is the turns of the state machine after its start checks |
| `Mirrors.StartMirror` | crates/mirror-bin/src/main.rs:1068-1156 | opening the destinations and the tee over them, setting its floor, and the loop are in place the start step of the state machine and its turns |
| `Progress.StartComesTo` | crates/mirror-core/src/lib.rs:767-812 | a start that nothing outside disturbs is refused as ahead of the source exactly when some destination is past the high watermark, then as below its beginning exactly when something is below the low watermark and a destination takes no compacted source, then as inconsistent; any other goes up, at the slowest destination or floor or at the low watermark |
| `Progress.UpIsInside` | crates/mirror-core/src/lib.rs:770-784 | whatever happens outside, a mirror that is up after a start has no destination past the high watermark, and none below the low one unless all take a compacted source; where it goes on |
| `Progress.TurnComesTo` | crates/mirror-core/src/lib.rs:839-948 | while every put and produce is answered, whatever timers are due, a turn fails for exactly three reasons: a hole in front of a Kafka partition, a key that a snapshot lacking the record cannot hold, a cursor left behind; else the loop moves past the record |
| `Progress.LoopTakesInOrder` | crates/mirror-core/src/lib.rs:876-916 | whatever a source delivers, a loop that is still up has taken strictly ascending offsets, and consecutive ones if a destination allows no hole |
| `Progress.IdleFindsWhatMoved` | crates/mirror-core/src/lib.rs:937-948 | an idle turn that is survived has found every destination at or past what was written there and at or past the loop, and one exactly at the loop unless a cursor is |
| `Progress.EveryPrefixIsReached` | crates/mirror-core/src/lib.rs:754-951 | from any fresh destinations there is a run without a failure after which each of them holds exactly the first n records (as they are, as an append chain, or as their fold), for every n they can take |
| `Tees.EachSinkRunsAlone` | crates/mirror-core/src/tee.rs:214-289 | for any heads, cursor and failures, each inner sink ends as if given alone, in order, exactly the records at or above its own head |
| `Tees.TeeWriteKeeps` | crates/mirror-core/src/tee.rs:214-289 | writing what the source delivers next leaves every inner sink live, at its head and not behind the loop, and the tee reporting the loop's position |
| `Tees.AskFromKeeps` | crates/mirror-core/src/tee.rs:164-196 | asking the inner sinks finds each where it was; none has gone back |
| `Progress.AskFindsEach` | crates/mirror-core/src/tee.rs:164-196 | asking succeeds exactly when every inner sink answers and none is below its head, and then believes each; else the error is of one that failed or went back |
| `Tees.FirstFailureIsReported` | crates/mirror-core/src/tee.rs:214-289 | the error of a write is that of the first inner sink that failed it, a record out of its place reported as inconsistent |
| `Tees.TeeOpenKeeps` | crates/mirror-core/src/tee.rs:89-108 | opening finds each inner sink's own position, with nothing buffered |
| `Tees.OpenTee` | crates/mirror-core/src/tee.rs:89-108 | the loop asks each inner sink for its position as its head, up to the first that fails |
| `Tees.FloorAfterOpening` | crates/mirror-core/src/tee.rs:118-120 | a floor set once the tee is open is the cursor it reports from, as if it had been opened with it |
| `Tees.TeeFlushKeeps` | crates/mirror-core/src/tee.rs:291-324 | every inner sink is flushed whatever another answers; without an error none has anything buffered |
| `Tees.AlignSucceedsIff` | crates/mirror-core/src/tee.rs:339-375 | aligning succeeds exactly when no blob inner sink is past the low watermark |
| `Tees.TeeAlignKeeps` | crates/mirror-core/src/tee.rs:339-375 | after an alignment every inner sink is at the low watermark; a refused one has moved no head |
| `Tees.IdleAfterAlignIff` | crates/mirror-core/src/tee.rs:164-196 | after an alignment the tee reports the low watermark exactly when no cursor is below it |
| `Tees.TeeSink.WriteRecord` | crates/mirror-core/src/tee.rs:214-289 | the loops over the inner sinks compute the fan-out, the heads and the cursor |
| `Tees.TeeSink.NextExpectedOffset` | crates/mirror-core/src/tee.rs:164-196 | the loop stops at the first inner sink that fails or went back, and reports the least head or a cursor below it |
| `Tees.TeeSink.AlignToSourceLowWatermark` | crates/mirror-core/src/tee.rs:339-375 | every inner sink is aligned; the heads move only if none refused |
| `Tees.TeeSink.FlushAll` | crates/mirror-core/src/tee.rs:291-324 | every inner sink is flushed; the first error is returned |
| `Sinks.WriteToKeeps` | crates/mirror-kafka/src/lib.rs:691-768 | at its own position any sink takes the source's next record and moves past it, or fails for an outside cause and leaves a sound destination |
| `Progress.NothingIsTakenAgain` | crates/mirror-bin/src/main.rs:1436-1482 | no sink of any kind takes a record below its position |
| `Sinks.ProducedKeeps` | crates/mirror-kafka/src/lib.rs:691-768 | the gate keeps the partition an identical-offset prefix of the source, whether the record landed, was lost, or landed unacknowledged |
| `Sinks.GateLetsOnlyItsOwnIn` | crates/mirror-kafka/src/lib.rs:691-768 | for every record, partition and racing writer, success means that the partition grew by exactly the record at its own offset, and nothing else is a success |
| `Sinks.AcknowledgedIsInPlace` | crates/mirror-kafka/src/lib.rs:691-768 | whatever is written, in whatever order, and whatever others write before and between: every record acknowledged is at its own offset, once |
| `Sinks.AskKeeps` | crates/mirror-core/src/lib.rs:307-313 | asking a sink where it is does not move it and finds no contradiction |
| `Sinks.FlushSinkKeeps` | crates/mirror-core/src/lib.rs:332-337 | a flush keeps the position and, without an error, leaves nothing buffered |
| `Sinks.AlignSinkKeeps` | crates/mirror-bin/src/main.rs:1436-1482 | a sink is aligned exactly when that is not back, and stands at the low watermark |
| `Sinks.AlignedIsAllowed` | crates/mirror-bin/src/main.rs:1466-1482 | the sinks that take a source trimmed above them are exactly those that aligning moves up |
| `Sinks.ReopenedIsLive` | crates/mirror-fs/src/blob.rs:405-413 | a sound destination always opens, live, with nothing buffered and nothing lost |
| `BlobSinks.AppendHoldsTheSource` | crates/mirror-fs/src/blob.rs:134-171 | the objects of an append destination, listed in any order, are accepted, and in chain order are the source's records below the position returned |
| `BlobSinks.NewestSnapshotIsTheFold` | crates/mirror-fs/src/blob.rs:172-199 | the newest snapshot, whatever the listing order, reads back as the fold of everything delivered |
| `BlobSinks.WriteKeeps` | crates/mirror-fs/src/blob.rs:654-705 | a write of the source's next record keeps buffer, view, tail and directory what was delivered, through either flush on the way |
| `BlobSinks.WriteLeavesNothingDue` | crates/mirror-fs/src/blob.rs:458-476 | after a write the buffer is below both limits and its size is counted exactly |
| `Outcomes.WriteComesTo` | crates/mirror-fs/src/blob.rs:654-705 | a write fails only for the daily put, a key a snapshot cannot hold, or the put of a flush it makes due; it makes one due exactly when it fills the buffer or the time is up, and else writes no object |
| `Outcomes.BelowIsRefused` | crates/mirror-fs/src/blob.rs:654-705 | a record below the position is refused and not taken in |
| `Outcomes.SizeIsOfPayload` | crates/mirror-fs/src/blob.rs:285-293 | the size a record counts for is the number of the bytes of its key, value and headers |
| `BlobSinks.FlushKeeps` | crates/mirror-fs/src/blob.rs:478-600 | a flush writes exactly what was delivered under a name not yet held, whether its put is stored, lost or stored and reported failed (when it must succeed is `Outcomes.FlushComesTo`) |
| `Outcomes.FlushComesTo` | crates/mirror-fs/src/blob.rs:502-545 | a flush fails exactly as its put does; an answered put empties the buffer and moves the position; the directory gains one object exactly if the put lands |
| `Outcomes.FlushReplacesNothing` | crates/mirror-fs/src/blob.rs:502-545 | on a store that can tell, a flush changes no object of any directory, and one whose name is taken fails as inconsistent |
| `BlobSinks.TickKeeps` | crates/mirror-fs/src/blob.rs:421-439 | the daily flush keeps the sink and its position |
| `BlobSinks.IdleKeeps` | crates/mirror-fs/src/blob.rs:640-652 | the idle call keeps the position and reports only outside causes |
| `Outcomes.IdleComesTo` | crates/mirror-fs/src/blob.rs:640-652 | the idle call fails only for the puts its timers make due, and flushes on time exactly what no limit has made due |
| `BlobSinks.NoDriftWhileAlone` | crates/mirror-fs/src/blob.rs:602-635 | the drift check passes on every directory only this process wrote |
| `Outcomes.ForeignObjectIsFound` | crates/mirror-fs/src/blob.rs:602-635 | another writer's object is found exactly if it sorts after the second-to-last object of the chain, or there is none |
| `Outcomes.LostObjectIsFound` | crates/mirror-fs/src/blob.rs:602-635 | a lost object is found exactly if it is the last one |
| `Outcomes.IdleReportsForeign` | crates/mirror-fs/src/blob.rs:640-652 | the idle call with its drift check due reports it there, and only there |
| `Outcomes.IdleReportsLost` | crates/mirror-fs/src/blob.rs:640-652 | and the loss of the last object, and only of that |
| `BlobSinks.FlushNowKeeps` | crates/mirror-fs/src/blob.rs:441-446 | an explicit flush keeps the position and empties the buffer |
| `Outcomes.FlushNowComesTo` | crates/mirror-fs/src/blob.rs:441-446 | the explicit flush fails exactly as its put does, and writes one object unless nothing is buffered |
| `BlobSinks.AlignKeeps` | crates/mirror-fs/src/blob.rs:719-737 | aligning succeeds exactly for a snapshot sink with an empty buffer that is not past the watermark, and moves it there |
| `BlobSinks.OpenFits` | crates/mirror-fs/src/blob.rs:405-413 | opening a sound directory never fails, whatever order it is listed in, and continues at its end with its view |
| `BlobSinks.FreshName` | crates/mirror-fs/src/naming.rs:44-50 | a range past the end of the chain has a name the directory does not hold |
| `BlobSinks.AFailedFlushForgetsTheBuffer` | crates/mirror-fs/src/blob.rs:502-545 | a failed append flush has dropped the buffer and gone back; a failed snapshot flush has kept it |
| `BlobSinks.Store.PutNew` | crates/mirror-fs/src/blob.rs:93-95 | a put replaces no object where the store can tell, and stores or not as its outcome says |
| `BlobSinks.BlobSink.FlushLocked` | crates/mirror-fs/src/blob.rs:478-600 | the steps in place are the flush of the model |
| `BlobSinks.BlobSink.Tick` | crates/mirror-fs/src/blob.rs:421-439 | the daily flush in place |
| `BlobSinks.BlobSink.WriteRecord` | crates/mirror-fs/src/blob.rs:654-705 | the write in place, in the order tick, gate, key check, view, buffer, trigger |
| `BlobSinks.BlobSink.CheckDrift` | crates/mirror-fs/src/blob.rs:602-635 | fails exactly when what sorts after the second-to-last object is not the last object alone |
| `BlobSinks.BlobSink.NextExpectedOffset` | crates/mirror-fs/src/blob.rs:640-652 | timers, then the drift check, then the position |
| `BlobSinks.BlobSink.FlushBuffered` | crates/mirror-fs/src/blob.rs:441-446 | the explicit flush in place |
| `BlobSinks.BlobSink.AlignToSourceLowWatermark` | crates/mirror-fs/src/blob.rs:719-737 | the alignment in place, with its refusals |
| `Views.FoldIsLastWrite` | crates/mirror-fs/src/blob.rs:684-695 | a fold holds for a key exactly its last record, unless that is a tombstone |
| `Views.SnapshotRoundTrip` | crates/mirror-fs/src/blob.rs:245-272 | a snapshot in key order reads back as the view it was written from |
| `Views.SnapshotAscends` | crates/mirror-fs/src/blob.rs:245-272 | the records of a snapshot are in the order of their keys, each key once |
| `Texts.TextIsEncoded` | crates/mirror-notify-kkv/src/lib.rs:843-850 | a key is text exactly if its bytes are the UTF-8 encoding (RFC 3629, section 3) of Unicode scalar values |
| `Texts.KeyIsText` | crates/mirror-notify-kkv/src/lib.rs:838-850 | a record has a text key exactly if it has a key and that is such an encoding |
| `Naming.NameRoundTrip` | crates/mirror-fs/src/naming.rs:44-68 | a name written for a range and a key id parses back to them |
| `Naming.ParsesExactly` | crates/mirror-fs/src/naming.rs:55-68 | what parses is exactly two 64-bit numerals with a dash between, a key id if there is one, and the extension |
| `Naming.NameOrderIsRangeOrder` | crates/mirror-fs/src/naming.rs:44-50 | the string order of written names is the numeric order of their ranges, for all 64-bit offsets |
| `Naming.ParsedNamesNeedNotBeOrdered` | crates/mirror-fs/src/naming.rs:55-68 | names that parse but are not written this way can sort against their ranges |
| `Naming.ExtensionOfWritten` | crates/mirror-fs/src/blob.rs:210-213 | the extension of a written name is the format's |
| `Chain.OwnChangesOnlyTheError` | crates/mirror-fs/src/blob.rs:139-157 | a sink that reopens accepts the same object names as a restore does |
| `Chain.OtherFormatIsNamed` | crates/mirror-fs/src/blob.rs:139-147 | and calls an object written in another format by that |
| `Chain.PlansExactlyTilings` | crates/mirror-restore/src/chain.rs:32-117 | a plan is made exactly of listings whose ranges tile one interval from the start with every named key held, in any order |
| `Chain.RefusalsAreTrue` | crates/mirror-restore/src/chain.rs:32-117 | each refusal is true of the listing: the first name that is no object, or whose range is reversed; no names at all; the least start, if not the declared one; positions in no object just before one; an object that starts inside another; exactly the keys named and not held |
| `Chain.IncrementalPlanIsWholePlan` | crates/mirror-restore/src/follow.rs:182-216 | planning what a grown directory lists after the last object gives the plan of the whole listing, and refuses exactly when that does unless an object was added before the end |
| `Chain.PlanChain` | crates/mirror-restore/src/chain.rs:32-117 | the loops and the sort in place compute the plan |
| `Chain.AppendOpensExactlyTilings` | crates/mirror-fs/src/blob.rs:154-171 | an append listing is accepted exactly when its ranges tile the positions from 0 |
| `Chain.SnapshotsOpenExactlyApart` | crates/mirror-fs/src/blob.rs:172-199 | a snapshot listing is accepted exactly when no position is in two ranges |
| `Chain.ValidateChain` | crates/mirror-fs/src/blob.rs:134-208 | the loops and the sort in place compute the validation, with position, newest object and tail |
| `Chain.ListingSorts` | crates/mirror-fs/src/blob.rs:154-176 | whatever order a store lists a chain in, it is put back in chain order |
| `Readers.ReadObject` | crates/mirror-restore/src/read.rs:71-116 | accepts exactly the objects whose records are of the source, increase inside the range, and end at its end |
| `Readers.Summarize` | crates/mirror-restore/src/read.rs:157-174 | the count is the number of positions without a record and the first hole the least of them |
| `Readers.Verify` | crates/mirror-restore/src/read.rs:120-144 | accepts exactly the chains whose every object is what its name says, and sums them up; a refusal names what is wrong with one |
| `Readers.SumCountsHoles` | crates/mirror-restore/src/read.rs:133-142 | the sum counts the chain's positions without a record, and its first hole is the least of them all |
| `Readers.MissingSize` | crates/mirror-restore/src/read.rs:158-171 | the holes of an object are its positions less its records |
| `Readers.PreserveAcceptsExactlyDense` | crates/mirror-restore/src/produce.rs:31-53 | preserve accepts a verified chain exactly when its records are at 0, 1, 2, … already |
| `Readers.FlatOffsets` | crates/mirror-restore/src/read.rs:59-63 | the records of a read chain increase across objects, stay in its range, and are without a hole exactly when no object has one |
| `Producing.Produce` | crates/mirror-restore/src/produce.rs:65-122 | whatever else writes to the partition, success means the log is exactly the backup, record k at offset k; to a partition that is not empty nothing is sent, and on a quiet broker it is left as it is and its length reported; an error that is not of the produce pass means nothing was sent; on a quiet empty partition and unchanged objects it succeeds exactly if the mode can, else a missing offset is reported |
| `Producing.SendAll` | crates/mirror-restore/src/produce.rs:125-169 | every object read again and unchanged, every record sent in order at the next offset; a missing offset is reported only for a backup that is not dense |
| `Producing.SendObject` | crates/mirror-restore/src/produce.rs:138-161 | each record of one object at the next offset, or the offset that is missing |
| `Producing.RestoreProducer.AckOldest` | crates/mirror-kafka/src/restore_producer.rs:311-327 | the oldest record is acknowledged only at the offset it was sent for; what is acknowledged is a prefix of what was sent |
| `Producing.RestoreProducer.Send` | crates/mirror-kafka/src/restore_producer.rs:373-421 | a record queued joins the end of the window, waiting for the oldest while it is full: never more than the window is in flight |
| `Producing.RestoreProducer.TryEnqueue` | crates/mirror-kafka/src/restore_producer.rs:393-419 | a full queue is waited for only while a record is in flight |
| `Producing.RestoreProducer.Finish` | crates/mirror-kafka/src/restore_producer.rs:424-433 | without an error everything sent is where it was sent for |
| `Producing.Restore` | crates/mirror-restore/src/produce.rs:65-122 | plan, verify and produce: on a quiet empty partition success exactly when every object reads and, to preserve, the records are dense; a partition that is not empty is refused with nothing sent; a missing offset is unreachable for unchanged objects |
| `Producing.MirroredIsRestorable` | crates/mirror-fs/src/blob.rs:478-545 | what a sound append destination holds is planned, verified, and is the source's records |
| `Producing.RestoreMirrored` | crates/mirror-restore/src/produce.rs:65-169 | restore of what a sound append destination holds: renumbered it always succeeds; at its own offsets exactly when what was backed up has no hole; the target is the mirrored records |
| `RoundTrips.AnyRunIsRestorable` | crates/mirror-fs/src/blob.rs:478-545 | after any run of the mirror from fresh destinations, with its flushes, failures, crashes and starts, an append destination is planned, verified, and is the source's records below the position it continues at |
| `RoundTrips.RestoreAfterRun` | crates/mirror-restore/src/produce.rs:65-169 | mirror by any such run, then restore: renumbered it always succeeds; at its own offsets exactly when what was backed up has no hole; the target is the mirrored records |
| `Follow.Drain` | crates/mirror-restore/src/follow.rs:391-419 | after a seek to p the records yielded are the backup's from position p on, none left out, repeated or misnumbered, and a slice of the concatenated objects, whatever is cancelled, idle, failing or added meanwhile; of a whole backup in a quiet store each poll yields the next record up to the last, whatever part was listed before |
| `Follow.LookUpThenPoll` | crates/mirror-restore/src/follow.rs:146-178 | the record looked up at a position is the record a seek there yields first, whatever is added between |
| `Follow.YieldedInPlace` | crates/mirror-restore/src/follow.rs:285-316 | in place, records yielded from consecutive positions are a slice of the concatenated objects, though objects elsewhere may be unread or malformed |
| `Follow.NothingPastAHole` | crates/mirror-restore/src/follow.rs:285-305 | in place, no record at or past a hole is ever yielded |
| `Follow.ChainSource.PollOne` | crates/mirror-restore/src/follow.rs:391-419 | a record yielded is the backup's at the position, from the object whose range has it, and the position moves only with it; cancelled, idle and failed polls leave it; idle means that all listed is yielded, that there is no record at the position, and that nothing held was left unlisted; a whole backup in a quiet store only yields, or idles at its end |
| `Follow.ChainSource.Fill` | crates/mirror-restore/src/follow.rs:269-317 | the next object fills the buffer; in place, exactly when it has no hole at or after the position |
| `Follow.ChainSource.Place` | crates/mirror-restore/src/follow.rs:285-316 | a hole is an error before any record of the object is yielded, and the buffer holds the records before it |
| `Follow.TakeInPlace` | crates/mirror-restore/src/follow.rs:286-305 | the records from a position on up to the first hole, and whether there is one |
| `Follow.ChainSource.NextRecords` | crates/mirror-restore/src/follow.rs:269-281 | the records of the next object, from the read kept, the read begun by a dropped call, or a new one |
| `Follow.ChainSource.Seek` | crates/mirror-restore/src/follow.rs:348-389 | ends at the position asked for, or says it is past the end: with renumber exactly, counting records; a whole backup in a quiet store is fully listed by it and nothing else fails |
| `Follow.ChainSource.SeekCounting` | crates/mirror-restore/src/follow.rs:371-387 | finds the object and the records in it to leave out by counting |
| `Follow.ChainSource.ListNew` | crates/mirror-restore/src/follow.rs:182-216 | nothing new is answered exactly if nothing held sorts after the last object; else exactly those names are appended, or a listing of them does not plan; of a backup as a mirror writes it exactly the rest is appended |
| `Follow.RestPlans` | crates/mirror-restore/src/follow.rs:182-216 | a listing of what is new to a part of a whole backup is planned as the rest of it |
| `Follow.OneWhole` | crates/mirror-restore/src/follow.rs:182-216 | what is held determines the chain |
| `Follow.ChainSource.Count` | crates/mirror-restore/src/follow.rs:250-257 | a count kept is the number of records of its object |
| `Follow.ChainSource.RecordAt` | crates/mirror-restore/src/follow.rs:146-178 | the record of the object that has the position; none exactly when no object that reads gives one there; else the read failed |
| `Follow.ChainSource.CheckResume` | crates/mirror-restore/src/follow.rs:118-141 | a target is accepted only if its last record is the backup's record at that position; it is refused as another only if the backup has no record there or a different one; any other error is a failed read |
| `Follow.SameIsKept` | crates/mirror-restore/src/follow.rs:320-332 | two records are the same exactly if the one is what some target makes of the other: another place, and a timestamp of its own clock where it stamps records itself or none was produced |
| `Follow.IsAtIsUnique` | crates/mirror-restore/src/follow.rs:146-178 | a position has one record as soon as the names make a chain, whether or not its other objects read |
| `Follow.ChainsAgree` | crates/mirror-restore/src/follow.rs:182-216 | a chain listed earlier is the start of every later one |
| `Standbys.Standby` | crates/mirror-restore/src/follow.rs:1-20 | over any number of starts, with the backup growing, lost acknowledgements and failures, the target only gains the backup's next records, and is a prefix of its concatenated objects, each of those reached being what its name says |
| `Standbys.ReplicaIsFirst` | crates/mirror-restore/src/follow.rs:285-316 | a target with the backup's record at each position is a prefix of its concatenated objects, renumbered or in place |
| `Standbys.Run` | crates/mirror-core/src/lib.rs:754-951 | one run of the loop from the growing backup into the Kafka gate, starting at the target's high watermark, keeps the target's record at each position the one of the object that has the position; over a whole backup and a calm target each poll adds one record, up to the last |
| `Standbys.FollowOne` | crates/mirror-restore/src/follow.rs:391-419 | the same for one poll and the turn of the loop it feeds |
| `Standbys.ReplicaIsInside` | crates/mirror-restore/src/follow.rs:259-266 | a target that holds the backup's first records is not past the positions the source reports, with holes too |
| `Notify.EveryRecordIsNotified` | crates/mirror-bin/src/main.rs:1099-1159 | from the first commit on, over every history of runs whose starts each serve a cache or have a high watermark not above the commit: a record with a text key the committed offset has passed, and the source has kept, was in a batch whose dispatch returned Ok |
| `Notify.PromiseKeptIff` | crates/mirror-bin/src/main.rs:600-634 | for a mirror back at a commit, with a record to notify left on each side of the high watermark: everything that can follow the start keeps that promise if and only if it serves a cache or its high watermark is not above the commit |
| `Notify.SuppressedIsLost` | crates/mirror-core/src/cache.rs:306-328 | the losing history of any other start: a record at or above the commit and below the high watermark is passed by a later commit and never delivered |
| `Notify.NotifyOnlyFeedLosesARecord` | crates/mirror-config/src/lib.rs:1201-1206 | such a start of a mirror without destinations: commit 0, high watermark 1, records 0 and 1; the commit becomes 2 and record 0 was never delivered |
| `Notify.AckPassesOnlyDelivered` | crates/mirror-notify-kkv/src/lib.rs:304-332 | the acknowledged offset never passes an unsuppressed record with a text key whose batch was not delivered |
| `Notify.GoKeeps` | crates/mirror-notify-kkv/src/lib.rs:802-980 | every step of consumer, timer, shutdown and watch, at every interleaving of their locks, keeps that promise, also the step that ends the run |
| `Dispatches.GoCatchesUp` | crates/mirror-notify-kkv/src/lib.rs:304-332 | every step keeps the acknowledged offset one past the last record delivered, except between a dispatch and its acknowledgement, when it is not beyond |
| `Dispatches.CommitIsCaughtUp` | crates/mirror-bin/src/ack_tracker.rs:171-247 | over every history a commit made while no dispatch waits for its acknowledgement is one past the last record its run delivered |
| `Dispatches.GoDebounces` | crates/mirror-notify-kkv/src/lib.rs:864-896 | the buffer stays within the record limit, and what the consumer dispatches while not stopping is a full batch |
| `Dispatches.NothingAfterALostBatch` | crates/mirror-notify-kkv/src/lib.rs:304-322 | once a batch is lost nothing more is delivered, acknowledged or taken in, save one record already let in, however the tasks go on |
| `Dispatches.EveryRunSettles` | crates/mirror-notify-kkv/src/lib.rs:802-980 | no interleaving is stuck: while no batch is lost there are steps, taking in nothing new, after which all taken in is delivered and acknowledged |
| `Notify.BatchesInOrder` | crates/mirror-notify-kkv/src/lib.rs:966-973 | what was delivered comes before what is in flight or lost, and both before what is still buffered |
| `Notify.NextKeeps` | crates/mirror-bin/src/main.rs:1099-1159 | starts that keep the promise, steps, commits and exits keep it across runs |
| `Notify.CommitKeeps` | crates/mirror-bin/src/ack_tracker.rs:171-247 | a commit of the acknowledged offset passes only delivered records |
| `Dispatches.CommitNeverGoesBack` | crates/mirror-bin/src/ack_tracker.rs:110-132 | over every history of runs the committed offset never goes back, also while a run has nothing to acknowledge, where no start without a cache has a high watermark below its commit |
| `Notify.StartReachesTheGap` | crates/mirror-bin/src/main.rs:1120-1158 | a start reads at or below the commit, or from the low watermark: everything not committed that the source still has is read again |
| `Notify.StartIs` | crates/mirror-bin/src/main.rs:1120-1158 | where a start reads from, exactly: the low watermark for a mirror that serves a cache beside its destinations, else the lower of its slowest destination and its commit, as far as the source still has it |
| `Batches.Buffer.Append` | crates/mirror-notify-kkv/src/buffer.rs:44-58 | the buffer stands for one more record |
| `Batches.Buffer.TakeBatch` | crates/mirror-notify-kkv/src/buffer.rs:75-95 | a batch has each key once and the highest offset, and leaves the buffer empty |
| `Batches.FirstSightingsAre` | crates/mirror-notify-kkv/src/buffer.rs:44-49 | the keys kept are exactly those appended, each once |
| `Batches.SightingsKeepTheirOrder` | crates/mirror-notify-kkv/src/buffer.rs:44-49 | keys stay in the order they were first sighted in |
| `Batches.HighIsLast` | crates/mirror-notify-kkv/src/buffer.rs:105-111 | a batch in offset order carries the offset of its last record |
| `Batches.AckTracker.NoteThrough` | crates/mirror-bin/src/ack_tracker.rs:123-132 | an acknowledgement only raises the notifier's slot |
| `Batches.AckTracker.NoteDestination` | crates/mirror-bin/src/ack_tracker.rs:73-75 | a flush or write only raises its destination's slot |
| `Batches.AckTracker.CommitOffset` | crates/mirror-bin/src/ack_tracker.rs:110-121 | with a notifier its acknowledgement alone may be committed, else the furthest destination |
| `Caches.CacheSlot.ApplyRecord` | crates/mirror-core/src/cache.rs:379-409 | after any applies the index shows the fold of the records that strictly advanced; one that does not advance changes nothing |
| `Caches.CacheSlot.ReadValue` | crates/mirror-core/src/cache.rs:685-694 | a value is the fold's, carries the offset of the record that wrote it, and is not newer than the offsets read with it |
| `Caches.ReplayChangesNothing` | crates/mirror-core/src/cache.rs:390-394 | replaying records already applied, in any order, changes nothing |
| `Caches.CountsIff` | crates/mirror-core/src/cache.rs:379-409 | a record counts exactly if it is further than every record of its partition before it |
| `Caches.NotedIs` | crates/mirror-core/src/cache.rs:395-409 | what is taken in is exactly the records with a text key |
| `Caches.InsertShows` | crates/mirror-core/src/cache.rs:441-455 | setting a key keeps its place, or adds it at the end: the order stays that of birth |
| `Caches.RemoveShows` | crates/mirror-core/src/cache.rs:456-461 | removing a key keeps the order of the others |
| `Caches.BornIs` | crates/mirror-core/src/cache.rs:440-462 | a key's place is that of its first sighting since it was last absent |
| `FlushCoordinators.FiresTheMinimum` | crates/mirror-core/src/tee.rs:456-500 | under every interleaving at the two locks the fires chain strictly upwards and never pass the furthest note of any destination; with nothing between the locks the last is the least of those exactly when that is above 0 |
| `FlushCoordinators.FlushedIsFurthestNoted` | crates/mirror-core/src/tee.rs:471-480 | what is kept of a destination is the furthest offset it was noted at, in whatever order notes come |
| `FlushCoordinators.GoKeeps` | crates/mirror-core/src/tee.rs:471-500 | each lock step keeps that |
| `FlushCoordinators.FlushedToZeroIsSilent` | crates/mirror-core/src/tee.rs:481-495 | destinations flushed to offset 0 fire nothing |
| `FlushCoordinators.MinFlushCoordinator.NoteFlush` | crates/mirror-core/src/tee.rs:471-500 | one undisturbed notification is the two steps in turn |
| `BatchSizes.SingleRecordBatchBytes` | crates/mirror-kafka/src/restore_producer.rs:190-202 | the size is the length of the record encoded as a batch of its own, whatever its batch header holds |
| `BatchSizes.VarintLen` | crates/mirror-kafka/src/restore_producer.rs:167-175 | the loop counts the bytes of the zigzag varint |
| `BatchSizes.ZigZagBits` | crates/mirror-kafka/src/restore_producer.rs:168-168 | the shifts and the exclusive or on 64 bits are the zigzag of every 64-bit value |
| `BatchSizes.FieldLen` | crates/mirror-kafka/src/restore_producer.rs:178-183 | the length of a length-prefixed field, null included |
| `BatchSizes.RecordRoundTrip` | crates/mirror-kafka/src/restore_producer.rs:185-202 | what the encoder writes, a reader of the record format reads back |
| `BatchSizes.VarintRoundTrip` | crates/mirror-kafka/src/restore_producer.rs:165-175 | a varint reads back as its value |
| `BatchSizes.LongVarintsFit` | crates/mirror-kafka/src/restore_producer.rs:165-175 | a 64-bit value takes between 1 and 10 bytes |

## Left out

- Widths: offsets, counts and sizes are unbounded; the source log is assumed to end below the largest 64-bit offset, and overflow past it is not modelled.
- BatchSizes.SingleRecordBatchBytes: the lengths of a record's parts fit a signed 64-bit integer, as lengths in memory do.
- Mirrors.EveryRunIsExactlyOnce: the source log is one fixed sequence; compaction that removes records between two reads of the same offsets, and a put or produce that lands after a later start has read the destination, are not modelled.
- Progress.TurnComesTo: every call answers in the end; a store that never does is a run that never goes on.
- Producing.Produce: a digest collision counts as an unchanged object, and that the broker's reports are true is assumed.
- Producing.RestoreProducer.Send: column types and the batch limit are one predicate of the record; the size itself is in `BatchSize.dfy`.
- Follow.ChainSource.ListNew: the message that names a gap before the plan is made is not modelled; the plan refuses the same listings.
- Notify.EveryRecordIsNotified: retries, backoff, targets and DNS are one dispatch that returns Ok or not; the low watermark only rises.
- FlushCoordinators.FiresTheMinimum: what is recorded under the second lock; the outer observer is called after it is released, so two calls can arrive out of order.
- Encoding, compression and encryption: an object's bytes are the records they decode to, a keyring a set of key ids.
- Wall-clock time: timers are choices of the environment; when the next daily boundary is, is not modelled.
- The flush-triggered notification queue, its synthetic event at a start and its drainer.
- Retrying in process and its backoff: any start may follow any end.
- Readiness, status tables, metrics, logs, configuration, the command line and the HTTP routes.
- The Kafka source and the ordering of concurrent offset stores: the source delivers its records in turn.
- JSON column types of the Kafka destination: a record it refuses is one that is not sent.
- Directories shared by several mirrors, and file systems that lose what was synced.
