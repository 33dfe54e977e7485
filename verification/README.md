# Verified model of the ECS upload, pool, lock and buffer core

This project models the concurrent core of the ECS client library and proves what its
callers rely on. Verify it with `dafny verify dfyconfig.toml`.

Five layers, from the bottom up:

- **Buffers** (`BufferBlocks`, `Buffers`, `BufferRuns`, `BufferCompare`, `BlockRelease`): the reference-counted,
  copy-on-write byte buffer. `BufferHeap` holds the allocated blocks and any number of buffer
  objects and changes both in place; the main result is that any sequence of operations behaves
  as if every object owned an independent byte string, and that no block leaks or dangles.
  `BlockRelease` takes the release of one block apart into the steps that threads can interleave.
- **Locks** (`RwLock`, `RwLockObject`, `LockOrder`): the re-entrant reader/writer lock built on a
  non-re-entrant system lock. Exclusion holds over every run of any number of threads, provided
  unlocks are careful; stack order is enough, and care is exactly what is needed. `LockOrder`
  shows that the pool's operations, whatever way threads take through them, cannot deadlock on their two locks.
- **Queues** (`SharedQueue`, `SharedQueueObject`, `MessageQueue`, `QueueScans`): the bounded queue
  shared by threads and the priority queue of the pool.
- **Pool** (`PoolMachine`, `PoolConservation`, `PoolTiming`, `PoolParallel`, `ThreadPool`, `ThreadLimits`, `ThreadRuns`,
  `OverLimitExit`): workers, groups, delayed messages, kills and thread limits. `PoolMachine` is a step machine whose actions are the regions the source runs
  under its locks; `ThreadPool.CThreadPool` is the object with its loops, each method proved to be
  a step of that machine.
- **Transfers** (`PartPlan`, `MultipartUpload`, `UploadFaults`, `MultipartObject`, `WaitHandles`, `S3Read`, `StreamData`): the
  multipart upload and the download to a stream (`Bytes` and `Basics` hold what all modules share).
  `MultipartUpload` is the machine of one coordinator and its workers; `MultipartObject.Uploader` has
  the coordinator's loops, updating parts and messages in place while workers have their turns in
  between, and records its steps so that the machine's theorems hold of what it returns. All answers
  from outside come from an `Environment` (`UploadFaults`), so that what is returned can be said of them.

Beside these stand the XML path scanner (`XmlScan`) and the percent-encoder (`UriEncode`).

Concurrency is modelled by interleaving: an action is a region that other threads cannot see half
done, and a theorem about runs holds for every order of actions. Times, read lengths, server
answers and aborts are parameters or arbitrary choices.

## What the code does not do

Each of these comes with the exact condition under which the code does what is expected of it, and
the less obvious ones with a concrete input that fails:

- A plan can have 1001 parts although the comment at `ECSUtil/FileSupport.cpp:674` says the limit
  of 1000 is kept (`PartPlan.PlanCanReach1001`). It is kept exactly when the part length was
  recomputed or the file is at most 1000 times the part size asked for (`PartPlan.LimitIsKeptIff`).
- `S3Read` can report success with data missing (`S3Read.SuccessWithMissingData`). A success is
  complete exactly when the loop ended on the last chunk, or the worker pushed no data between the
  last test for an empty queue and the look at its flag (`S3Read.SuccessIsCompleteIff`).
- Two overlapping transfers of delayed messages can deliver one message twice
  (`PoolMachine.OverlappingTransfersDuplicate`). Every message is in one place exactly when no
  transfer sent a record that another one sent (`PoolConservation.ConservedIffSentOnce`); none is
  ever lost (`PoolConservation.NothingIsLost`).
- A delayed message can start before its time (`PoolTiming.ReuseStartsEarly`): a pool that stops moves
  every delayed message to the queue without its time, and `SetPerfCounter` enables the pool again.
  It happens exactly to messages so moved whose time has not come (`PoolTiming.StartsEarlyIff`), and never in a pool that is not
  used again after it was stopped (`PoolTiming.AlwaysOnTimeIff`).
- Workers that find the pool over its limit count and leave in two steps, and can together take the pool
  below its minimum. It is kept exactly under the condition of `OverLimitExit.LeastIsKeptIff`; even a
  single such worker breaks it when an idle one retires at the same time.
- The wait of the upload has handles for 31 messages, and the branch for more, marked as one that should never
  happen (`ECSUtil/FileSupport.cpp:817`), is reached from 28 threads on with files of 32 parts
  (`WaitHandles.OverflowIff`, `WaitHandles.OverflowThreads`).
- Unlocking the only writing instance of a thread before its reading ones releases the system lock
  in the wrong mode (`RwLock.CarelessUnlockCorrupts`); any other unlock is right
  (`RwLock.UnlockKeepsIffCareful`), and once nothing is locked the run shows no such release exactly
  when every unlock was careful (`RwLock.NeverCorruptIffCareful`).
- Without a queue range the maximum number of threads holds over every run exactly when the minimum
  is not above it or it is zero (`ThreadRuns.FixedMaximumHoldsIff`; `ThreadRuns.BoundHoldsIff` for all settings), and a
  minimum above it is even exceeded by one (`ThreadRuns.MinimumIsOvershot`). The ceiling meets the
  range maximum exactly when a product fits in 32 bits (`ThreadLimits.CeilingMeetsRangeIff`).
- The queue bound is limit plus producers, not the limit, and there is a bound exactly when there is
  a limit and no waiting producer gives up (`SharedQueue.BoundedIff`).
- Buffer comparison has the right sign exactly when the difference of the lengths fits a signed
  32-bit integer (`BufferCompare.SignIsOrderIff`). `FreeExtra` leaves 100 spare bytes although the
  comment at `ECSUtil/cbuffer.cpp:60` says the amount is exact; it is, exactly for a shared or an
  empty buffer (`Buffers.BufferHeap.FreeExtra`).
- The XML scan returns success for a document that is cut short or malformed after a valid
  beginning (`XmlScan.CutDocumentLosesCallbacks`). The callbacks are complete exactly when only
  nodes that cause none were lost (`XmlScan.CutDocumentIsCompleteIff`). A failing move to the next
  attribute is not noticed either; `XmlScan.AttributesCompleteIff` says when the list is complete all the same.

## Model

| member | source | states |
|---|---|---|
| MultipartObject.DoS3MultiPartUpload | ECSUtil/FileSupport.cpp:655-952 | For every file, part size, limits, environment (what the user, the stream, the server and the workers answer, in order) and interleaving with the workers: a finished call returns true exactly when the file is not declined, there are threads, the server accepts start and end, no abort was seen, no seek or read asked for failed and no part is out of retries, which takes more failed attempts than it is allowed retries; true means the bytes the server keeps are the file; the calls made tell which of the refusals or faults it was; it is unfinished only after all the waits it was allowed |
| UploadFaults.ReturnsTrueIff | ECSUtil/FileSupport.cpp:706-952 | In every run that answers to an environment: true is returned exactly when start and end were accepted, none of the answers given was a fault and no part ran out of retries; a refused start or end shows in the calls made |
| UploadFaults.OutOfRetriesIff | ECSUtil/FileSupport.cpp:851-872 | Retries run out exactly when the workers have failed at some part more often than it may be retried |
| UploadFaults.AttemptsAreCounted | ECSUtil/FileSupport.cpp:851-872 | In every state of every run the retries of a part, and its failed message if it has one, are its failed attempts |
| MultipartUpload.UploadIsFaithful | ECSUtil/FileSupport.cpp:724-952 | In every state of every run: returned true means the stored parts, in list order, concatenate to the file; returned false means never started or aborted; before that, at most the initiate call was made |
| MultipartUpload.OneMessagePerPart | ECSUtil/FileSupport.cpp:727-801 | A part has a pending message exactly while it is in process and not complete, never two; it is attempted at most retries + 1 times; its queue never exceeds the limit |
| MultipartUpload.StreamIsInOrder | ECSUtil/FileSupport.cpp:753-795 | Within an attempt, consumed bytes followed by queued bytes are the part from its base to its cursor; exactly the chunk that ends the part is marked last and nothing follows it; with checksums on, the hashed bytes are the streamed bytes |
| MultipartUpload.ReapUsesAttempt | ECSUtil/FileSupport.cpp:851-882 | Taking a finished message off the list uses up one of the remaining attempts of the incomplete parts, or ends the upload |
| MultipartUpload.OthersKeepAttempts | ECSUtil/FileSupport.cpp:727-920 | No other step of the caller or a worker changes the number of remaining attempts |
| MultipartUpload.ReapsAreBounded | ECSUtil/FileSupport.cpp:845-916 | In every run the messages reaped plus the attempts left are at most parts times (retries + 1), plus one that ends the upload |
| MultipartUpload.NextKeeps | ECSUtil/FileSupport.cpp:724-982 | Every step of the caller and of a worker (pop, success, failure) keeps the whole upload invariant |
| MultipartUpload.PlannedUploadIsValid | ECSUtil/FileSupport.cpp:659-695 | Whatever the planner accepts, with any limits, meets the conditions under which the upload theorems hold |
| MultipartUpload.QueueLimit | ECSUtil/FileSupport.cpp:659-660 | A limit other than zero is kept as passed, zero becomes ten |
| MultipartUpload.PushKeepsAttempt | ECSUtil/FileSupport.cpp:902-908 | Queueing the next bytes of the part, marked last exactly at its end, keeps the attempt in step with the file |
| MultipartUpload.LocalUpdateKeeps | ECSUtil/FileSupport.cpp:846-916 | A step on one attempt leaves every other part and message right |
| MultipartObject.Uploader.constructor | ECSUtil/FileSupport.cpp:711-723 | The reset part list is the initial state of a run |
| MultipartObject.Uploader.WorkerPops | ECSUtil/FileSupport.cpp:963-967 | A worker taking a chunk is that step of the run |
| MultipartObject.Uploader.WorkerEnds | ECSUtil/FileSupport.cpp:968-980 | A worker reports success only after the last chunk; its report is that step of the run |
| MultipartObject.Uploader.WorkerActs | ECSUtil/FileSupport.cpp:954-982 | A worker does what the environment says if it can, and changes nothing the caller relies on |
| MultipartObject.Uploader.WorkersRun | ECSUtil/FileSupport.cpp:954-982 | The workers' next turn does exactly what the environment has for it, and leaves the progress of all parts, the list of messages and the read position alone |
| MultipartObject.Uploader.InitiateUpload | ECSUtil/FileSupport.cpp:706-710 | The upload goes on exactly when the server accepted it |
| MultipartObject.Uploader.BeginPart | ECSUtil/FileSupport.cpp:738-764 | A part not in process gets one new message, an empty queue and the read position of its base, unless the seek fails |
| MultipartObject.Uploader.ReadForPart | ECSUtil/FileSupport.cpp:767-789 | One read is hashed, and queued while there is room, as a step of the run |
| MultipartObject.Uploader.FeedOnce | ECSUtil/FileSupport.cpp:764-789 | One round of the feed loop asks for one read, and goes on exactly when that did not fail |
| MultipartObject.Uploader.FeedLoop | ECSUtil/FileSupport.cpp:764-793 | The feed loop ends with the part read or its queue full, or with a read that failed; without a checksum it reads no more often than the queue takes |
| MultipartObject.Uploader.FeedPart | ECSUtil/FileSupport.cpp:751-801 | The part is handed to the pool, read to its end or as far as its queue takes, exactly when neither the seek nor a read asked for failed; otherwise the upload is abandoned |
| MultipartObject.Uploader.SendToPool | ECSUtil/FileSupport.cpp:796-800 | The message is sent only when the feed loop is over: the part is read to its end or its queue is full |
| MultipartObject.Uploader.StartFresh | ECSUtil/FileSupport.cpp:733-801 | A part is put off exactly when the pool's queue holds the thread limit plus four; an abort asked for stops the upload |
| MultipartObject.Uploader.VisitPart | ECSUtil/FileSupport.cpp:727-801 | A complete or started part is skipped, another one is started |
| MultipartObject.Uploader.ScanParts | ECSUtil/FileSupport.cpp:726-804 | The walk of the part list ends with all parts complete, with work to wait for, or with the upload abandoned |
| MultipartObject.Uploader.SeekTo | ECSUtil/FileSupport.cpp:885-890 | The read position is set to where the part was left, unless the seek fails |
| MultipartObject.Uploader.TopUpOnce | ECSUtil/FileSupport.cpp:891-910 | One round asks for one read and adds its bytes to the part while workers go on, or abandons the upload exactly when the read failed |
| MultipartObject.Uploader.ReadMore | ECSUtil/FileSupport.cpp:895-908 | One more chunk is queued and the cursor moves by its length |
| MultipartObject.Uploader.TopUpLoop | ECSUtil/FileSupport.cpp:892-909 | The loop ends, though workers pop while it runs, with the queue full or the part read, or with a read that failed |
| MultipartObject.Uploader.TopUpPart | ECSUtil/FileSupport.cpp:883-911 | A queue is topped up until it is full or its part is read, exactly when neither the seek nor a read asked for failed |
| MultipartObject.Uploader.ReapMessage | ECSUtil/FileSupport.cpp:850-882 | A failed part is reset to be tried again exactly while retries are left, and aborts the upload when none are; a good one is complete; the message leaves the list and no other part changes |
| MultipartObject.Uploader.VisitMessage | ECSUtil/FileSupport.cpp:846-916 | A pending message that is done leaves the list, another one is topped up |
| MultipartObject.Uploader.ReapPending | ECSUtil/FileSupport.cpp:842-919 | One walk of the pending list ends back at the part list, waiting, or abandoned |
| MultipartObject.Uploader.WakeUp | ECSUtil/FileSupport.cpp:834-841 | After a wait the upload goes on exactly when no abort was asked for |
| MultipartObject.Uploader.WaitOnce | ECSUtil/FileSupport.cpp:834-919 | One wait and one walk of the pending list; an abort asked for ends it |
| MultipartObject.Uploader.WaitForParts | ECSUtil/FileSupport.cpp:834-920 | Waiting ends when a message left the list, on a fault, or when the allowed waits are used up; the workers have a turn in every wait |
| MultipartObject.Uploader.CompleteUpload | ECSUtil/FileSupport.cpp:922-928 | True is returned exactly when the server completed the upload; otherwise it is aborted |
| MultipartObject.Uploader.Stop | ECSUtil/FileSupport.cpp:929-950 | An abort asked for or a failed read makes exactly one abort call and returns false |
| MultipartObject.Uploader.Upload | ECSUtil/FileSupport.cpp:706-952 | The loops as a whole are a run of the upload machine, conforming to the environment, that has returned when finished |
| WaitHandles.CollectHandles | ECSUtil/FileSupport.cpp:806-832 | The loop lists two events for each message that is not done and stops short exactly when it meets a message with 62 events listed |
| WaitHandles.OverflowIff | ECSUtil/FileSupport.cpp:733-734 | That branch, said never to happen, is taken in some run exactly when the pool has room for 32 messages or more and the file has 32 parts or more |
| WaitHandles.OverflowThreads | ECSUtil/FileSupport.cpp:733 | There is that much room exactly from 28 threads on, up to the wrap of the 32-bit sum |
| WaitHandles.UnfinishedIsBounded | ECSUtil/FileSupport.cpp:733-745 | In every state of every run the unfinished messages are at most the room in the pool, those before any message fewer, and the messages no more than the parts |
| WaitHandles.PoolFillsUp | ECSUtil/FileSupport.cpp:726-804 | For every file and limits, some run comes to wait with the pool full, or with every part in it, and nothing done |
| PartPlan.PlanIsGood | ECSUtil/FileSupport.cpp:671-698 | An accepted plan covers the file without gap or overlap, numbered from 1; all parts but the last are equal and at least 5 MB, the last is not empty; 2 to 1001 parts, at most 1000 when the length was recomputed |
| PartPlan.PlanCanReach1001 | ECSUtil/FileSupport.cpp:674-678 | A file of 5000 MB and one byte in parts of 5 MB gets 1001 parts, although the comment says the limit is not exceeded |
| PartPlan.LimitIsKeptIff | ECSUtil/FileSupport.cpp:673-695 | An accepted plan has at most 1000 parts exactly when the length was recomputed or the file is at most 1000 times the part size asked for |
| PartPlan.PartsFromShape | ECSUtil/FileSupport.cpp:683-695 | From any offset, the loop yields a chain of adjacent parts up to the end of the file |
| PartPlan.PartsFromCount | ECSUtil/FileSupport.cpp:683-695 | The number of parts is the length of the rest of the file divided by the part length, rounded up |
| PartPlan.SinglePart | ECSUtil/FileSupport.cpp:696-698 | There is one part or none exactly when the file fits in one |
| PartPlan.AlignIsIdentity | ECSUtil/generic_defs.h:53-55 | Aligning a whole number of megabytes to 64 KB changes nothing |
| PartPlan.CutParts | ECSUtil/FileSupport.cpp:681-695 | The loop builds exactly the planned parts, without 64-bit overflow |
| PartPlan.PlanParts | ECSUtil/FileSupport.cpp:671-698 | The upload is declined exactly when the file is below one part, the part length is below 5 MB or one part holds it all |
| PartPlan.DeclinedIff | ECSUtil/FileSupport.cpp:671-680 | A file is declined exactly when it fits in one part of the size asked for, or that size is kept and below 5 MB, or it is at least 1001 times that size and below 999 times 5 MB |
| PartPlan.PartLengthMeaning | ECSUtil/FileSupport.cpp:673-678 | The length asked for is kept for files below 1001 times it; a longer file is divided by 999, rounded down |
| PoolMachine.StartsBestMessage | ECSUtil/ThreadPool.h:355-381 | Whenever a worker starts a message, no waiting message has a higher priority, or equal priority and an earlier arrival |
| PoolTiming.StartsEarlyIff | ECSUtil/ThreadPool.h:366-381 | In every run, a worker starts a message before the time its sender asked for exactly when the transfer of a stopping pool forwarded it and the time of the record that transfer held has still not come |
| PoolTiming.OnTimeWithoutReuse | ECSUtil/ThreadPool.h:348-381 | No message starts early in a run in which no pool that was told to stop is enabled again |
| PoolTiming.ReuseStartsEarly | ECSUtil/ThreadPool.h:590-633 | For every message and every delay other than zero, a run that starts the message early: delayed send, stop, transfer of everything, SetPerfCounter, a new thread |
| PoolTiming.AlwaysOnTimeIff | ECSUtil/ThreadPool.h:955-962 | Messages are on time in every run exactly when a stopped pool is not put to use again |
| PoolTiming.TimeIsKeptOrForwarded | ECSUtil/ThreadPool.h:1226 | In every state of every run an entry carries the time its sender asked for, unless a transfer forwarded it |
| PoolTiming.ForwardedKeepsTime | ECSUtil/ThreadPool.h:1204-1240 | A forwarded entry stands for the record its transfer held, for as long as it is queued |
| PoolMachine.GroupsNeverMix | ECSUtil/ThreadPool.h:522-543 | At every moment two workers in use share one group, which is not one that runs alone |
| PoolMachine.GroupRule | ECSUtil/ThreadPool.h:522-543 | While the group rule holds, the test lets a message run exactly when one more worker with its group would keep the rule |
| PoolParallel.GroupRunsTogether | ECSUtil/ThreadPool.h:522-543 | For any number of workers and any group below those that run alone, some run has all of them at work on it at once |
| PoolParallel.RunsTogetherIff | ECSUtil/ThreadPool.h:522-543 | Two workers are at work on one group in some run exactly when its number is below 1000 |
| PoolMachine.SentAsAsked | ECSUtil/ThreadPool.h:1013-1057 | The one new entry has the payload, priority and group the sender passed, the next id and the due time asked for; a forwarded one has those of its record and no further delay |
| PoolMachine.ReturnedAsSaid | ECSUtil/ThreadPool.h:394-418 | A processed entry and no other leaves the queue; an unprocessed one waits again at its place |
| PoolMachine.ExitingWorkerStaysIdle | ECSUtil/ThreadPool.h:348 | A waiting worker that was asked to exit or whose pool is disabled goes for no message |
| PoolMachine.InProcessIsOwnedOnce | ECSUtil/ThreadPool.h:362-384 | An entry in process has exactly one worker, which is in use and of the entry's group |
| PoolMachine.RunningMessageStays | ECSUtil/ThreadPool.h:394-418 | A message in process stays in the queue until its own worker removes or returns it |
| PoolMachine.NextKeeps | ECSUtil/ThreadPool.h:348-430 | Every locked region of senders, workers, kills, transfers and thread starts and exits keeps the pool invariant |
| PoolConservation.ConservedIffSentOnce | ECSUtil/ThreadPool.h:1204-1240 | When no transfer is under way, each accepted message is in exactly one of future queue, waiting, in process, finished and killed exactly when no search of a transfer missed its record in the run, that is, when no record was sent more than once |
| PoolConservation.MissIffSentTwice | ECSUtil/ThreadPool.h:1228-1238 | When no transfer is under way, some search for a record missed exactly when some record was sent more than once |
| PoolConservation.EveryCopyIsAccountedFor | ECSUtil/ThreadPool.h:1210-1239 | In every run, overlapping transfers included, the copies sent are the records erased, the searches that missed and the transfers still to search, for each record and for each message |
| PoolConservation.MessageIsThere | ECSUtil/ThreadPool.h:1204-1240 | A message is there as often as it was accepted, plus once for every search that missed and for every copy not yet followed by its search |
| PoolConservation.NothingIsLost | ECSUtil/ThreadPool.h:1204-1240 | No accepted message is ever lost, whatever transfers overlap |
| PoolConservation.RecordsStayOk | ECSUtil/ThreadPool.h:1228-1238 | A record is erased at most once, is there for every transfer that holds it until it is erased, and is missed only after that |
| PoolMachine.MessagesAreConserved | ECSUtil/ThreadPool.h:1204-1240 | When transfers do not overlap, that is so whenever none is under way |
| PoolMachine.OverlappingTransfersDuplicate | ECSUtil/ThreadPool.h:1210-1239 | When they overlap, one message can come out twice: a concrete run, for every message |
| MessageQueue.InsertKeepsSorted | ECSUtil/ThreadPool.h:1041-1053 | Inserting keeps the queue sorted by falling priority, first-in-first-out within one |
| PoolMachine.InsertMembers | ECSUtil/ThreadPool.h:1041-1053 | Inserting adds the new entry and no other change of members |
| MessageQueue.RemoveKeepsSorted | ECSUtil/ThreadPool.h:404-413 | So does erasing one entry |
| MessageQueue.SurvivorsAndKilled | ECSUtil/ThreadPool.h:928-949 | A kill removes exactly the matching entries that are not in process |
| MessageQueue.SurvivorsKeepSorted | ECSUtil/ThreadPool.h:928-949 | The entries a kill spares keep their order |
| MessageQueue.FirstWaitingIsBest | ECSUtil/ThreadPool.h:355-359 | The first entry not in process comes before every other waiting entry |
| QueueScans.RemoveVictim | ECSUtil/ThreadPool.h:931-948 | Erasing one match leaves the set of survivors and adds one to the killed |
| QueueScans.DuePartition | ECSUtil/ThreadPool.h:1215-1222 | A transfer splits the future queue into exactly the due entries and the others, losing none |
| QueueScans.RemoveLastDue | ECSUtil/ThreadPool.h:1215-1237 | Taking out the last due entry is the first step of the whole transfer |
| QueueScans.SendAllKeepsSorted | ECSUtil/ThreadPool.h:1226 | The moved entries join the queue in sorted order and none is lost or doubled |
| ThreadLimits.CeilingIsMonotone | ECSUtil/ThreadPool.h:800-817 | The thread ceiling grows with the queue, lies between the two maxima and meets both at the ends of the range |
| ThreadLimits.CeilingIsProportional | ECSUtil/ThreadPool.h:800-817 | Outside the range the ceiling is the one or the other maximum; inside, it grows from the first by the share of the difference that the queue has of the range, rounded down |
| ThreadLimits.LeastThreads | ECSUtil/ThreadPool.h:1190-1199 | At least one thread stays exactly when the minimum is positive or anything is queued; a positive minimum is kept as it is |
| ThreadLimits.ThreadsAddedMeaning | ECSUtil/ThreadPool.h:820-838 | At or above the ceiling no thread is added; below it, those missing to the minimum, and one more exactly when the 32-bit difference to the ceiling is not zero, the queue is longer than the live threads and its head may run |
| ThreadLimits.LiveCountIsSize | ECSUtil/ThreadPool.h:656-664 | The live threads are those active and not asked to exit |
| ThreadLimits.StartReusesStopped | ECSUtil/ThreadPool.h:693-706 | The first stopped entry of the list is used again; the list grows only when there is none |
| ThreadLimits.CeilingMeetsRangeIff | ECSUtil/ThreadPool.h:813-814 | It meets the range maximum at the end of the range exactly when the product fits in 32 bits |
| ThreadLimits.CeilingHoldsIffMinimumDoes | ECSUtil/ThreadPool.h:822-836 | The thread count stays within the ceiling exactly when the minimum does |
| ThreadLimits.AddedThreadsRespectCeiling | ECSUtil/ThreadPool.h:820-838 | Starting from fewer live threads than the ceiling, adding threads ends within it exactly when the minimum is at most the ceiling |
| ThreadLimits.StartManyIsIdle | ECSUtil/ThreadPool.h:693-725 | New threads are live and idle and do not change which groups may run |
| ThreadRuns.LiveThreadsStayBelow | ECSUtil/ThreadPool.h:798-838 | In every run in which threads start only through AddThreads, the live threads stay below every bound that the settings stay below in that sense |
| ThreadRuns.BoundHoldsIff | ECSUtil/ThreadPool.h:798-838 | For all settings and every bound: the live threads never exceed it in any run exactly when no ceiling does and, wherever the minimum lies above a ceiling other than zero, it is below the bound |
| ThreadRuns.PoolFillsUp | ECSUtil/ThreadPool.h:822-836 | With enough work a pool reaches every ceiling |
| ThreadRuns.MinimumIsOvershot | ECSUtil/ThreadPool.h:825-835 | A minimum above a ceiling other than zero is exceeded by one, because the unsigned difference is then not zero |
| ThreadRuns.FixedMaximumHoldsIff | ECSUtil/ThreadPool.h:800-838 | Without a queue range, the live count never exceeds the maximum in any run exactly when the minimum does not or the maximum is zero |
| ThreadRuns.RangeMaximumHolds | ECSUtil/ThreadPool.h:800-838 | With a queue range, it never exceeds the range maximum in any run if the minimum is within the base maximum or below the range maximum |
| ThreadRuns.PlainRegionsAddNoThread | ECSUtil/ThreadPool.h:348-465 | No other region of the pool adds a live thread |
| ThreadRuns.RegionRunKeeps | ECSUtil/ThreadPool.h:820-838 | The pool invariant holds in all these runs |
| OverLimitExit.LeastIsKeptIff | ECSUtil/ThreadPool.h:422-428 | Of more live threads than the limit, and with at most k workers at a time between a count above their limit and their exit: the minimum is kept in every interleaving exactly when it is zero, or no idle worker retires and the minimum plus k is at most the limit plus one |
| OverLimitExit.NeverBelowFloor | ECSUtil/ThreadPool.h:393-447 | However counting, leaving, retiring and starting interleave and whatever limits the workers are given, the live count stays at or above the smaller of two numbers: the initial count, and the limit plus one less k (with retirement, the smaller of the limit plus one and the minimum, less k) |
| OverLimitExit.FloorIsReached | ECSUtil/ThreadPool.h:422-447 | Above the limit, some run without a thread start goes down to that bound, or to zero when it is negative |
| ThreadPool.CThreadPool.constructor | ECSUtil/ThreadPool.h:481-509 | A new pool is the initial state |
| ThreadPool.CThreadPool.InsertEntry | ECSUtil/ThreadPool.h:1041-1053 | The backward walk inserts at the place the sorted queue requires |
| ThreadPool.CThreadPool.SendMessage | ECSUtil/ThreadPool.h:1013-1057 | The message joins the queue with the payload, priority, group and delay it was sent with, as the send step of the pool |
| ThreadPool.CThreadPool.SendMessageDelayed | ECSUtil/ThreadPool.h:780-793 | The message joins the future queue with the payload, priority, group and due time it was sent with |
| ThreadPool.CThreadPool.ScanGroups | ECSUtil/ThreadPool.h:525-543 | The loop decides whether a worker with this group would keep the group rule beside the workers in use |
| ThreadPool.CThreadPool.PickMessage | ECSUtil/ThreadPool.h:351-385 | A worker starts the first waiting message exactly when there is one, it is due and running it keeps the group rule |
| ThreadPool.CThreadPool.ReturnMessage | ECSUtil/ThreadPool.h:394-418 | The processed entry leaves the queue, an unprocessed one waits again at its place |
| ThreadPool.CThreadPool.SetIdle | ECSUtil/ThreadPool.h:280-285 | The worker is idle again, as a step of the pool |
| ThreadPool.CThreadPool.KillFirst | ECSUtil/ThreadPool.h:930-948 | One pass erases the first match if there is one, and changes nothing otherwise |
| ThreadPool.CThreadPool.KillAll | ECSUtil/ThreadPool.h:928-949 | The passes end, leave exactly the survivors in order and report whether any entry went |
| ThreadPool.CThreadPool.SearchMessageKill | ECSUtil/ThreadPool.h:920-952 | The whole kill is one step of the pool |
| ThreadPool.CThreadPool.FindDueMessage | ECSUtil/ThreadPool.h:1213-1223 | The scan ends with the last due record, or with none if none is due |
| ThreadPool.CThreadPool.ForwardMessage | ECSUtil/ThreadPool.h:1226 | The due message is inserted with no further delay, and the threads the queue then calls for are started |
| ThreadPool.CThreadPool.EraseFuture | ECSUtil/ThreadPool.h:1229-1237 | Exactly the record with that id leaves the future queue |
| ThreadPool.CThreadPool.MoveMessage | ECSUtil/ThreadPool.h:1224-1238 | One round sends the last due message on and erases its record, which is the first step of the whole transfer |
| ThreadPool.CThreadPool.TransferFutureQueue | ECSUtil/ThreadPool.h:1204-1240 | A transfer without other threads in between ends, moves exactly the due entries, keeps the others in order and changes the threads only by starting some |
| ThreadPool.CThreadPool.StartNewThread | ECSUtil/ThreadPool.h:693-725 | Reuses the first inactive entry, or adds one |
| ThreadPool.CThreadPool.CountThreads | ECSUtil/ThreadPool.h:649-673 | Counts the threads that are active and not asked to exit |
| ThreadPool.CThreadPool.RaiseTo | ECSUtil/ThreadPool.h:825-826 | Starts exactly the threads missing to the minimum |
| ThreadPool.CThreadPool.AddThreads | ECSUtil/ThreadPool.h:798-839 | Computes the ceiling and starts exactly the threads the minimum and the queue call for |
| ThreadPool.CThreadPool.RetireIdle | ECSUtil/ThreadPool.h:433-445 | A thread retires exactly when nothing is delayed, more than the minimum live and it has been idle for ten seconds, so retirement never takes the live count below the minimum |
| RwLock.WritersExclude | ECSUtil/CRWLock.cpp:128-200 | In every careful run, with any threads and nesting: a write-locked instance of one thread means no other thread has a locked instance |
| RwLock.HeldOncePerThread | ECSUtil/CRWLock.cpp:128-200 | The system lock is held once per thread with a locked instance, in exclusive mode exactly when one of them writes, and never corrupt |
| RwLock.NextKeeps | ECSUtil/CRWLock.cpp:80-200 | Every create, lock, grant, careful unlock and delete keeps the lock consistent |
| RwLock.AcquireIffCompatible | ECSUtil/CRWLock.cpp:188-199 | A waiting instance is let in exactly when no locked instance stands against it: readers share, writers do not |
| RwLock.NestedIsGrantedIff | ECSUtil/CRWLock.cpp:161-187 | A nested request is granted at once exactly when it reads or the thread already writes |
| RwLock.LastHasMode | ECSUtil/CRWLock.cpp:148-151 | The last instance of a thread has the mode in which the system lock is held, so the release matches |
| RwLock.UnlockKeepsIffCareful | ECSUtil/CRWLock.cpp:128-154 | In a consistent state an unlock keeps it consistent exactly when it is not the only writer leaving readers of its thread behind |
| RwLock.NeverCorruptIffCareful | ECSUtil/CRWLock.cpp:128-154 | In every run at whose end no instance is locked, the system lock was never released in the wrong mode exactly when every unlock was careful |
| RwLock.CarelessUnlockCorrupts | ECSUtil/CRWLock.cpp:143-152 | A run in which a careless unlock leads to a release in the wrong mode |
| RwLock.UpgradeNeverCompletes | ECSUtil/CRWLock.cpp:179-195 | A thread that reads and asks to write is never granted it, whatever the others do |
| RwLock.StackRunIsCareful | ECSUtil/CRWLock.cpp:101-154 | Locking and unlocking in stack order is careful, so all of the above holds of it |
| RwLockObject.CRWLock.constructor | ECSUtil/CRWLock.cpp:25-29 | A new lock is the initial state |
| RwLockObject.CRWLock.Register | ECSUtil/CRWLock.cpp:80-95 | The instance joins the vector unlocked |
| RwLockObject.CRWLock.CountOthers | ECSUtil/CRWLock.cpp:135-141 | The count is positive exactly when the thread has another locked instance |
| RwLockObject.CRWLock.ScanThread | ECSUtil/CRWLock.cpp:164-178 | The scan finds whether the thread holds the lock elsewhere and whether it writes there |
| RwLockObject.CRWLock.UnlockInstance | ECSUtil/CRWLock.cpp:128-154 | Unlocking a locked instance is the unlock step; an unlocked one is left alone |
| RwLockObject.CRWLock.BeginLock | ECSUtil/CRWLock.cpp:161-193 | Nested requests are granted at once, all others wait |
| RwLockObject.CRWLock.FinishLock | ECSUtil/CRWLock.cpp:194-199 | The system lock lets the waiting instance in |
| RwLockObject.CRWLock.Unregister | ECSUtil/CRWLock.cpp:101-126 | The instance unlocks and leaves the vector |
| LockOrder.PoolNeverDeadlocks | ECSUtil/ThreadPool.h:744-838 | In every state of every run of any ways through any pool operations by any threads, stopping the pool included, in which work is left, some thread can take its next step |
| LockOrder.OperationsBalanced | ECSUtil/ThreadPool.h:1013-1057 | Every way through every operation, leaving out and repeating any of its lock scopes, takes the pool lock before the message lock, never asks to write what it only reads, and gives back what it takes |
| LockOrder.QueuesChangeLocked | ECSUtil/ThreadPool.h:1013-1057 | Every operation that changes the message queue or the delayed messages holds their lock to write |
| LockOrder.ThreadsChangeLocked | ECSUtil/ThreadPool.h:820-838 | Every operation that changes the list of threads holds the pool lock to write |
| LockOrder.PathOrderly | ECSUtil/ThreadPool.h:820-838 | If an operation that takes all its lock scopes nests them in order, so does every run of it that skips, repeats or reorders some |
| LockOrder.SomeoneCanStep | ECSUtil/ThreadPool.h:850-852 | Threads that keep this order always leave one of them able to go on |
| LockOrder.SureStepsAreSteps | ECSUtil/CRWLock.cpp:194-197 | What the strictest choice among waiting threads would grant is granted |
| LockOrder.RunStaysInOrder | ECSUtil/ThreadPool.h:901-903 | They keep it in every state of every run |
| LockOrder.OppositeOrdersDeadlock | ECSUtil/ThreadPool.h:1016-1020 | Two threads that nest the locks in opposite orders can stop each other for good |
| BufferRuns.Run | ECSUtil/cbuffer.cpp:38-315 | Any sequence of operations on any number of buffers goes through the states of a map of independent byte strings, until the first that breaks the size bound or names a missing object |
| BufferRuns.Apply | ECSUtil/cbuffer.cpp:149-315 | One operation is one step of that specification: its own object changes as it should and no other object changes |
| BufferRuns.UntouchedKeepsContent | ECSUtil/cbuffer.cpp:204-248 | Over a whole run an object reads the same for as long as no operation targets it |
| BufferRuns.RunsAgree | ECSUtil/cbuffer.cpp:63-315 | If no operation exposes bytes never written or locks an empty buffer, the bytes of all objects at all times follow from the operations |
| BlockRelease.FreedExactlyOnce | ECSUtil/cbuffer.cpp:76-106 | With the test of the count, the copy and the interlocked decrement as separate steps of any number of threads, a block is freed at most once, and exactly when no object points at it any more |
| BlockRelease.WorksOnLiveBlock | ECSUtil/cbuffer.cpp:78-93 | An object copying from the block or changing it finds it allocated, and one that changes it is alone |
| BlockRelease.DecrementCanReachZero | ECSUtil/cbuffer.cpp:88-92 | Two objects can both find the block shared, and then the second to leave brings the count to zero and frees it |
| BlockRelease.NextKeeps | ECSUtil/cbuffer.cpp:76-106 | While a block has users its count is theirs, through every such step |
| BufferBlocks.LiveIffUsed | ECSUtil/cbuffer.cpp:74-107 | A block is live exactly while a handle points at it; with no handles left no block is |
| BufferBlocks.FreedByTheLast | ECSUtil/cbuffer.cpp:88-92 | A block is freed exactly when the handle that leaves it was the last |
| BufferBlocks.DetachKeeps | ECSUtil/cbuffer.cpp:76-106 | Leaving a block keeps all counts right and changes what no other handle reads |
| BufferBlocks.ShareKeeps | ECSUtil/cbuffer.cpp:222-227 | Joining an unlocked block keeps all counts right and gives the handle its bytes |
| BufferBlocks.AttachKeeps | ECSUtil/cbuffer.cpp:38-55 | A new block for an empty handle keeps all counts right |
| BufferBlocks.RewriteKeeps | ECSUtil/cbuffer.cpp:120-142 | Writing to a block with one user shows through that user alone |
| Buffers.BufferHeap.constructor | ECSUtil/cbuffer.h:93-96 | A new heap has no object and no block |
| Buffers.BufferHeap.Grow | ECSUtil/cbuffer.cpp:63-143 | Afterwards the object has the size asked for and its old bytes as far as they reach, alone in its block, with the capacity the source records and its lock unless emptied, and memory newly allocated for it is zero; all others are unchanged |
| Buffers.BufferHeap.LeaveShared | ECSUtil/cbuffer.cpp:76-106 | A shared block stays with the others; the object has a copy of its own, cut or extended to the size, or nothing |
| BufferBlocks.Zeros | ECSUtil/cbuffer.cpp:47 | Newly allocated memory is zero |
| Buffers.BufferHeap.Empty | ECSUtil/cbuffer.cpp:184-187 | The object is empty and unlocked, others unchanged |
| Buffers.BufferHeap.Release | ECSUtil/cbuffer.cpp:88-93 | One use of the block less, freed with the last |
| Buffers.BufferHeap.Install | ECSUtil/cbuffer.cpp:109-115 | The object gets a block of its own |
| Buffers.BufferHeap.Create | ECSUtil/cbuffer.h:93-96 | A new object is empty |
| Buffers.BufferHeap.Destroy | ECSUtil/cbuffer.h:105-108 | Only this object goes |
| Buffers.BufferHeap.WriteAt | ECSUtil/cbuffer.cpp:242-245 | Exactly the named bytes of exactly this object change |
| Buffers.BufferHeap.Load | ECSUtil/cbuffer.cpp:286-297 | The object holds the given bytes and keeps its lock |
| Buffers.BufferHeap.Append | ECSUtil/cbuffer.cpp:303-315 | The given bytes follow the old ones |
| Buffers.BufferHeap.AppendBuffer | ECSUtil/cbuffer.cpp:235-248 | The bytes of the other object follow the old ones, and the other object keeps its own |
| Buffers.BufferHeap.SetAt | ECSUtil/cbuffer.cpp:189-198 | One byte is stored, the object growing to reach it, all its other old bytes kept |
| Buffers.BufferHeap.SetBufSize | ECSUtil/cbuffer.cpp:177-180 | The object has the new size and keeps the common prefix |
| Buffers.BufferHeap.GetData | ECSUtil/cbuffer.h:151-157 | Nothing readable changes, and the object no longer shares its block |
| Buffers.BufferHeap.Lock | ECSUtil/cbuffer.cpp:149-157 | The bytes stay, and an allocated object is locked and shares with nobody |
| Buffers.BufferHeap.Unlock | ECSUtil/cbuffer.cpp:159-166 | The bytes stay and the object is unlocked |
| Buffers.BufferHeap.FreeExtra | ECSUtil/cbuffer.cpp:277-280 | The bytes stay; the capacity afterwards is the size, as the comment at line 60 says, exactly when the block was shared, the size was zero or there was no block; otherwise it is the size plus 100 |
| Buffers.BufferHeap.Share | ECSUtil/cbuffer.cpp:225-226 | The object reads what the other reads |
| Buffers.BufferHeap.CopyFrom | ECSUtil/cbuffer.cpp:216-221 | The object has a copy of the other's bytes and keeps its lock |
| Buffers.BufferHeap.CopyConstruct | ECSUtil/cbuffer.cpp:254-271 | The new object reads the source's bytes and is not locked, whether shared or copied |
| Buffers.BufferHeap.Assign | ECSUtil/cbuffer.cpp:204-229 | The object reads the source's bytes and stays locked if it was and they are not empty; assigning an object to itself does nothing |
| BufferCompare.Compare | ECSUtil/cbuffer.cpp:324-335 | The result is zero exactly when the bytes are equal |
| BufferCompare.SignIsOrderIff | ECSUtil/cbuffer.cpp:326-335 | The sign is the order by length, then by bytes, exactly when the lengths differ by less than a signed 32-bit integer holds |
| BufferCompare.LessIsAnOrder | ECSUtil/cbuffer.h:189-207 | That order is strict, total and transitive |
| BufferCompare.MemCompareMeaning | ECSUtil/cbuffer.cpp:332 | For strings of one length, memcmp decides equality and byte order |
| SharedQueue.NeverAboveLimitPlusProducers | ECSUtil/CSharedQueue.h:227-279 | With P producers and a limit M, and no wait given up, the queue never holds more than M + P entries in any interleaving |
| SharedQueue.BoundIsReached | ECSUtil/CSharedQueue.h:132-154 | For every M and P some run reaches M + P |
| SharedQueue.BoundedIff | ECSUtil/CSharedQueue.h:132-154 | Any bound at all exists exactly when there is a limit and nobody gives up waiting, and then M + P is the least one |
| SharedQueue.TakenInOrder | ECSUtil/CSharedQueue.h:227-286 | With pushes at the back and pops at the front, what was taken followed by what is inside is what was put in |
| SharedQueue.EntriesAreConserved | ECSUtil/CSharedQueue.h:227-293 | At whichever ends entries go in and out, without a clear each is taken out or inside as often as it was put in |
| SharedQueueObject.CSharedQueue.constructor | ECSUtil/CSharedQueue.h:157-159 | A new queue is the initial state |
| SharedQueueObject.CSharedQueue.PushEntry | ECSUtil/CSharedQueue.h:132-154 | The producer waits while the size is above the limit, others acting in between, and its push ends with the entry at the chosen end; it is still waiting only after all the looks it was allowed, the last at a size above the limit |
| SharedQueueObject.CSharedQueue.OtherThreads | ECSUtil/CSharedQueue.h:143-152 | Whatever other threads do between two holds of the lock is a run of the queue that leaves the producer where it was |
| SharedQueueObject.CSharedQueue.Hold | ECSUtil/CSharedQueue.h:208-293 | Each hold of the lock changes the list as the step of the machine does |
| SharedQueueObject.CSharedQueue.GetCount | ECSUtil/CSharedQueue.h:221-225 | Whatever producers and consumers did, the size is at most limit plus producers if none gave up waiting |
| SharedQueueObject.CSharedQueue.PopEntry | ECSUtil/CSharedQueue.h:281-293 | The entry at the chosen end is returned and the others stay in order |
| SharedQueueObject.CSharedQueue.ClearAll | ECSUtil/CSharedQueue.h:208-213 | The queue is empty |
| S3Read.WritesAPrefix | ECSUtil/FileSupport.cpp:211-268 | In every interleaving of the download and the reading loop, and with any failures, the stream holds an in-order prefix of the bytes pushed |
| S3Read.EndingOnTheLastChunkIsComplete | ECSUtil/FileSupport.cpp:249-253 | A loop that ended on the chunk marked last has written everything |
| S3Read.SuccessIsCompleteIff | ECSUtil/FileSupport.cpp:228-267 | A reported success has written the whole object exactly when the loop ended on the last chunk, or the worker pushed no data between the last test for an empty queue and the look at the flags that ended the loop |
| S3Read.SuccessHasALastLook | ECSUtil/FileSupport.cpp:255-267 | Every success has such a look at the flags |
| S3Read.MissingDataIsQueued | ECSUtil/FileSupport.cpp:263-274 | What a successful call has not written is the data left on the queue, which is empty exactly when the last chunk was taken |
| S3Read.SuccessWithMissingData | ECSUtil/FileSupport.cpp:228-264 | For every non-empty object, an interleaving in which success is reported and nothing was written: the download ends between the last test for an empty queue and the test of the worker's flag |
| S3Read.FailedIff | ECSUtil/FileSupport.cpp:213-260 | The caller has an error exactly when it met an abort or a failed wait after a wait, a failed write of a chunk that is not empty, or the exit flag at a look at the flags |
| S3Read.SucceedsIff | ECSUtil/FileSupport.cpp:263-274 | Success is reported exactly when the loop is over, none of these was met, and the worker has ended without an error |
| S3Read.FaultEndsLoop | ECSUtil/FileSupport.cpp:217-260 | Each of these ends the loop at once, a failed write at the next look at the flags |
| S3Read.LoopEndsIff | ECSUtil/FileSupport.cpp:255-268 | Otherwise the loop ends exactly at a look at the flags that finds the last chunk taken, the worker done, or ended with an error |
| S3Read.PlayKeeps | ECSUtil/FileSupport.cpp:211-268 | At every moment, bytes taken followed by bytes queued are the bytes pushed, and only the end of the queue is marked last |
| S3Read.Read | ECSUtil/FileSupport.cpp:211-274 | The nested loops of the caller do exactly the steps the theorems are about |
| S3Read.Round | ECSUtil/FileSupport.cpp:211-268 | One turn of the outer loop follows the moments through the wait, the drain and the look at the flags |
| S3Read.Drain | ECSUtil/FileSupport.cpp:228-254 | So does the inner loop |
| S3Read.Join | ECSUtil/FileSupport.cpp:269-270 | Waiting for the worker changes nothing the caller did |
| XmlScan.ScanIsTraversal | ECSUtil/XmlLiteUtil.cpp:100-211 | For every document the callbacks are its depth-first traversal, start, content, end, each with the names from the root down; the stack ends as it began |
| XmlScan.CutDocumentIsPrefix | ECSUtil/XmlLiteUtil.cpp:100-212 | A document cut short at any node gives the beginning of that traversal |
| XmlScan.CutDocumentIsCompleteIff | ECSUtil/XmlLiteUtil.cpp:100-212 | A document cut short is reported as a success; its callbacks are those of the whole document exactly when only declarations, comments and the like were lost |
| XmlScan.CutDocumentLosesCallbacks | ECSUtil/XmlLiteUtil.cpp:212 | A document of one element cut before its end: success, with the end callback missing |
| XmlScan.PathNamesTheStack | ECSUtil/XmlLiteUtil.cpp:55-57 | Names hold no slash, so equal paths mean the same place in the document |
| XmlScan.PathText | ECSUtil/XmlLiteUtil.cpp:55-57 | Split at its slashes, a path is two empty pieces and then the names from the root down |
| XmlScan.NameText | ECSUtil/XmlLiteUtil.cpp:104-146 | A qualified name is the prefix, a colon and the local name, or the local name alone |
| XmlScan.CallsPerNode | ECSUtil/XmlLiteUtil.cpp:100-211 | Every element makes one start and one end callback, every text one content callback |
| XmlScan.WrittenMeaning | ECSUtil/XmlLiteUtil.cpp:128-153 | An attribute is passed on, with its qualified name and value and at its place, unless a DTD supplied it |
| XmlScan.ScanXmlStream | ECSUtil/XmlLiteUtil.cpp:100-213 | The callbacks made are those up to the first callback that fails or reader call that fails other than a move between attributes, and success is returned exactly when there is none |
| XmlScan.ScanNodes | ECSUtil/XmlLiteUtil.cpp:100-211 | The loop over the nodes makes exactly the callbacks of the scan, up to and including the first that fails, and keeps the stack |
| XmlScan.ScanNode | ECSUtil/XmlLiteUtil.cpp:102-210 | One node: its callbacks in order until one of them or a reader call fails, and its effect on the stack, an empty element getting its end at once |
| XmlScan.BuildPath | ECSUtil/XmlLiteUtil.cpp:55-57 | The loop builds the path of the stack |
| XmlScan.CollectAttributes | ECSUtil/XmlLiteUtil.cpp:128-153 | The loop keeps the attributes written in the document that the reader reaches, in order, with their qualified names |
| XmlScan.AttributesCompleteIff | ECSUtil/XmlLiteUtil.cpp:128-153 | A move to the next attribute that fails goes unnoticed; the attributes given to the callback are complete exactly when only defaulted ones lay beyond it |
| UriEncode.DecodeEncode | ECSUtil/UriUtils.cpp:94-113 | With every table, decoding by RFC 3986 section 2.1 gives back the input |
| UriEncode.EscapeText | ECSUtil/UriUtils.cpp:94-110 | A byte that is not safe becomes a percent sign and its two digits to base sixteen, in upper case |
| UriEncode.LowerCaseIsText | ECSUtil/UriUtils.cpp:94-110 | Each lower-case letter is in the encoding as often as in the text, so no escape uses one |
| UriEncode.EncodeIsInjective | ECSUtil/UriUtils.cpp:94-113 | No two inputs have one encoding, even across tables |
| UriEncode.EncodedLength | ECSUtil/UriUtils.cpp:95-97 | The encoding has two more characters for each escaped byte, so at most three times the length |
| UriEncode.OutputIsSafe | ECSUtil/UriUtils.cpp:99-110 | The output holds only safe characters and percent signs |
| UriEncode.SafeSets | ECSUtil/UriUtils.cpp:38-41 | The V4AuthSlash table is exactly the unreserved set of RFC 3986 section 2.3; two tables add the slash; one is letters, digits and slash |
| UriEncode.InitUriEncodeArray | ECSUtil/UriUtils.cpp:178-197 | The two loops build exactly the table's set |
| UriEncode.EncodeToBuffer | ECSUtil/UriUtils.cpp:94-113 | The loop writes the encoding and stays within the reserved buffer |

## Left out

- MultipartObject.Uploader.Upload: does not promise to finish, because the workers need not get on; `rounds` bounds how often the wait may end, and only a run that used them all is reported as not finished
- MultipartObject.DoS3MultiPartUpload: what an unfinished call has stored is not described; the size of the stream is given, so a failing query for it, after which the source returns false, is not modelled, and neither is the error code returned beside false; a part size of 0 MB (a division by zero in the source) and an empty read buffer (an endless loop there) are excluded
- MultipartUpload.UploadIsFaithful: assumes that the file does not change, that a worker takes chunks in order and reports success only after the last one, and that the server keeps what was streamed; reads may return nothing in the machine, while the loops of `MultipartObject.Uploader` assume at least one byte a read, without which they need not end
- PoolMachine.MessagesAreConserved: for transfers that do not overlap, because the property is false otherwise
- ThreadPool.CThreadPool.TransferFutureQueue: one thread's transfer from start to end; what other threads do in between is in the machine
- OverLimitExit.LeastIsKeptIff: the bound k on workers between their count and their exit is a parameter of the run, because the scheduler decides it
- WaitHandles.OverflowIff: a read buffer of at least one byte; the pool's queue may count more than the unfinished messages, so a pool may also stop taking parts earlier
- RwLock.WritersExclude: for careful unlocks, because the property is false otherwise
- Buffers.BufferHeap.Grow: sizes within 116 of 2^32, where the source throws or wraps depending on the word size, and failing allocations are excluded; counts do not wrap
- Buffers.BufferHeap.Load: the same bound on sizes
- Buffers.BufferHeap.Append: the same bound on sizes
- Buffers.BufferHeap.SetAt: the same bound on sizes
- Buffers.BufferHeap.Release: one thread at a time; simultaneous leaving of one block is `BlockRelease`
- Buffers.BufferHeap.SetBufSize: the same bound on sizes; bytes exposed by growing within the capacity are unspecified
- Buffers.BufferHeap.AppendBuffer: appending a buffer to itself is excluded, because the source then reads its own length after it has grown
- LockOrder.PoolNeverDeadlocks: covers the pool lock and the message lock; a path may repeat and reorder the lock scopes of an operation more freely than its source does; the small locks around events, thread lists and counters are taken for single statements and are not part of the order
- S3Read.Read: a run that outlasts the given moments stops where they end; a download whose thread never starts is not told apart from one that has ended before its first step
- XmlScan.ScanXmlStream: results of callbacks that are neither success nor a failing HRESULT count as success, as they do in the source; a reader call that answers with a non-failing code other than success is not modelled
- Raw data pointers kept from a buffer across later operations, two threads working on one buffer object, and Base64 conversion are not part of this model
- Wake-ups and liveness: events, timeouts and which waiting thread is woken; an ordered insert fires no event
- `DiscardPool`, performance counters (but for the call that sets them, which enables the pool), `DumpQueue` and the callbacks of `SearchMessageBackModify`: only their lock order is modelled
- The waiting part of `SendMessageToPool` for a maximum queue size: same shape as the bounded queue
- HTTP, signing, retries inside a request, load balancing and hashing: foreign calls; a hash stands for the bytes added to it
- `S3Write`, COM streams, error tables, number formatting, field parsing, `EncodeSpecialChars` and `UriDecode`: finite tables, foreign calls or formatting
- Thread creation, handle lifetime and the destruction order of queues and events
