# ubwt: a verified model

ubwt measures the bandwidth between a connector and a listener. W worker threads at each end are paired over TCP; each pair
runs a handshake, a negotiation, a stream, a report exchange and a finish. The workers of one end share barriers and talk
counters, and all workers of both ends repeat the stream with a larger count when it was too short ("weak").

This project models four layers and proves what they are for.

**The reusable barrier.** `BarrierModel` is `worker_barrier_wait` of the hand-written barrier as a small-step system: any
number of threads, each at a program point, with its local `serial` and four counters (waits called, counted in, counted
out, returned from); two mutexes; two condition variables. A condition wait releases its mutex and falls asleep in one step,
a broadcast wakes every sleeper of its condition, and a sleeper may wake at any time. `BarrierInvariant` has the invariant,
`BarrierRuns` safety, the refinement of a one-step barrier and the serial result, `BarrierProgress` the absence of lock
cycles and missed wake-ups and the ranking. `BarrierChoice` shows that the serial results of every run are one function of
the round. `WorkerBarrier` is the same as an object updated in place. `BarrierLink` shows that the guard that the protocol
layer takes for its barriers is that of the one-step barrier, run by exactly the number of threads it was initialised for,
and that its serial results are among those the protocol layer allows.

**The talk protocol.** `TalkModel` is a transition system of 2W workers, a FIFO channel of any fixed capacity for each
worker to its peer (with capacity 0 a message passes only to a peer that is reading), the shared counters `weak`, `im_weak`,
`weak_time` and `count` of each end, and the barriers. A worker is at one of 26 points of a leg; a leg is one direction, and
a bidirectional synchronous run has two, the second with the roles swapped on the same connections. Durations, start times
and latencies are arbitrary functions of direction, round and connection. The worker that gets the serial result of a
barrier is an arbitrary function of end, barrier and round, so everything here holds for the build on `pthread_barrier`,
which leaves the choice open, and for the hand-written barrier, whose serial worker is the last to leave. `TalkEvents` has
the reference definitions: the weak total of a round, the restart decision made from it, the sequence of messages of a
connection. `TalkWorker`, `TalkBarrier`, `TalkVotes` and `TalkCounts` hold the parts of the invariant, `TalkInvariant` shows
that every step keeps it, `TalkProgress` derives freedom from deadlock, `TalkTermination` the bounds, and `TalkRuns` and
`TalkResults` the statements about whole runs, those that fail included. `Transcript` has what each worker sends and
receives over a run and the lengths it asks for, `Conversation` the script that every completed run follows word for word.
`TalkContext` has the counters as an object and the receive loop. `Growth` is the count arithmetic.

**Lives of the workers, registry and results.** `WorkerLife` has the events of a worker's life and their effect on its
flags. `Lifecycle` is the main thread of one end, its two start loops, its waits and its join loop, interleaved in any way
with workers that perform the events of `process_run` one after the other. `Registry` has the doubly linked list of worker
records with its static head as heap objects, its lookup cache, the flag updates, the counting, combining, starting and
joining loops. `Reports` is the combination of the workers' results as a fold.

**Wire, connection and configuration.** `ByteOrder` and `Messages` encode integers, messages and reports; `Streams` has the
read and write loops over a byte stream and framing under any splitting and buffer size; `WireLockStep` puts the bytes of
every protocol run through it. `Conn` is the connection payload and the configuration match, `Pairing` the two-phase start
of asynchronous mode (it lets the protocol layer number the connections so that those below W/2 are straight-first at both
ends), `Sizing` the worker split, the barrier totals and the events of a worker in `process_run`. `Options` is a datatype
they share.

## Reading notes

- The barrier is modelled for exactly `total` users; `Sizing.BarriersSized` shows that every barrier has that many.
- One step of the protocol is one action on shared state. The sender's two reads of the shared count (for the COUNT message
  and for the stream call) are separate steps; the addition of a weak verdict, done under the global mutex, is one step, and
  so is the clearing of the counters. The two decrements of the barrier, done under mutex 1, are one step.
- The protocol proofs take the serial worker of a barrier round to be one of the barrier's users, and nothing more. The Linux
  build, whose flags do not select the hand-written barrier, promises no more than that. The choice is a function fixed with
  the configuration; as all functions are allowed, so is every choice made during a run.
- A worker counts the STREAM RUN messages it receives and their bytes as they come; its record is filled from these two.
- The bounds of `WireLockStep.WireBounds` are about the configuration and the measured times only: they fit the structs'
  fields, and the largest count times the payload size fits 64 bits.
- The restart multiplier is an exact rational (6/5, 27/20, or the configured integer), its product truncated to an integer.
  A comment beside it asks for a tolerance between 1.25 and 1.75; the synchronous value 1.20 in the code is used.
- `talk_stream_minimum_time` is at most 2147, because its product with 1000000 is an `int`. Sums of reports are unbounded
  integers, which agrees with the code as long as they fit `uint32_t` and `uint64_t`.
- The receiver demands count < max, the sender asserts count <= max; both are kept. Failing either leaves the run (`aborted`).
  So "every run completes" is false of the code: a direction that stays weak reaches the maximum and the run is left
  (`TalkResults.SomeRunFails`). `TalkRuns.CompletesExactlyBelowMaximum` has the exact condition.
- The combined start time is the minimum including the head's own record, which starts at zero; `Reports.StartIncludesHead`
  says exactly when it is the start of some worker.
- Integers lie in memory as on a little-endian host; on a big-endian one the conversions are the identity.
- A successful read or write moves at least one byte. (At end of file `read` moves none and `net_read_from_*` would not end.)
- The payload of a connection is 40 bytes with two bytes of padding before the 32-bit fields, always zero.

## Model

| member | source | states |
|---|---|---|
| `BarrierInvariant.StepKeeps` | src/worker.c:131-184 | Every step of every thread keeps the barrier's invariant: mutex ownership by program point, `waiting` equal to the number of threads inside, one round filling or draining at a time, no sleeper whose broadcast is past. |
| `BarrierInvariant.WakeKeeps` | src/worker.c:137-149 | A spurious wake-up of any sleeper keeps the invariant: both waits test their condition again. |
| `BarrierRuns.Safety` | src/worker.c:131-188 | In every run no thread has returned from its r-th wait before every thread was counted into its r-th wait, two threads differ by one round at most, and the assert `count == waiting` never fails. |
| `BarrierRuns.FieldsReset` | src/worker.c:167-180 | When the serial thread is about to return, `count == total`, `waiting == 0`, `block_r == 0`, and all threads have been counted out of the same round. |
| `BarrierRuns.Refinement` | src/worker.c:131-184 | Every small step is a call, a return, or nothing to a one-step barrier; a return satisfies the one-step barrier's guard and its result is 1 exactly when all others have already returned from that round. |
| `BarrierRuns.ExactlyOneSerial` | src/worker.c:167-184 | In every run and for every round r, exactly one r-th wait returns 1 once all threads have returned from theirs, and none has before. |
| `BarrierProgress.OwnersMove` | src/worker.c:135-182 | No lock cycle although entering threads take mutex 0 then 1 and leaving ones 1 then 0: while a mutex is owned, an owner can take a step. |
| `BarrierProgress.DrainersMove` | src/worker.c:148-162 | No missed broadcast: while a round drains and no mutex is owned, some thread inside has been woken. |
| `BarrierProgress.StillMeansMissing` | src/worker.c:131-184 | If nothing inside the barrier can go on, every thread is outside or asleep in the current round, and at least one is outside and has not called it. |
| `BarrierProgress.Progress` | src/worker.c:131-184 | When every user has called its next wait, some thread inside can take a step that is no spurious wake-up. |
| `BarrierProgress.StepLowersRank` | src/worker.c:131-184 | Every step completes the round or lowers a rank. |
| `BarrierProgress.RoundsComplete` | src/worker.c:131-184 | A run longer than 28N(N+1) plus three moves for each spurious wake-up completes a round of N threads. |
| `BarrierChoice.SerialIsChosen` | src/worker.c:167-184 | For every run of the hand-written barrier there is one user for each round such that every wait of the run returns 1 exactly when it is that user's: the assumption that the protocol layer makes of its barriers. |
| `BarrierLink.SameBarrier` | src/talk.c:838-848 | A protocol barrier's guard is that of the one-step barrier over the workers that share it, and with the choices of a run of the hand-written barrier the serial results are the same. |
| `BarrierLink.ListedUsers` | src/worker.c:306-324 | The workers that share an initialised barrier are those whose path waits on it, and exactly as many as it was initialised for. |
| `WorkerBarrier.Object.constructor` | src/worker.c:116-129 | Initialisation with `count` users gives the state the runs start from. |
| `WorkerBarrier.Object.Act` | src/worker.c:131-184 | The in-place update of fields, mutexes and thread point is the specified step, and keeps the invariant. |
| `WorkerBarrier.Object.Broadcast` | src/worker.c:161-175 | The broadcast moves exactly the threads asleep on its condition. |
| `TalkInvariant.StepKeeps` | src/talk.c:832-1065 | Every step of every worker of either end keeps the protocol's invariant, whichever user of a barrier gets each of its serial results. |
| `TalkProgress.DeadlockFree` | src/talk.c:363-1065 | No state satisfying the invariant, short of completion, leaves every worker blocked: in synchronous and asynchronous mode, for every W and channel capacity, a rendezvous included, some worker can step. |
| `TalkRuns.ReachableInv` | src/talk.c:832-1065 | Every reachable state satisfies the invariant, and no expected operation, length or iteration count is ever missing. |
| `TalkRuns.RunsAreFinite` | src/talk.c:892-963 | Every run is finite, with a bound that depends on the configuration only. |
| `TalkRuns.RunsComplete` | src/talk.c:832-1065 | A run that cannot go on has finished every worker or left at the maximum count. |
| `TalkRuns.AbortOnlyAtMaximum` | src/talk.c:954-955 | A run is left only when the count of some direction has reached the maximum. |
| `TalkRuns.CompletesExactlyBelowMaximum` | src/talk.c:328-336 | A run that cannot go on has finished every worker if and only if no count of either direction has reached the maximum: a finished run never had a count that a receiver would refuse. |
| `TalkResults.NeverFinished` | src/talk.c:74-87 | When every stream is shorter than the minimum time, no reachable state has all workers finished. |
| `TalkResults.AlwaysWeakNeverFinishes` | src/talk.c:953-955 | When every stream is shorter than the minimum time, from every initial state there is a run that is left unfinished at the maximum count. |
| `TalkResults.SomeRunFails` | src/talk.c:328-336 | A concrete accepted configuration, one worker at each end and streams that take no time, and a run of it that is left unfinished. |
| `TalkResults.RunsEnd` | src/talk.c:832-1065 | Every run can be continued to one in which no worker can step. |
| `TalkRuns.LockStep` | src/talk.c:95-149 | The next message on a connection is the one its peer encoded for the same point of the protocol, has the length the receiver derives from its own stage, and passes the receiver's checks. |
| `TalkRuns.RestartAgreement` | src/talk.c:74-92 | Whenever a worker reads the weak counters, `im_weak[d]` is the number of weak connections of direction d in its round, and all workers of both ends in that round decide alike: to restart exactly when every stream of the direction, in asynchronous mode of some direction, was shorter than the minimum time. |
| `TalkRuns.RoundAgreement` | src/talk.c:892-963 | All workers of both ends leave a leg after the same number of rounds. |
| `TalkRuns.CountAgreement` | src/talk.c:304-361 | All senders and receivers of a direction stream the same count in a round, at least 100; it is strictly below 1000000000 from the receiver's START message on. |
| `TalkRuns.OneGrowthPerRestart` | src/talk.c:918-955 | A direction's count starts at 100; from one round to the next it grows once when all its streams were shorter than the minimum time, to exactly the number of messages that last the minimum time with the tolerance at the rate of one of those streams (or the configured multiple), and else stays. |
| `TalkVotes.CountersComplete` | src/talk.c:485-531 | At the point where the counters are read they hold the complete tally of the round: none was cleared early, none is still to be added; and `weak_time` is the duration of a weak connection of that direction and round. |
| `TalkVotes.DecisionIsReference` | src/talk.c:74-87 | The decision made from the counters is the one defined from the round's durations. |
| `TalkCounts.CountRead` | src/talk.c:878-902 | A worker that sends the count reads the value of its own round: no writer is ahead of or behind it. |
| `TalkCounts.HistoryGrows` | src/talk.c:918-951 | The serial sender's write appends exactly one count to the direction's history, regrown from the last one by the duration of one of the round's weak connections. |
| `TalkCounts.AllWeakExactly` | src/talk.c:90-92 | The test for a growth holds exactly when all streams of the direction were shorter than the minimum time. |
| `TalkTermination.GrowthBound` | src/talk.c:923-946 | After g growths the count is at least 4 + 96(6/5)^g. |
| `TalkTermination.RestartGrows` | src/talk.c:74-92 | Whatever restarts a round makes the count of at least one direction grow. |
| `TalkEvents.RestartExactly` | src/talk.c:74-87 | The reference decision in terms of the durations alone, both directions of asynchronous mode included. |
| `TalkTermination.AtMost88Restarts` | src/talk.c:953-955 | In synchronous mode at most 88 restarts of a direction pass the maximum-count assert. |
| `TalkRuns.RestartsBounded` | src/talk.c:892-963 | In every run no worker gets beyond round 178, and in synchronous mode at most 88 restarts of a direction pass the maximum-count assert. |
| `TalkRuns.RestartRaisesCounts` | src/talk.c:915-959 | Every restart raises the direction's count, or in asynchronous mode the sum of both with neither falling, so what is left up to the maximum shrinks. |
| `Growth.GrownExactly` | src/talk.c:922-946 | The new count is the product with a configured multiplier; without one it is the largest n such that n messages, at the rate of `count` messages in the weak time (1 us at least), last no longer than the minimum time with the tolerance 6/5 or 27/20, or than `count` messages with the tolerance when the weak time is above the minimum. Both directions. |
| `Growth.GrowsBySixFifths` | src/talk.c:922-946 | The new count is at least 6/5 of the old one, up to truncation, for every weak time and configured multiplier. |
| `Growth.StrictlyGrows` | src/talk.c:922-946 | A count of at least the default strictly grows. |
| `TalkResults.SameRecords` | src/talk.c:721-775 | On completion both ends of every connection hold the same record of each tested direction: latency, start and duration as measured in its last round, that round's count as count and packets, and that count times the payload as bytes. |
| `TalkResults.TestedExactly` | src/process.c:120-178 | Which connections test which direction, in every mode. |
| `TalkResults.AcceptedIsLong` | src/talk.c:74-87 | A round that is not restarted has, in every direction it tests, a connection whose stream lasted at least the minimum time. |
| `TalkResults.StreamsTogether` | src/talk.c:390-420 | While one worker streams, all workers of its end are in the same round, ready to stream, streaming or waiting at the end of their streams, in asynchronous mode both directions: no verdict is sent before all streams of the end are over. |
| `TalkResults.LegsApart` | src/talk.c:832-848 | A worker that has gone on to the second leg waits at its first barrier until all workers of its end have added the verdicts of the last round of the first. |
| `TalkContext.Context.constructor` | src/talk.c:1067-1070 | The counters start at zero. |
| `TalkContext.Context.Reset` | src/talk.c:405-407 | Clears the total and one direction's counters in place as the protocol step says, and nothing else. |
| `TalkContext.Context.Vote` | src/talk.c:505-516 | Adds a weak verdict to the total and to one direction, with its time. |
| `TalkContext.Context.SetCount` | src/talk.c:878-882 | The serial sender's initial write of one direction's count. |
| `TalkContext.Context.Grow` | src/talk.c:919-946 | The serial sender's multiplication: one direction's count becomes exactly the grown one when its whole direction was weak, and the other direction's stays. |
| `TalkContext.Context.Decide` | src/talk.c:74-87 | The restart decision of both modes. |
| `TalkContext.ReceiveStream` | src/talk.c:605-618 | The loop counts exactly the messages before the first timeout, never more than the negotiated count, and bytes are packets times the payload size, on a timeout too. |
| `Reports.CombinedFields` | src/report.c:56-82 | Counts, packets and bytes are sums, the duration is the maximum, the start the minimum including the head, the latency the truncated mean over W workers, or W/2 in asynchronous mode. |
| `Reports.StartIncludesHead` | src/report.c:71-75 | The combined start is some worker's start exactly when one of them is not above the head's; with the head at zero it is zero. |
| `Reports.BytesKept` | src/report.c:64-76 | Combining keeps bytes equal to packets times the payload size. |
| `Reports.OrderIrrelevant` | src/report.c:60-78 | The combination does not depend on the order of the list. |
| `Reports.SameResult` | src/report.c:56-82 | On completion of every run connector and listener combine to the same record of each tested direction, whatever the order of their lists. |
| `Reports.ResultLatency` | src/report.c:80-81 | On completion of every run the reported latency of a tested direction is the truncated mean of the measured latencies over the connections on which it was tested, counted one by one. |
| `Reports.EqualLatencies` | src/report.c:80-81 | Equal latencies combine to that latency in both modes. |
| `Reports.ResultFields` | src/report.c:60-78 | On completion the reported count and packets are the last round's count times the tested connections, the bytes that times the payload, the duration that of the longest stream of the last round, the start zero. |
| `Reports.ResultIsLong` | src/talk.c:605-663 | The reported duration of every tested direction is at least the minimum time, in both modes and for every W, and its bytes, added up message by message, are its packets times the payload size. |
| `Reports.PacketEstimate` | src/report.c:218-221 | The estimated packet total equals the packets when the payload fits the MTU; otherwise it lies between the packets and their fragments and meets the latter exactly when fragments are full or there is no packet. |
| `Reports.EstimateExactly` | src/report.c:218-221 | The estimate is the number of whole units of the MTU, or of packets when they are smaller, in the bytes received. |
| `Registry.Insert` | src/current.c:193-199 | Linking a new node behind the head keeps the list doubly linked, acyclic and duplicate-free. |
| `Registry.Unlink` | src/current.c:262-275 | Unlinking a node in the middle or at the tail keeps the list so, without exactly that node. |
| `Registry.Table.constructor` | src/current.c:82-90 | The registry starts with the head alone. |
| `Registry.Table.Fork` | src/current.c:141-204 | A new worker is linked behind the head with exactly the flags CHILD and READY; every other node stays as it was. |
| `Registry.Table.Search` | src/current.c:243-249 | The search finds the node with the given id, or none exactly when no node has it. |
| `Registry.Table.Get` | src/current.c:52-79 | A thread's cached lookup of its own id gives the node that the linear search gives. |
| `Registry.Table.RunningSet` | src/current.c:206-216 | Adds RUNNING to the flags, whatever they were: the effect of initialisation. |
| `Registry.Table.RunningUnset` | src/current.c:218-228 | Takes RUNNING from the flags, whatever they were: the effect of destruction. |
| `Registry.Table.TaskExit` | src/current.c:230-241 | Takes RUNNING from the flags and adds JOINABLE, whatever they were: the effect of the exit. |
| `Registry.Table.Join` | src/current.c:243-289 | For a worker that meets both flag asserts exactly the named node and its cache entry go. |
| `Registry.Table.ChildrenHaveFlag` | src/current.c:292-307 | True exactly when at least `count` workers have the flag. |
| `WorkerLife.HavingAll` | src/current.c:292-307 | The number of flagged workers is that of all workers exactly when every worker has the flag. |
| `Registry.Table.CombineReports` | src/report.c:56-82 | The nested loops over list and directions store the specified combination in the head. |
| `Registry.Table.StartGroup` | src/runtime.c:118-139 | A start loop links one new worker, CHILD and READY, for each thread id of its group, remembers the ids, and leaves the workers already there as they are. |
| `Registry.Table.JoinAll` | src/runtime.c:164-167 | When all workers have stopped, both asserts hold at every join of the loop and only the head is left. |
| `WorkerLife.JoinNext` | src/runtime.c:164-167 | One join keeps what the join loop needs: the worker named next is in the list, once, and has stopped. |
| `Lifecycle.MoveKeeps` | src/runtime.c:118-167 | Every move of the main thread or of a worker keeps the invariant: the workers listed are those started and not joined, and each has exactly the flags of its point in its program. |
| `Lifecycle.FlagsTell` | src/current.c:187-241 | In every reachable state a worker is a READY child, RUNNING exactly between its initialisation and its destruction, and JOINABLE exactly when it has nothing left to do. |
| `Lifecycle.FirstGroup` | src/runtime.c:118-139 | The first start loop starts exactly the workers that take the straight direction first. |
| `Lifecycle.WaitsOpen` | src/runtime.c:127-147 | The waits for READY never block; those for RUNNING go on exactly when every worker is between initialisation and destruction, the one for JOINABLE exactly when every worker has nothing left to do. |
| `Lifecycle.StuckExactly` | src/runtime.c:118-167 | An end comes to rest exactly when it is done, or when the main thread still waits for RUNNING after every worker has exited. |
| `Lifecycle.CanFinish` | src/runtime.c:118-167 | From every state in which no worker was destroyed before the final wait, the end of the main thread can be reached. |
| `Lifecycle.SomeRunFinishes` | src/runtime.c:118-167 | For every setup there is a run in which all workers are started, waited for and joined. |
| `Lifecycle.FirstWaitSeesAll` | src/runtime.c:127-130 | When the wait for RUNNING after the first loop is over, every worker started so far is running. |
| `Lifecycle.SecondGroupWaits` | src/runtime.c:127-139 | As soon as a reverse-first worker of asynchronous mode exists, every straight-first worker has completed its connection exchange. |
| `Lifecycle.JoinableIsStopped` | src/current.c:230-258 | In every reachable state a JOINABLE worker is not RUNNING and has no event left. |
| `Lifecycle.NeverRunsAgain` | src/current.c:230-258 | In every continuation of every run the entry of a JOINABLE worker, until it is joined, stays the same: it is never RUNNING again. |
| `Lifecycle.JoinIsLegal` | src/runtime.c:146-167 | Once the wait for JOINABLE has seen as many workers as there are, every later join names a listed, stopped worker, for every interleaving of the start loops and the workers: what the join loop of the registry requires. |
| `ByteOrder.NetworkOrder` | include/net.h:55-74 | A converted integer lies in memory most significant byte first. |
| `ByteOrder.SwapTwice` | include/net.h:74-74 | Converting twice is the identity on every integer of the width. |
| `ByteOrder.OnNetwork` | include/net.h:55-74 | The memory of a converted integer, read most significant byte first, is the integer. |
| `ByteOrder.Htonll` | include/net.h:58-71 | Converting and exchanging the two 32-bit halves in place is the 64-bit conversion. |
| `ByteOrder.HalvesSwapped` | include/net.h:56-56 | The macro variant computes the same. |
| `Messages.ReportOnNetwork` | src/report.c:181-194 | A marshalled report has latency, count and packets at offsets 0, 4 and 8 and duration, start and bytes at 24, 32 and 40, most significant byte first, and zeros everywhere else. |
| `Messages.ReportRoundTrip` | src/report.c:181-207 | A marshalled report unmarshals to itself, for all records that fit the struct. |
| `Messages.PacketRoundTrip` | src/talk.c:95-138 | A packet decodes to what was encoded, with as much of the buffer as its length covers. |
| `Messages.FlagTests` | include/talk.h:28-41 | The receiver's bit tests find exactly the operation, the weak verdict and the latency that the sender set, and no forced failure. |
| `Messages.MessageOnNetwork` | src/talk.c:95-117 | Every byte of a message: the flags as a number at offset 0, count, latency, weak time and worker at 4, 8, 16 and 24, most significant byte first, the reserved word zero, and behind the header the report or zeros. |
| `Messages.MessageRoundTrip` | src/talk.c:95-149 | Every message of the protocol survives its way over the wire. |
| `Streams.Pipe.Write` | src/net.c:367-421 | Through interruptions, full buffers and partial writes the loop puts exactly the next bytes of the buffer into the stream, as many as the calls allow and all of them when it succeeds; it stops early only at a failure. |
| `Streams.Pipe.Read` | src/net.c:243-280 | Through interruptions and partial reads the loop takes exactly the next bytes of the stream, as many as asked for, there and allowed by the calls, and all of them when it succeeds. |
| `Streams.Framing` | src/net.c:243-421 | Between a writer and a reader that use the same lengths, however reads and writes are split, interrupted and interleaved and however small the buffer, the k-th message decoded is the k-th encoded and what has been read of the next one is a prefix of it. |
| `Streams.NothingLost` | src/net.c:243-421 | With room for one byte in the buffer, a reader short of a written message can read, or its writer can write. |
| `Transcript.LockStepOfRuns` | src/talk.c:95-149 | Over every run from the start the peer has received a prefix of what the worker has sent, in order and unchanged, and the length it asked for at each receive, taken from its own stage, is that of the message sent. |
| `Transcript.AsksForExpected` | src/talk.c:119-128 | At a pending receive the length asked for is that of the expected message, even before it is sent. |
| `Transcript.WantedAgrees` | src/talk.c:95-128 | Over every run all lengths asked for, the pending one included, agree with the messages sent, the pending one included. |
| `Conversation.WholeConversation` | src/talk.c:95-1065 | In every completed run each worker has sent exactly its script and its peer has received exactly that: for each leg the pings or pongs, for each round the count with the latency and the numbered stream, or the start and the end with the verdict and its time, and at last FINISH or the report, every message with its length and all fields; handshake messages are 32 bytes, all others the payload size. |
| `WireLockStep.WrittenFits` | src/talk.c:95-117 | Every message of every run fits the struct, by bounds on the configuration and the measured times alone. |
| `WireLockStep.NextMessageDecodes` | src/talk.c:119-149 | In every reachable state the bytes of the next message are as many as its receiver asks for and decode to the operation it waits for and the fields its peer encoded. |
| `WireLockStep.FramingOfRuns` | src/talk.c:95-149 | For every run of the protocol and every schedule of partial reads and writes on a connection, the k-th message decoded is the k-th encoded, read by the length that the receiver takes from its own stage; its header fields lie at their offsets in network order, and it carries what was sent. |
| `Conn.Announce` | src/conn.c:46-140 | The 40 bytes an end sends, read most significant byte first: role, magic number, mode bits 1 to 3 with bits 4 to 14 set, workers, MTU, payload, timeouts, iterations, interval and delay at their own offsets from 12 on, two zero bytes, minimum time at 32 and multiplier at 36. |
| `Conn.SentAnnounces` | src/conn.c:82-140 | The same of the created and converted struct. |
| `Conn.Payload.constructor` | src/conn.c:82-140 | The created payload: role, magic, mode bits, every field, zero padding. |
| `Conn.Payload.Swap` | src/conn.c:46-80 | The in-place conversion of every field. |
| `Conn.HostNetworkHost` | src/conn.c:46-80 | Host to network to host is the identity on every payload. |
| `Conn.MatchIsEquality` | src/conn.c:42-44 | The byte comparison over the struct holds exactly when all compared fields and the padding agree. |
| `Conn.MatchIffSameSettings` | src/conn.c:82-140 | For accepted configurations the match holds exactly when all modes and settings agree; nothing is lost in narrowing. |
| `Conn.SameVerdict` | src/net.c:110-131 | Both ends reach the same verdict, and go on exactly when their settings are equal. |
| `Conn.VerdictExactly` | src/net.c:111-131 | The verdict on any 40 bytes received: unexpected exactly when the magic number or the role bit is wrong, else a mismatch exactly when some byte behind those two words differs from what the end itself sent. |
| `Conn.MatchGivesConfig` | src/net.c:196-213 | Ends that go on run the protocol with one and the same configuration, which meets the protocol proofs' hypotheses once serial workers are users of their barriers. |
| `Pairing.AcceptSameKind` | src/net.c:134-145 | A free listener worker can only accept a connection of its own kind. |
| `Pairing.PairsMatch` | src/runtime.c:118-144 | In every interleaving of both ends a connection joins two straight-first or two reverse-first workers, each in one connection only. |
| `Pairing.AllPaired` | src/runtime.c:118-144 | When all connectors of a kind, straight-first or reverse-first, have run, every listener worker of that kind has one of them as its peer. |
| `Pairing.StartGoesOn` | src/runtime.c:118-144 | As long as no worker has finished already, no reachable state of the start is stuck: some worker can be started, connected, accepted or answered until all are running. |
| `Sizing.Configuration.Init` | src/config.c:480-499 | The worker count is rounded up in asynchronous mode and split; the run is refused exactly for reverse-first asynchronous and for multi-worker or asynchronous UDP. |
| `Sizing.Configuration.WorkerInit` | src/worker.c:306-324 | The branches give each barrier its total. |
| `Sizing.Process.TalkDirection` | src/process.c:56-118 | The four role and direction functions set direction and role fields, initialise first when asked to, talk, and destroy last when asked to. |
| `Sizing.Process.Run` | src/process.c:120-190 | A worker's events are the initialisation, the talk phases of the protocol's legs with their directions and roles, the destruction and the exit, in this order and once each, in every mode. |
| `Sizing.ProgramSpelled` | src/process.c:120-190 | The events spelled out by flag, mode and end: the listener sends in the reverse direction, the connector in the straight one. |
| `Sizing.ReportedDirections` | src/process.c:201-230 | The reported directions are exactly the tested ones, in order. |
| `Sizing.UsesExactly` | src/talk.c:363-1065 | Which barriers a worker's path waits on, in every mode. |
| `Sizing.BarriersSized` | src/worker.c:306-324 | For every accepted configuration each barrier is initialised with exactly the number of workers whose path waits on it, and a barrier without users is not initialised. |
| `Sizing.SameWaits` | src/talk.c:832-1065 | By the end of a run all users of a barrier at one end have completed the same number of waits on it. |

## Left out

- Sockets, address resolution, `connect`, `accept`, socket options: foreign calls; the model keeps channels, a byte stream with arbitrary splitting, and a backlog.
- Real time, sleeps, receive timeouts and UDP loss in the protocol layers: durations and verdicts are arbitrary inputs; the timeout exit of the receive loop appears in `TalkContext.ReceiveStream` only, and the subtraction of the timeout from the duration is not modelled.
- Abort and fatal-error paths (`_talk_send_abort`, forced failure, process exit): they leave the run. An unexpected PONG flag or a missing FINISH, which the code only reports, does not leave it.
- The condition variable behind the main thread's waits (`worker_task_create`, `_runtime_wait_worker_flag`): its signals are sent without the matching mutex, and the wait polls every 125 ms, so a wait is modelled as going on once its test is true. That a RUNNING flag can be cleared before it is polled is in the model: `Lifecycle.StuckExactly`.
- Rounding of the floating-point multiplier and of the bandwidth figures; the link-speed tiers, packet-loss and fragmentation ratios: the multiplier is exact, the figures are presentation.
- The unused cancellation functions, the unsynchronised clearing of the counters in `talk_init` (all workers wait at a barrier after it), Windows variants, the payload buffer, option parsing, usage, JSON and text output, the pid file.
- The task objects of workers: their allocation and release are not modelled, the list nodes are.
- The steps of the 2W concurrent workers are functions on one state rather than methods on 2W objects, because they interleave; the counters themselves are given in place in TalkContext, the workers' records in Registry.
- Streams.Pipe.Write: a call sequence that runs out stands for a caller still waiting; the microsecond pause after a full buffer is not modelled.
- Registry.Table.Get: a lookup of another thread's id through the cache, which the code does not do, is excluded.
