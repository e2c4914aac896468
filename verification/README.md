# Round-trip workload: a verified model of its bookkeeping

The Trogdor round-trip workload (`RoundTripWorkerBase`) runs one cycle per activation: `start` prepares a single run, which

1. produces `maxMessages` messages, each keyed by its message index;
2. consumes them back;
3. is declared done once every index has been received and every send has been acknowledged.

This project models the bookkeeping that decides what to send, what to expect, and when the run is done:

- the **send tracker**: a frontier plus a FIFO queue of failed indices;
- the **receive tracker**: a sorted set of pending indices plus a count of first receipts;
- the **unacknowledged-send counter**, shared by the send callbacks and the consumer;
- the consumer's key decoding;
- the producer's round-robin choice of partition;
- the configuration checks made before the run;
- the status report;
- the worker's start/stop guard.

Each individual update in the source is atomic: it happens inside a `synchronized` tracker method or under the shared lock. Not every sequence of calls is atomic, though. Two cases matter here: the producer's `next()` followed by `addPending`, and the status report's two reads. The model makes each of them one step, and "## Left out" says what that hides. A run is modelled as any interleaving of the steps of the class `RoundTrip.RoundTrip`:

- the producer's step;
- a send callback;
- the consumer's handling of a record or a batch;
- the consumer's wait for acknowledgements.

Some facts are held only by the Kafka producer client, such as which sends are still in flight and which are acknowledged. A ghost `Accounting.Ledger` keeps them, with one `Stage` (Queued, InFlight or Acked) per index handed out. Every method of `RoundTrip` keeps `Accounting.Inv` on that ledger:

- the retry queue holds exactly the queued indices, each once;
- the counter equals `maxMessages` minus the number of acknowledged indices;
- first receipts plus pending indices equal the frontier.

The system-level properties are lemmas about the ledger:

- the bounds on the counters;
- the completion rule;
- the behaviour after the producer exits.

Modules:

| module | contents |
|---|---|
| `Common` | Option, Outcome and Result; index ranges; distinctness |
| `KeyCodec` | the signed 32-bit little-endian key decoding and its inverse |
| `Partitions` | the configuration checks; the round-robin partition iterator |
| `SendTracking` | the send tracker as a class, and `NextDraw`, the function that specifies `next()` |
| `ReceiveTracking` | the receive tracker as a class over an ascending sequence, and its sample for the log |
| `Accounting` | the ledger, its invariant, the steps as functions, and the lemmas about runs |
| `RoundTrip` | one run as a class whose methods are the producer, callback and consumer steps; the worker that starts and stops runs |

## Model

| member | source | states |
|---|---|---|
| `KeyCodec.DecodeIndex` | trogdor/src/main/java/org/apache/kafka/trogdor/workload/RoundTripWorkerBase.java:346 | A key decodes exactly when it has at least four bytes; a shorter key is a buffer underflow. The result is a signed 32-bit value, and it is non-negative exactly when the fourth byte is below 0x80. |
| `KeyCodec.DecodeEncodeIndex` | trogdor/src/main/java/org/apache/kafka/trogdor/workload/RoundTripWorkerBase.java:346 | A key whose first four bytes encode a 32-bit `v` little-endian decodes to `v`, whatever bytes follow. |
| `KeyCodec.EncodeDecodeIndex` | trogdor/src/main/java/org/apache/kafka/trogdor/workload/RoundTripWorkerBase.java:346 | Every four-byte key decodes, and it is the encoding of the value it decodes to. |
| `Partitions.CheckConfig` | trogdor/src/main/java/org/apache/kafka/trogdor/workload/RoundTripWorkerBase.java:133-149 | Preparation passes exactly when the target rate is positive and some partition is active. A non-positive rate is reported first. An empty active set is reported only when the rate is positive. |
| `Partitions.RoundRobin` | trogdor/src/main/java/org/apache/kafka/trogdor/workload/RoundTripWorkerBase.java:249-252 | The message sent `k`-th goes to partition `k mod n`, where the iterator restarts whenever it is exhausted. The iterator position after `k` sends is `(k-1) mod n + 1`, or 0 when `k` is 0. |
| `SendTracking.NextDrawFrontier` | trogdor/src/main/java/org/apache/kafka/trogdor/workload/RoundTripWorkerBase.java:194-199 | One call of `next()` never decreases the frontier. It advances it by at most one and never past `max(0, maxMessages)`. It advances it exactly when it hands out a first send, and that first send is the old frontier. |
| `SendTracking.FirstSendsAreConsecutive` | trogdor/src/main/java/org/apache/kafka/trogdor/workload/RoundTripWorkerBase.java:186-204 | Over any interleaving of `next()` and `addFailed` calls, the first sends handed out are exactly the indices from the starting frontier up to the final frontier, consecutively and in order. No index is a first send twice. |
| `SendTracking.FreshTrackerFirstSends` | trogdor/src/main/java/org/apache/kafka/trogdor/workload/RoundTripWorkerBase.java:180-204 | From a fresh tracker, the first sends of any interleaving of `next()` and `addFailed` calls are `0, 1, ..., k-1`, where `k` is the final frontier, at most `max(0, maxMessages)`. |
| `SendTracking.RetriesComeFirst` | trogdor/src/main/java/org/apache/kafka/trogdor/workload/RoundTripWorkerBase.java:201-202 | With failed indices queued, the next calls return them oldest first, each marked as a retry. The frontier stays unchanged, and afterwards the queue is empty. |
| `SendTracking.FirstSendsInOrder` | trogdor/src/main/java/org/apache/kafka/trogdor/workload/RoundTripWorkerBase.java:195-199 | With no retries queued and the frontier `f` below `maxMessages`, the calls return `f, f+1, ...` as first sends, advancing the frontier by one each. |
| `SendTracking.EachIndexSentFirstOnce` | trogdor/src/main/java/org/apache/kafka/trogdor/workload/RoundTripWorkerBase.java:194-204 | With no failures, a fresh tracker returns `0 .. maxMessages-1`, each once as a first send, and then nothing. |
| `SendTracking.ToSendTracker.constructor` | trogdor/src/main/java/org/apache/kafka/trogdor/workload/RoundTripWorkerBase.java:177-184 | A new tracker has frontier 0 and no failed index. |
| `SendTracking.ToSendTracker.AddFailed` | trogdor/src/main/java/org/apache/kafka/trogdor/workload/RoundTripWorkerBase.java:186-188 | The index goes to the back of the retry queue; the frontier is unchanged. |
| `SendTracking.ToSendTracker.Frontier` | trogdor/src/main/java/org/apache/kafka/trogdor/workload/RoundTripWorkerBase.java:190-192 | The frontier is between 0 and `max(0, maxMessages)`. |
| `SendTracking.ToSendTracker.Next` | trogdor/src/main/java/org/apache/kafka/trogdor/workload/RoundTripWorkerBase.java:194-204 | The result and the new state are those of `NextDraw`, about which the lemmas above are proved. |
| `ReceiveTracking.Insert` | trogdor/src/main/java/org/apache/kafka/trogdor/workload/RoundTripWorkerBase.java:294-296 | Sorted insertion into the ascending sequence keeps it ascending. Its elements become the old ones plus the index. |
| `ReceiveTracking.Remove` | trogdor/src/main/java/org/apache/kafka/trogdor/workload/RoundTripWorkerBase.java:298-305 | Sorted removal keeps the sequence ascending. Its elements become the old ones minus the index. |
| `ReceiveTracking.ToReceiveTracker.constructor` | trogdor/src/main/java/org/apache/kafka/trogdor/workload/RoundTripWorkerBase.java:289-292 | A new tracker has nothing pending and zero receipts. |
| `ReceiveTracking.ToReceiveTracker.AddPending` | trogdor/src/main/java/org/apache/kafka/trogdor/workload/RoundTripWorkerBase.java:294-296 | The index joins the pending set; the receipt count is unchanged. |
| `ReceiveTracking.ToReceiveTracker.RemovePending` | trogdor/src/main/java/org/apache/kafka/trogdor/workload/RoundTripWorkerBase.java:298-305 | The result is true exactly when the index was pending. The index is then not pending, and the count grows by one exactly when the result is true, so a second receipt of the same index is not counted. |
| `ReceiveTracking.ToReceiveTracker.Log` | trogdor/src/main/java/org/apache/kafka/trogdor/workload/RoundTripWorkerBase.java:311-321 | Changes nothing. It reports the number of pending indices and a sample of `min(that, 10)` of them, in ascending order, each smaller than every pending index left out. |
| `Accounting.Initial` | trogdor/src/main/java/org/apache/kafka/trogdor/workload/RoundTripWorkerBase.java:125 | The starting state, with the counter at `maxMessages`, satisfies the invariant. |
| `Accounting.ProduceKeepsInv` | trogdor/src/main/java/org/apache/kafka/trogdor/workload/RoundTripWorkerBase.java:238-248 | A producer step (`next()`, then `addPending` on a first send) keeps the invariant. In particular it keeps `totalReceived + pending == frontier`. |
| `Accounting.FirstSendKeepsInv` | trogdor/src/main/java/org/apache/kafka/trogdor/workload/RoundTripWorkerBase.java:244-245 | A first send puts the frontier index in flight and makes it pending, leaving the queue and counters unchanged; the invariant holds after it. |
| `Accounting.RetryKeepsInv` | trogdor/src/main/java/org/apache/kafka/trogdor/workload/RoundTripWorkerBase.java:238-243 | A retry takes the head of the queue and puts it back in flight; pending and the counters are unchanged. The invariant holds after it. |
| `Accounting.AcknowledgeKeepsInv` | trogdor/src/main/java/org/apache/kafka/trogdor/workload/RoundTripWorkerBase.java:257-271 | The callback of a send in flight keeps the invariant, whether it succeeds or fails. |
| `Accounting.AckSuccessKeepsInv` | trogdor/src/main/java/org/apache/kafka/trogdor/workload/RoundTripWorkerBase.java:258-266 | A successful acknowledgement decrements the counter by one; the counter stays equal to `maxMessages` minus the acknowledged indices. |
| `Accounting.AckFailureKeepsInv` | trogdor/src/main/java/org/apache/kafka/trogdor/workload/RoundTripWorkerBase.java:267-271 | A failed send re-queues its index once, at the back, and leaves the counter unchanged. The invariant holds after it. |
| `Accounting.DeliverKeepsInv` | trogdor/src/main/java/org/apache/kafka/trogdor/workload/RoundTripWorkerBase.java:347-348 | A receipt keeps the invariant and does not change what the producer draws next. |
| `Accounting.Bounds` | trogdor/src/main/java/org/apache/kafka/trogdor/workload/RoundTripWorkerBase.java:199-245 | In every reachable state, first receipts ≤ frontier ≤ `max(0, maxMessages)`. The counter is at least the number of indices not yet sent. |
| `Accounting.UnackedZeroIffAllAcked` | trogdor/src/main/java/org/apache/kafka/trogdor/workload/RoundTripWorkerBase.java:257-266 | When `maxMessages` is not negative, the counter is never negative, and it reaches zero exactly when all `maxMessages` indices have been sent and acknowledged. |
| `Accounting.Completion` | trogdor/src/main/java/org/apache/kafka/trogdor/workload/RoundTripWorkerBase.java:348-358 | Suppose unique receipts reach `maxMessages` (and at least one) and the counter is not positive. Then every index has been sent, acknowledged and received, nothing is queued for retry, and nothing is pending. |
| `Accounting.RetryStaysQueued` | trogdor/src/main/java/org/apache/kafka/trogdor/workload/RoundTripWorkerBase.java:267-271 | Without a producer drawing from the queue, a queued index stays queued, and so unacknowledged, whatever callbacks and receipts follow. |
| `Accounting.StrandedRetry` | trogdor/src/main/java/org/apache/kafka/trogdor/workload/RoundTripWorkerBase.java:238-241 | With one message, the producer loop as written exits while index 0 is in flight. If that send then fails, the counter stays at 1 after any further events. |
| `Accounting.ExitStrandsNothing` | trogdor/src/main/java/org/apache/kafka/trogdor/workload/RoundTripWorkerBase.java:238-241 | Under the corrected exit condition every index has been sent and acknowledged and nothing is queued. The invariant and the exit condition survive any later callbacks and receipts. |
| `RoundTrip.DrainRemovesDecoded` | trogdor/src/main/java/org/apache/kafka/trogdor/workload/RoundTripWorkerBase.java:345-348 | Processing a batch removes from the pending set exactly the indices its keys decode to. |
| `RoundTrip.RoundTrip.constructor` | trogdor/src/main/java/org/apache/kafka/trogdor/workload/RoundTripWorkerBase.java:125 | A new run has both trackers empty and the counter at `maxMessages`, and it satisfies the invariant. |
| `RoundTrip.RoundTrip.Draw` | trogdor/src/main/java/org/apache/kafka/trogdor/workload/RoundTripWorkerBase.java:238-245 | The tracker draw, and `addPending` on a first send, move the run as `Produce` says, keeping the invariant. |
| `RoundTrip.RoundTrip.ProducerStep` | trogdor/src/main/java/org/apache/kafka/trogdor/workload/RoundTripWorkerBase.java:237-256 | A send is issued exactly when the tracker hands out an index, and it goes to partition `messagesSent mod n`. The loop ends exactly when nothing is handed out and the counter is not positive. |
| `RoundTrip.RoundTrip.AckSend` | trogdor/src/main/java/org/apache/kafka/trogdor/workload/RoundTripWorkerBase.java:257-271 | On success the counter goes down by one. On failure the index is appended to the retry queue and the counter is unchanged. Under the corrected exit of `ProducerStep`, a callback never finds the producer exited. |
| `RoundTrip.RoundTrip.Receive` | trogdor/src/main/java/org/apache/kafka/trogdor/workload/RoundTripWorkerBase.java:347-349 | A receipt counts exactly when the index was pending. The consumer's unique count grows by one exactly then. |
| `RoundTrip.RoundTrip.ConsumeRecord` | trogdor/src/main/java/org/apache/kafka/trogdor/workload/RoundTripWorkerBase.java:345-350 | A key that does not decode aborts the consumer. A counted receipt that brings the unique count to `maxMessages` starts the wait for acknowledgements. Otherwise the consumer keeps polling. |
| `RoundTrip.AllDecodableMeaning` | trogdor/src/main/java/org/apache/kafka/trogdor/workload/RoundTripWorkerBase.java:346 | A batch is `AllDecodable` exactly when none of its keys is shorter than four bytes. |
| `RoundTrip.RoundTrip.ConsumeNext` | trogdor/src/main/java/org/apache/kafka/trogdor/workload/RoundTripWorkerBase.java:345-350 | One record of a batch whose earlier records were all decoded and drained. Either its key is too short and the consumer aborts with pending unchanged, or it is drained too. The wait starts only at the full count, and the consumer keeps polling only while the count is below it. |
| `RoundTrip.RoundTrip.ConsumeRecords` | trogdor/src/main/java/org/apache/kafka/trogdor/workload/RoundTripWorkerBase.java:344-350 | Processing stops at the first key shorter than four bytes, or at the first record that brings the count to `maxMessages`, and otherwise covers the whole batch. Every record before the stopping point decoded and was drained from the pending set. While the run is below the full count, only a `TargetReached` result reaches it. Nothing on the send side changes. |
| `RoundTrip.RoundTrip.AwaitAcks` | trogdor/src/main/java/org/apache/kafka/trogdor/workload/RoundTripWorkerBase.java:350-363 | The wait passes exactly when the counter is not positive. The run then finishes with status `(maxMessages, maxMessages)`, every index acknowledged, and nothing queued or pending. |
| `RoundTrip.RoundTrip.Status` | trogdor/src/main/java/org/apache/kafka/trogdor/workload/RoundTripWorkerBase.java:399-401 | The status is the send tracker's frontier and the receive tracker's count, read as one atomic snapshot, with 0 ≤ received ≤ sent ≤ `max(0, maxMessages)`. |
| `Accounting.TornStatusRead` | trogdor/src/main/java/org/apache/kafka/trogdor/workload/RoundTripWorkerBase.java:399-401 | The source reads the two counters in separate calls. If every index handed out has been received, a first send and its receipt between the two reads make the report show one more receipt than distinct sends. |
| `RoundTrip.RoundTripWorker.Start` | trogdor/src/main/java/org/apache/kafka/trogdor/workload/RoundTripWorkerBase.java:116-126 | Starting a running worker fails and changes nothing. Otherwise the worker becomes running and either records the configuration error or holds a fresh run in its initial state. |
| `RoundTrip.RoundTripWorker.Stop` | trogdor/src/main/java/org/apache/kafka/trogdor/workload/RoundTripWorkerBase.java:446-449 | Stopping a worker that is not running fails, so a second stop is rejected. Otherwise the worker stops and drops its run. |

## Left out

- The `Throttle` and `WorkerUtils.perSecToPerPeriod` rate limiting: their behaviour depends on the wall clock.
- Threads, the executor, the lock and its condition:
  - each step is one atomic method;
  - the consumer's blocking wait is `AwaitAcks`, which returns nothing while the counter is positive;
  - the signal on the condition has no counterpart.
- The Kafka clients:
  - `KafkaProducer.send` becomes the `Send` value a producer step returns, and its callback is `AckSend` with the outcome as an input;
  - a poll (`fetchRecords`) is a sequence of keys passed to `ConsumeRecords`;
  - `initializeConsumer` and `shutdownConsumer` are not modelled.
- Topic creation, JSON serialisation, `status.update`, logging, and the 5-second log cadence:
  - `Log` returns its count and sample instead of writing them;
  - `AwaitAcks` and `Status` return the status instead of publishing it.
- The key and value generators. The model keys each message by its index, and does not model indices at or above 2^31, whose four-byte keys would be truncated.
- 64-bit `long` overflow: the counters are unbounded integers.
- `doneFuture` and `WorkerUtils.abort`:
  - an undecodable key ends the consumer in the `Aborted` phase;
  - a failed configuration check is recorded in `prepareError`;
  - a successful run ends in `Finished`.
- The preparation step runs on the executor in the source; here `Start` runs it at once.
- The closing of the executor, consumer and producer in `stop`.
- Records with a null key.
- The log-only counters `messagesReceived`, `pollInvoked` and `uniqueMessagesSent`.
- The iteration order of the `HashSet` of active partitions: partitions are a sequence without repeats, in the order the producer's iterator visits them.
- `RoundTrip.RoundTrip.AckSend` requires its index to be in flight, because the producer client runs each send's callback once. Its promise that the producer has not exited holds only under the corrected exit: in the loop as written, a callback can run after the loop has ended (see Findings).
- `RoundTrip.RoundTrip.Status` reads the frontier and the receipt count in one step. The source makes two separate synchronized calls, so a published report can show received = sent + 1 (`Accounting.TornStatusRead`). The bound received ≤ sent holds only of the atomic snapshot.
- `RoundTrip.RoundTrip.Draw` makes `next()` and `addPending` one atomic step. In the source they are two separate synchronized calls, with the throttle between them. A `log()` or status report in that gap sees an index handed out but not yet pending, where `totalReceived + |pending| == frontier` does not hold; the model does not represent that intermediate state.
- `RoundTrip.RoundTrip.ProducerStep` uses the corrected exit condition described under Findings, not the loop as written.

## Findings

| source | as written | input that shows it | evidently intended | confidence | as-written member | corrected member |
|---|---|---|---|---|---|---|
| trogdor/src/main/java/org/apache/kafka/trogdor/workload/RoundTripWorkerBase.java:238-241 | The producer loop ends as soon as `next()` returns null, even while sends are in flight. A send that fails afterwards re-queues its index, but nothing draws it any more. | `maxMessages = 1`: index 0 is sent, the loop exits, and the send then fails. The counter then stays at 1 whatever follows. If the failed send never reached the topic, the consumer keeps polling for index 0; otherwise it reaches its wait and the counter never lets it pass. Either way the run never completes. | The producer leaves only when nothing is handed out and no send is unacknowledged. | medium, not executed | `Accounting.StrandedRetry` | `Accounting.ExitStrandsNothing` |
