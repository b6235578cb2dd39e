# File-scan stream driver, modelled in Dafny

This project models the driver at the heart of `FileStream` in the native
engine's file-format layer. A `FileStream` scans the files of one file group
one after another. For each file it takes the file from the front of its
queue, asks the format reader to open it, waits for the open future, and then
drains the batch sub-stream the future resolves to. Each batch is stamped with
the file's partition values by the partition-column projector. Batches are
counted against an optional global row limit, and the batch that reaches the
limit is cut short. The stream is in one of five states: `Idle`, `Open`,
`Scan`, `Error` and `Limit`. `Error` and `Limit` are terminal.

The asynchronous machinery is abstracted away, which leaves a deterministic
step function:

- A batch is its row count plus the partition values it was projected with
  (`ScanTypes.Batch`). `slice(0, n)` keeps the first `n` rows and the tag.
- An open future is `Future(pendingPolls, result)`. It answers `Pending` to its
  first `pendingPolls` polls and `Ready(result)` after that.
- A sub-stream is the sequence of answers it gives to successive polls: `Pending`,
  `Ready(Some(Ok(batch)))`, `Ready(Some(Err(e)))` or `Ready(None)`. A used-up
  sequence keeps answering `Ready(None)`.
- The reader's `open` and the projector are opaque functions in `ScanTypes.Env`.
  The projector may fail.
- One turn of the `loop` in `poll_inner` is `Driver.LoopBody`. `Driver.PollInner`
  repeats turns until one of them answers.

Modules, in dependency order:

- `Wrappers`: `Option`, `Result` and `Poll`.
- `ScanTypes`: batches, files, configuration, futures, sub-streams and the collaborators.
- `Driver`: the state, `New`, the row-limit governor `Govern`, `LoopBody`, `PollInner` and `PollNext`.
- `Trace`: runs of `n` polls, with row accounting, terminality and the partition-value invariant.
  The accounting and terminality lemmas hold for any poll function that keeps the guarantees `Driver.PollInner` proves
  of one poll. `Trace.PollOfSound` shows the stream's own poll, `PollOf(env)`, is one of them.
- `Reference`: a list-level description of everything a stream yields, and the proof that each poll
  delivers the next item of it. It also proves properties of that description: truncation, queue
  order, errors coming last, and partition values.
- `Progress`: a work measure showing every stream ends, and the end-to-end theorems.
- `Scenarios`: concrete scans worked through poll by poll.

Two behaviours of the code are worth noting:

- The governor's test is strict (`*remain > batch.num_rows()`). When the budget equals
  the batch's row count, the whole batch goes out through `slice(0, remain)`. The budget
  becomes 0 and the stream enters `Limit` on that same poll. So, when at least one batch
  arrives, a limit equal to the rows on offer ends through `Limit`, not through an exhausted
  queue (`Scenarios.LimitEqualsTotal`). When neither a batch nor an error arrives, even a limit
  of 0 ends in `Idle` with an empty queue (`Scenarios.EmptyFileZeroLimit`). An error that arrives
  first ends the stream in `Error` with the budget untouched. Whichever way the stream ends, the
  items it delivers are `Truncate(Unlimited(group), limit)` (`Progress.ScanDelivers`).
- No check is made that a batch's schema matches the projected schema.

## Model

| member | source | states |
|---|---|---|
| `ScanTypes.Slice` | native-engine/datafusion-ext/src/file_format/file_stream.rs:187 | The slice keeps exactly the requested rows and the batch's partition values. Slicing to the full row count gives the batch back unchanged. |
| `Driver.New` | native-engine/datafusion-ext/src/file_format/file_stream.rs:108-134 | A new stream queues the chosen file group in order. Its row budget is the configured limit and it starts in `Idle`. The group index must be in range, as the indexing at :122 requires. |
| `Driver.Govern` | native-engine/datafusion-ext/src/file_format/file_stream.rs:181-194 | With no limit the batch passes untouched. Otherwise rows let through plus budget left equal the budget before. The limit is reached exactly when the budget is at most the batch's row count, and then the budget becomes 0. A batch that does not reach the limit passes whole. The result never has more rows than the input and keeps its partition values. |
| `Driver.LoopBody` | native-engine/datafusion-ext/src/file_format/file_stream.rs:140-207 | One loop turn. `Error` and `Limit` answer end-of-sequence and change nothing. `Idle` with an empty queue does the same and opens nothing. `Idle` pops exactly the front file and moves to `Open` with that file's future and partition values. A resolved open moves to `Scan` with the same partition values, and a failed one answers its error in `Error`. An ended sub-stream returns to `Idle` without answering. `Pending` is answered exactly when the awaited collaborator is not ready. An error is what moves a live stream to `Error`. `Limit` is entered exactly with a batch that leaves a zero budget. Rows let through plus budget left equal the budget before. |
| `Driver.PollInner` | native-engine/datafusion-ext/src/file_format/file_stream.rs:136-209 | A whole poll has the same properties. The queue only loses files at its front. End-of-sequence is answered only when the resulting stream is exhausted, and an exhausted stream answers it and stays unchanged. A collaborator that is not ready leaves the queue, budget, phase and partition values unchanged. Row accounting holds for the poll, and anything but a batch leaves the budget alone. |
| `Driver.PollNext` | native-engine/datafusion-ext/src/file_format/file_stream.rs:215-221 | The metrics pass-through answers end-of-sequence, without change, for an exhausted stream. It answers end-of-sequence only when the resulting stream is exhausted. |
| `Trace.PollOfSound` | native-engine/datafusion-ext/src/file_format/file_stream.rs:136-221 | The stream's own poll keeps every single-poll guarantee that the run lemmas below assume. These are exhaustion, a queue that only loses its front, an unchanged schema, end-of-sequence only when exhausted, the `Error` and `Limit` conditions, and row accounting. |
| `Trace.RunAccounting` | native-engine/datafusion-ext/src/file_format/file_stream.rs:181-194 | Take any number of polls by the stream's poll, or any poll keeping its guarantees. With a limit, the rows emitted plus the budget left equal the initial limit, so the rows emitted never exceed it. Without a limit the budget stays `None`. The queue only loses files at its front. |
| `Trace.RunAfterEnd` | native-engine/datafusion-ext/src/file_format/file_stream.rs:204-206 | An exhausted stream (`Error`, `Limit`, or `Idle` with an empty queue) answers end-of-sequence to every later poll and never changes. |
| `Trace.EmptyGroupEnds` | native-engine/datafusion-ext/src/file_format/file_stream.rs:125-146 | A new stream over an empty file group answers only end-of-sequence and never opens a file, whatever its limit. |
| `Trace.EndThenSilence` | native-engine/datafusion-ext/src/file_format/file_stream.rs:143-206 | Once a poll has answered end-of-sequence, every later poll answers end-of-sequence too. |
| `Trace.ErrorThenSilence` | native-engine/datafusion-ext/src/file_format/file_stream.rs:169-200 | An error is answered once. Every later poll answers end-of-sequence. |
| `Trace.LimitThenSilence` | native-engine/datafusion-ext/src/file_format/file_stream.rs:183-190 | Take the batch that brings the rows emitted up to the budget. Every poll after it answers end-of-sequence. |
| `Trace.PollKeepsProvenance` | native-engine/datafusion-ext/src/file_format/file_stream.rs:143-167 | Suppose a stream in `Open` or `Scan` holds the partition values of the file it last took from the original queue. After a poll this still holds. |
| `Trace.RunKeepsProvenance` | native-engine/datafusion-ext/src/file_format/file_stream.rs:154-167 | The same holds after any number of polls. |
| `Trace.NewKeepsProvenance` | native-engine/datafusion-ext/src/file_format/file_stream.rs:122-167 | Every state a new stream reaches holds the partition values of the file it is working on, taken front to back from its group. |
| `Reference.BatchTurnRefines` | native-engine/datafusion-ext/src/file_format/file_stream.rs:178-200 | Take a loop turn that receives a batch from the sub-stream. What it answers is the first item still to come: the projector's error, or the projected batch after the governor. |
| `Reference.TurnRefines` | native-engine/datafusion-ext/src/file_format/file_stream.rs:140-207 | A loop turn that carries on keeps the items still to come. A turn that answers delivers exactly their first item. |
| `Reference.PollRefines` | native-engine/datafusion-ext/src/file_format/file_stream.rs:136-209 | A poll delivers the next item still to come, if it delivers one, and leaves the rest to come. |
| `Reference.PollOfRefines` | native-engine/datafusion-ext/src/file_format/file_stream.rs:136-221 | For every state, the stream's poll delivers the first of the items still to come, if anything, and leaves the rest to come. |
| `Reference.RunRefines` | native-engine/datafusion-ext/src/file_format/file_stream.rs:136-221 | Take any poll that delivers the next item still to come each time, the stream's own among them. The items delivered by any run of its polls, in order, followed by what is left, are what the stream had to yield. |
| `Reference.TruncateRowsBound` | native-engine/datafusion-ext/src/file_format/file_stream.rs:181-194 | The row limit never lets more rows through than its budget. |
| `Reference.TruncateRowsExact` | native-engine/datafusion-ext/src/file_format/file_stream.rs:181-194 | Without errors, the row limit lets through exactly the smaller of its budget and the rows on offer. |
| `Reference.TruncateRowsPrefix` | native-engine/datafusion-ext/src/file_format/file_stream.rs:183-190 | The row limit keeps a prefix of the items. Only the last item kept may be cut short, and it keeps its partition values. When the budget exceeds the rows on offer, nothing is cut. |
| `Reference.ZeroBudget` | native-engine/datafusion-ext/src/file_format/file_stream.rs:186-190 | A zero budget lets through the first batch cut to no rows, and nothing after it. |
| `Reference.UnlimitedAppend` | native-engine/datafusion-ext/src/file_format/file_stream.rs:143-202 | Files are scanned in queue order. The items of a queue are the items of its front part, then the items of the rest, unless the front part ended in an error. |
| `Reference.SingleFile` | native-engine/datafusion-ext/src/file_format/file_stream.rs:143-202 | A queue of one file yields exactly that file's items. |
| `Reference.StreamErrorsOnlyLast` | native-engine/datafusion-ext/src/file_format/file_stream.rs:177-200 | Among a sub-stream's projected items, only the last can be an error. |
| `Reference.UnlimitedErrorsOnlyLast` | native-engine/datafusion-ext/src/file_format/file_stream.rs:162-200 | Among everything a queue yields, only the last item can be an error. |
| `Reference.StreamStamped` | native-engine/datafusion-ext/src/file_format/file_stream.rs:174-180 | Suppose the projector stamps the values it is given. Then every batch a sub-stream yields carries the partition values the driver holds for it. |
| `Reference.FileStamped` | native-engine/datafusion-ext/src/file_format/file_stream.rs:154-180 | Under the same assumption, every batch a file yields carries that file's partition values. |
| `Progress.TurnProgress` | native-engine/datafusion-ext/src/file_format/file_stream.rs:140-207 | Every loop turn uses up work, except one that answers end-of-sequence. |
| `Progress.PollProgress` | native-engine/datafusion-ext/src/file_format/file_stream.rs:136-209 | Every poll that does not answer end-of-sequence uses up work. |
| `Progress.PollOfProgress` | native-engine/datafusion-ext/src/file_format/file_stream.rs:136-221 | For every state, the stream's poll uses up work unless it answers end-of-sequence. |
| `Progress.RunEnds` | native-engine/datafusion-ext/src/file_format/file_stream.rs:136-221 | Take a poll that keeps the single-poll guarantees and uses up work, as the stream's own does. For collaborators that finish (every future resolves after finitely many polls and every sub-stream is a finite list of answers), that much work in polls brings the stream to an exhausted state. |
| `Progress.ScanDelivers` | native-engine/datafusion-ext/src/file_format/file_stream.rs:108-209 | For collaborators that finish, a new stream polled often enough ends. On the way it delivers each file's items in queue order, stopping at the first error, cut down to the configured limit. |
| `Progress.DeliveredSound` | native-engine/datafusion-ext/src/file_format/file_stream.rs:181-200 | After any number of polls, the rows delivered never exceed the limit. An error is only ever the last item delivered. |
| `Scenarios.TwoFilesNoLimit` | native-engine/datafusion-ext/src/file_format/file_stream.rs:143-202 | Files with batches [3, 2] and [4] and no limit yield 3, 2 and 4 rows, then the end. |
| `Scenarios.MidBatchTruncation` | native-engine/datafusion-ext/src/file_format/file_stream.rs:183-190 | One file of [5, 5] under limit 7 yields 5, then 2, then the end, in `Limit`. |
| `Scenarios.LimitEqualsTotal` | native-engine/datafusion-ext/src/file_format/file_stream.rs:183-190 | One file of [5, 5] under limit 10 yields 5 and 5, then the end, and finishes in `Limit`. |
| `Scenarios.ZeroLimit` | native-engine/datafusion-ext/src/file_format/file_stream.rs:183-190 | Under limit 0 the first batch is emitted with 0 rows and then the stream ends in `Limit`. The next file is never opened. |
| `Scenarios.OpenErrorOnSecondFile` | native-engine/datafusion-ext/src/file_format/file_stream.rs:162-172 | The second file fails to open. The first file's batch comes out, then the open error, then the end. The third file stays in the queue. |
| `Scenarios.ProjectorFailure` | native-engine/datafusion-ext/src/file_format/file_stream.rs:179-200 | A projector that rejects the batch gives its error, then the end. |
| `Scenarios.DecodeErrorAfterBatch` | native-engine/datafusion-ext/src/file_format/file_stream.rs:174-200 | A file whose sub-stream yields a batch of 3 and then a decode error gives the batch, the error, then the end. The stream is in `Error` and the next file stays in the queue. |
| `Scenarios.EmptyFileZeroLimit` | native-engine/datafusion-ext/src/file_format/file_stream.rs:140-146 | Under limit 0, a single file whose sub-stream yields no batch gives only the end. The stream finishes in `Idle` with an empty queue, not in `Limit`. |
| `Scenarios.PendingOpen` | native-engine/datafusion-ext/src/file_format/file_stream.rs:159-167 | An open future that is not ready for two polls gives two `Pending` answers, then the file's batch. |

## Left out

- Rust's async plumbing (`Context`, wakers, `Pin`, boxed futures and streams, `Send`/`Sync`). Readiness is part of the scripted future or sub-stream.
- `BaselineMetrics::record_poll` (:220). It only records metrics, so `PollNext` passes the answer through.
- `FsProvider`, `TaskContext` and the contents of `ObjectMeta` and `FileRange`. They are handed to the reader and never inspected.
- The format readers' `open` implementations and file decoding. They are foreign code, here an opaque function.
- The internals of `PartitionColumnProjector` and how `config.project()` derives the schema. They are not part of this model: the projector is an opaque, possibly failing function, and the projected schema is an opaque value in the configuration.
- The partition-value guarantees (`Reference.StreamStamped`, `Reference.FileStamped`) assume the projector stamps the values it is given, because its code is not part of this model.
- The contents of Arrow record batches, and how `slice` is implemented. A batch is its row count and partition-value tag.
- Dropping and cancelling the stream. No model of resources exists.
- Futures that stay pending forever. A future's pending polls are a finite count, and any finite run of polls is covered by a large enough count.
- Sub-streams that never end or answer `Pending` forever. A sub-stream is a finite list of answers, so these cannot be expressed. Any finite run of polls is covered by a long enough list. `Progress.RunEnds` and the "it ends" half of `Progress.ScanDelivers` hold only for collaborators that finish.
- `Driver.New`: an out-of-range partition index panics in the source (:122). The model requires it in range.
- `Driver.PollInner`: a `Pending` answer leaves the queue, budget, phase and partition values unchanged, not the whole state. The model keeps the collaborator's own progress inside the state: the pending polls left, or the unconsumed events.
- `Driver.SchemaOf` (:224-228) only returns the stored schema, so it has no contract. `Driver.PollInner` proves the schema never changes.
- `remain` is a `usize` in the source and a `nat` here. It is only decreased under the guard `remain > rows`, so no wrap-around can happen.
