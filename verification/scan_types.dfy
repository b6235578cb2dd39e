/** The values the driver handles and the collaborators it talks to, reduced to
    what the driver observes of them. */
module ScanTypes {
  import opened Wrappers

  /** A partition-column value, kept as its textual rendering. */
  type ScalarValue = string

  /** The error a reader, a sub-stream or the projector may report. */
  datatype ScanError = ScanError(message: string)

  /** A record batch reduced to its row count and the partition values it was
      projected with (empty for a batch fresh out of a reader). */
  datatype Batch = Batch(rows: nat, partitionValues: seq<ScalarValue>)

  /** The first `len` rows of `b`: a zero-copy `slice(0, len)`, which keeps the
      columns, and so the partition values, of `b`. */
  function Slice(b: Batch, len: nat): (r: Batch)
    requires len <= b.rows
    ensures r.rows == len && r.rows <= b.rows
    ensures r.partitionValues == b.partitionValues
    ensures len == b.rows ==> r == b
  {
    Batch(len, b.partitionValues)
  }

  /** Where a file lives; handed to the reader and never inspected. */
  datatype ObjectMeta = ObjectMeta(location: string, size: nat)

  /** An optional byte range of a file; handed to the reader and never inspected. */
  datatype FileRange = FileRange(start: int, end: int)

  datatype PartitionedFile = PartitionedFile(
    objectMeta: ObjectMeta,
    range: Option<FileRange>,
    partitionValues: seq<ScalarValue>)

  /** The projected schema; how it is derived is not part of this model. */
  datatype Schema = Schema(fields: seq<string>)

  /** What a file-scan configuration contributes to one stream. `projectedSchema`
      stands for the first half of `config.project()`. `tablePartitionCols` is
      only read when the partition-column projector is built, which this model
      leaves to the opaque projector in `Env`. No member reads it. */
  datatype FileScanConfig = FileScanConfig(
    projectedSchema: Schema,
    tablePartitionCols: seq<string>,
    fileGroups: seq<seq<PartitionedFile>>,
    limit: Option<nat>)

  /** One answer of a batch sub-stream to a poll. */
  type Event = Poll<Option<Result<Batch, ScanError>>>

  /** A batch sub-stream, as the answers it gives to successive polls. Once the
      sequence is used up the sub-stream keeps answering `Ready(None)`. */
  type SubStream = seq<Event>

  /** An open future: it answers `Pending` to its first `pendingPolls` polls and
      `Ready(result)` after that. */
  datatype Future = Future(pendingPolls: nat, result: Result<SubStream, ScanError>)

  /** The collaborators: the format reader's `open` and the partition-column
      projector, both opaque functions. */
  datatype Env = Env(
    open: (ObjectMeta, Option<FileRange>) -> Future,
    project: (Batch, seq<ScalarValue>) -> Result<Batch, ScanError>)

  /** One poll of a sub-stream: its answer and the sub-stream left after it. */
  function PollStream(reader: SubStream): (r: (Event, SubStream))
    ensures |reader| == 0 ==> r == (Ready(None), [])
    ensures |reader| > 0 ==> reader == [r.0] + r.1
  {
    if |reader| == 0 then (Ready(None), []) else (reader[0], reader[1..])
  }

  /** One poll of an open future: its answer and the future left after it. */
  function PollFuture(f: Future): (r: (Poll<Result<SubStream, ScanError>>, Future))
    ensures r.0.Pending? <==> f.pendingPolls > 0
    ensures r.0.Pending? ==> r.1.result == f.result && r.1.pendingPolls + 1 == f.pendingPolls
    ensures r.0.Ready? ==> r.0.value == f.result && r.1 == f
  {
    if f.pendingPolls > 0 then (Pending, f.(pendingPolls := f.pendingPolls - 1))
    else (Ready(f.result), f)
  }
}
