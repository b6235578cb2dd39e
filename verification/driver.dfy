/** The file-scan stream: a queue of files scanned one after another, each
    opened by the reader, drained batch by batch, stamped with the file's
    partition values and cut off at an optional global row limit. */
module Driver {
  import opened Wrappers
  import opened ScanTypes

  type Item = Result<Batch, ScanError>

  /** What one poll of the stream answers. */
  type Output = Poll<Option<Item>>

  datatype FileStreamState =
    | Idle
      /** Waiting on the reader's open future for a file. */
    | Open(future: Future, partitionValues: seq<ScalarValue>)
      /** Draining the sub-stream the open future resolved to. */
    | Scan(partitionValues: seq<ScalarValue>, reader: SubStream)
    | Error
    | Limit

  /** The driver-owned part of the stream. `remain` is the number of rows still
      allowed, `None` when there is no limit. */
  datatype FileStream = FileStream(
    files: seq<PartitionedFile>,
    projectedSchema: Schema,
    remain: Option<nat>,
    state: FileStreamState)

  /** The answer of one poll together with the stream it leaves behind. */
  datatype Step = Step(output: Output, next: FileStream)

  predicate Terminal(s: FileStream) {
    s.state.Error? || s.state.Limit?
  }

  /** No poll of `s` can yield anything any more. */
  predicate Exhausted(s: FileStream) {
    Terminal(s) || (s.state.Idle? && s.files == [])
  }

  predicate IsBatch(o: Output) {
    o.Ready? && o.value.Some? && o.value.value.Ok?
  }

  predicate IsError(o: Output) {
    o.Ready? && o.value.Some? && o.value.value.Err?
  }

  /** Rows carried by one poll's answer. */
  function RowsOf(o: Output): (n: nat)
    ensures !IsBatch(o) ==> n == 0
  {
    if IsBatch(o) then o.value.value.value.rows else 0
  }

  /** `a` is what is left of `b` after dropping some elements from its front. */
  predicate IsSuffix<T(==)>(a: seq<T>, b: seq<T>)
    decreases |b|
  {
    a == b || (|b| > 0 && IsSuffix(a, b[1..]))
  }

  lemma {:induction false} SuffixTrans<T>(a: seq<T>, b: seq<T>, c: seq<T>)
    requires IsSuffix(a, b) && IsSuffix(b, c)
    ensures IsSuffix(a, c)
    decreases |c|
  {
    if b != c {
      SuffixTrans(a, b, c[1..]);
    }
  }

  lemma {:induction false} SuffixShape<T>(a: seq<T>, b: seq<T>)
    requires IsSuffix(a, b)
    ensures |a| <= |b| && a == b[|b| - |a|..]
    decreases |b|
  {
    if a != b {
      SuffixShape(a, b[1..]);
    }
  }

  /** The state as the driver sees it, forgetting how far the collaborator it
      waits on has progressed. */
  datatype Phase = IdlePhase | OpenPhase(pv: seq<ScalarValue>) | ScanPhase(pv: seq<ScalarValue>) | ErrorPhase | LimitPhase

  function PhaseOf(st: FileStreamState): Phase {
    match st
    case Idle => IdlePhase
    case Open(_, pv) => OpenPhase(pv)
    case Scan(pv, _) => ScanPhase(pv)
    case Error => ErrorPhase
    case Limit => LimitPhase
  }

  /** The collaborator the stream waits on is not ready at this poll. */
  predicate Parked(s: FileStream) {
    || (s.state.Open? && s.state.future.pendingPolls > 0)
    || (s.state.Scan? && |s.state.reader| > 0 && s.state.reader[0].Pending?)
  }

  /** A fresh stream over one file group: every file still queued, the
      configured limit as the row budget, nothing opened yet. */
  function New(config: FileScanConfig, partition: nat): (s: FileStream)
    requires partition < |config.fileGroups|
    ensures s.files == config.fileGroups[partition]
    ensures s.remain == config.limit
    ensures s.state.Idle? && s.projectedSchema == config.projectedSchema
  {
    FileStream(config.fileGroups[partition], config.projectedSchema, config.limit, Idle)
  }

  /** The outcome of the row-limit governor on one projected batch. */
  datatype Governed = Governed(batch: Batch, remain: Option<nat>, reachedLimit: bool)

  /** The row-limit governor: with no limit the batch passes untouched; while
      the budget exceeds the batch the batch passes and is charged; otherwise
      only the budget's worth of rows is let through and the limit is hit. */
  function Govern(remain: Option<nat>, b: Batch): (g: Governed)
    ensures remain.None? ==> g == Governed(b, None, false)
    ensures remain.Some? ==> g.remain.Some? && g.batch.rows + g.remain.value == remain.value
    ensures g.reachedLimit <==> remain.Some? && remain.value <= b.rows
    ensures g.reachedLimit ==> g.remain == Some(0)
    ensures !g.reachedLimit ==> g.batch == b
    ensures g.batch.rows <= b.rows && g.batch.partitionValues == b.partitionValues
  {
    match remain
    case None => Governed(b, None, false)
    case Some(r) =>
      if r > b.rows then Governed(b, Some(r - b.rows), false)
      else Governed(Slice(b, r), Some(0), true)
  }

  /** Orders the phases so that every turn of the driver loop that does not
      return goes down: a turn either pops a file or moves from Open to Scan
      or from Scan to Idle. */
  function Rank(st: FileStreamState): nat {
    match st
    case Open(_, _) => 2
    case Scan(_, _) => 1
    case _ => 0
  }

  function Measure(s: FileStream): nat {
    3 * |s.files| + Rank(s.state)
  }

  /** The result of one turn of the driver loop: carry on with a new state, or
      return an answer from the poll. */
  datatype Turn = Continue(next: FileStream) | Return(step: Step)

  /** One turn of the driver loop. */
  function LoopBody(s: FileStream, env: Env): (r: Turn)
    // Error and Limit answer end-of-sequence without changing anything.
    ensures Terminal(s) ==> r == Return(Step(Ready(None), s))
    // An idle stream with an empty queue ends the sequence without opening anything.
    ensures s.state.Idle? && s.files == [] ==> r == Return(Step(Ready(None), s))
    // End-of-sequence is answered only from those two situations.
    ensures r.Return? && r.step.output == Ready(None) ==> Exhausted(s) && r.step.next == s
    // Idle pops exactly the front file and waits on its open future with its partition values.
    ensures s.state.Idle? && s.files != [] ==>
              var f := s.files[0];
              r == Continue(s.(files := s.files[1..], state := Open(env.open(f.objectMeta, f.range), f.partitionValues)))
    // A resolved open moves to Scan with the same partition values; a failed one reports its error.
    ensures s.state.Open? && s.state.future.pendingPolls == 0 ==>
              match s.state.future.result
              case Ok(reader) => r == Continue(s.(state := Scan(s.state.partitionValues, reader)))
              case Err(e) => r == Return(Step(Ready(Some(Err(e))), s.(state := Error)))
    // A sub-stream that has ended sends the driver back to Idle with nothing emitted.
    ensures s.state.Scan? && PollStream(s.state.reader).0 == Ready(None) ==> r == Continue(s.(state := Idle))
    // Turns that carry on keep the budget, only shorten the queue at its front, and make progress.
    ensures r.Continue? ==>
              && Measure(r.next) < Measure(s) && !Terminal(r.next)
              && r.next.remain == s.remain && r.next.projectedSchema == s.projectedSchema
              && IsSuffix(r.next.files, s.files)
    // Turns that answer never touch the queue or the schema.
    ensures r.Return? ==> r.step.next.files == s.files && r.step.next.projectedSchema == s.projectedSchema
    // Pending is answered exactly when the awaited collaborator is not ready, and changes nothing of the driver's own.
    ensures r.Return? && r.step.output.Pending? <==> Parked(s)
    ensures Parked(s) ==> r.Return? && r.step.next.remain == s.remain && PhaseOf(r.step.next.state) == PhaseOf(s.state)
    // Answering an error is what puts a live stream into Error.
    ensures !Terminal(s) && r.Return? ==> (r.step.next.state.Error? <==> IsError(r.step.output))
    // A live stream enters Limit exactly with the batch that leaves no budget.
    ensures !Terminal(s) && r.Return? ==>
              (r.step.next.state.Limit? <==> IsBatch(r.step.output) && r.step.next.remain == Some(0))
    // Row accounting for the answer of this turn.
    ensures r.Return? && s.remain.None? ==> r.step.next.remain.None?
    ensures r.Return? && s.remain.Some? ==>
              r.step.next.remain.Some? && RowsOf(r.step.output) + r.step.next.remain.value == s.remain.value
    ensures r.Return? && !IsBatch(r.step.output) ==> r.step.next.remain == s.remain
  {
    match s.state
    case Idle =>
      if |s.files| == 0 then Return(Step(Ready(None), s))
      else
        var file := s.files[0];
        var future := env.open(file.objectMeta, file.range);
        Continue(s.(files := s.files[1..], state := Open(future, file.partitionValues)))
    case Open(future, pv) =>
      var (answer, future') := PollFuture(future);
      (match answer
       case Pending => Return(Step(Pending, s.(state := Open(future', pv))))
       case Ready(Ok(reader)) => Continue(s.(state := Scan(pv, reader)))
       case Ready(Err(e)) => Return(Step(Ready(Some(Err(e))), s.(state := Error))))
    case Scan(pv, reader) =>
      var (event, reader') := PollStream(reader);
      (match event
       case Pending => Return(Step(Pending, s.(state := Scan(pv, reader'))))
       case Ready(None) => Continue(s.(state := Idle))
       case Ready(Some(Err(e))) => Return(Step(Ready(Some(Err(e))), s.(state := Error)))
       case Ready(Some(Ok(raw))) =>
         (match env.project(raw, pv)
          case Err(e) => Return(Step(Ready(Some(Err(e))), s.(state := Error)))
          case Ok(batch) =>
            var g := Govern(s.remain, batch);
            Return(Step(Ready(Some(Ok(g.batch))),
                        s.(remain := g.remain, state := if g.reachedLimit then Limit else Scan(pv, reader'))))))
    case Error => Return(Step(Ready(None), s))
    case Limit => Return(Step(Ready(None), s))
  }

  /** One poll of the stream: the driver loops through its states until it has
      a batch, an error, a pending collaborator or the end to report. */
  function PollInner(s: FileStream, env: Env): (r: Step)
    // Error, Limit and an idle stream with an empty queue answer end-of-sequence and stay put.
    ensures Exhausted(s) ==> r == Step(Ready(None), s)
    // The schema never changes and the queue only loses files at its front.
    ensures r.next.projectedSchema == s.projectedSchema
    ensures IsSuffix(r.next.files, s.files)
    // End-of-sequence is only ever answered once nothing more can come.
    ensures r.output == Ready(None) ==> Exhausted(r.next)
    // A collaborator that is not ready leaves the driver's own state alone.
    ensures Parked(s) ==>
              r.output.Pending? && r.next.files == s.files && r.next.remain == s.remain
              && PhaseOf(r.next.state) == PhaseOf(s.state)
    ensures r.output.Pending? ==> (r.next.state.Open? || r.next.state.Scan?) && r.next.remain == s.remain
    // Errors put a live stream in Error; it enters Limit exactly with the batch that uses up the budget.
    ensures !Terminal(s) ==> (r.next.state.Error? <==> IsError(r.output))
    ensures !Terminal(s) ==> (r.next.state.Limit? <==> IsBatch(r.output) && r.next.remain == Some(0))
    // Row accounting: what is emitted is exactly what is taken off the budget.
    ensures s.remain.None? ==> r.next.remain.None?
    ensures s.remain.Some? ==> r.next.remain.Some? && RowsOf(r.output) + r.next.remain.value == s.remain.value
    ensures !IsBatch(r.output) ==> r.next.remain == s.remain
    decreases Measure(s)
  {
    match LoopBody(s, env)
    case Continue(s') => var r := PollInner(s', env); SuffixTrans(r.next.files, s'.files, s.files); r
    case Return(step) => step
  }

  /** The stream's poll: the driver's poll passed through the metrics
      recorder, which does not change the answer. */
  function PollNext(s: FileStream, env: Env): (r: Step)
    ensures Exhausted(s) ==> r == Step(Ready(None), s)
    ensures r.output == Ready(None) ==> Exhausted(r.next)
  {
    PollInner(s, env)
  }

  /** The schema the stream reports. */
  function SchemaOf(s: FileStream): Schema {
    s.projectedSchema
  }
}
