/** Concrete scans, worked through poll by poll. */
module Scenarios {
  import opened Wrappers
  import opened ScanTypes
  import opened Driver
  import opened Trace

  const pv: seq<ScalarValue> := ["2024-01-01"]

  function FileAt(location: string): PartitionedFile {
    PartitionedFile(ObjectMeta(location, 0), None, pv)
  }

  function Rows(n: nat): Event {
    Ready(Some(Ok(Batch(n, []))))
  }

  function Yields(n: nat): Output {
    Ready(Some(Ok(Batch(n, pv))))
  }

  /** A reader that opens each file onto the future `futures` scripts for its
      location (an empty sub-stream for any other), and a projector that
      stamps the partition values on. */
  function ScriptedEnv(futures: map<string, Future>): Env {
    Env((m: ObjectMeta, r: Option<FileRange>) => if m.location in futures then futures[m.location] else Future(0, Ok([])),
        (b: Batch, values: seq<ScalarValue>) => Ok(Batch(b.rows, values)))
  }

  function ScanOf(files: seq<PartitionedFile>, limit: Option<nat>): FileStream {
    New(FileScanConfig(Schema([]), [], [files], limit), 0)
  }

  /** Two files without a limit: every batch of the first, then every batch of
      the second, then the end. */
  lemma TwoFilesNoLimit()
    ensures var env := ScriptedEnv(map["a" := Future(0, Ok([Rows(3), Rows(2)])), "b" := Future(0, Ok([Rows(4)]))]);
            Run(PollOf(env), ScanOf([FileAt("a"), FileAt("b")], None), 4).outputs == [Yields(3), Yields(2), Yields(4), Ready(None)]
  {
    var env := ScriptedEnv(map["a" := Future(0, Ok([Rows(3), Rows(2)])), "b" := Future(0, Ok([Rows(4)]))]);
    var s0 := ScanOf([FileAt("a"), FileAt("b")], None);
    var p1 := PollNext(s0, env);
    var p2 := PollNext(p1.next, env);
    var p3 := PollNext(p2.next, env);
    RunUnfold(PollOf(env), s0, 4);
    RunUnfold(PollOf(env), p1.next, 3);
    RunUnfold(PollOf(env), p2.next, 2);
    RunUnfold(PollOf(env), p3.next, 1);
  }

  /** One file of batches 5 and 5 under a limit of 7: a batch of 5, then the
      first 2 rows of the next, then the end, with the stream in Limit. */
  lemma MidBatchTruncation()
    ensures var env := ScriptedEnv(map["a" := Future(0, Ok([Rows(5), Rows(5)]))]);
            var t := Run(PollOf(env), ScanOf([FileAt("a")], Some(7)), 3);
            t.outputs == [Yields(5), Yields(2), Ready(None)] && t.last.state.Limit?
  {
    var env := ScriptedEnv(map["a" := Future(0, Ok([Rows(5), Rows(5)]))]);
    var s0 := ScanOf([FileAt("a")], Some(7));
    var p1 := PollNext(s0, env);
    var p2 := PollNext(p1.next, env);
    RunUnfold(PollOf(env), s0, 3);
    RunUnfold(PollOf(env), p1.next, 2);
    RunUnfold(PollOf(env), p2.next, 1);
  }

  /** A limit equal to the rows on offer: the last batch passes whole, but it
      is cut with `slice(0, remain)` and the stream ends through Limit. */
  lemma LimitEqualsTotal()
    ensures var env := ScriptedEnv(map["a" := Future(0, Ok([Rows(5), Rows(5)]))]);
            var t := Run(PollOf(env), ScanOf([FileAt("a")], Some(10)), 3);
            t.outputs == [Yields(5), Yields(5), Ready(None)] && t.last.state.Limit?
  {
    var env := ScriptedEnv(map["a" := Future(0, Ok([Rows(5), Rows(5)]))]);
    var s0 := ScanOf([FileAt("a")], Some(10));
    var p1 := PollNext(s0, env);
    var p2 := PollNext(p1.next, env);
    RunUnfold(PollOf(env), s0, 3);
    RunUnfold(PollOf(env), p1.next, 2);
    RunUnfold(PollOf(env), p2.next, 1);
  }

  /** A limit of 0: the first batch comes out with no rows, and nothing after. */
  lemma ZeroLimit()
    ensures var env := ScriptedEnv(map["a" := Future(0, Ok([Rows(5), Rows(5)]))]);
            var t := Run(PollOf(env), ScanOf([FileAt("a"), FileAt("b")], Some(0)), 2);
            t.outputs == [Yields(0), Ready(None)] && t.last.state.Limit? && t.last.files == [FileAt("b")]
  {
    var env := ScriptedEnv(map["a" := Future(0, Ok([Rows(5), Rows(5)]))]);
    var s0 := ScanOf([FileAt("a"), FileAt("b")], Some(0));
    var p1 := PollNext(s0, env);
    RunUnfold(PollOf(env), s0, 2);
    RunUnfold(PollOf(env), p1.next, 1);
  }

  /** The second file fails to open: the first file's batch, the open error,
      then the end; the third file is never opened. */
  lemma OpenErrorOnSecondFile()
    ensures var env := ScriptedEnv(map["a" := Future(0, Ok([Rows(3)])), "b" := Future(0, Err(ScanError("not found")))]);
            var t := Run(PollOf(env), ScanOf([FileAt("a"), FileAt("b"), FileAt("c")], None), 3);
            && t.outputs == [Yields(3), Ready(Some(Err(ScanError("not found")))), Ready(None)]
            && t.last.state.Error? && t.last.files == [FileAt("c")]
  {
    var env := ScriptedEnv(map["a" := Future(0, Ok([Rows(3)])), "b" := Future(0, Err(ScanError("not found")))]);
    var s0 := ScanOf([FileAt("a"), FileAt("b"), FileAt("c")], None);
    var p1 := PollNext(s0, env);
    var p2 := PollNext(p1.next, env);
    RunUnfold(PollOf(env), s0, 3);
    RunUnfold(PollOf(env), p1.next, 2);
    RunUnfold(PollOf(env), p2.next, 1);
  }

  /** A projector that rejects a batch: its error, then the end. */
  lemma ProjectorFailure()
    ensures var env := Env((m: ObjectMeta, r: Option<FileRange>) => Future(0, Ok([Rows(3)])),
                           (b: Batch, values: seq<ScalarValue>) => Err(ScanError("bad partition value")));
            Run(PollOf(env), ScanOf([FileAt("a")], None), 2).outputs == [Ready(Some(Err(ScanError("bad partition value")))), Ready(None)]
  {
    var env := Env((m: ObjectMeta, r: Option<FileRange>) => Future(0, Ok([Rows(3)])),
                   (b: Batch, values: seq<ScalarValue>) => Err(ScanError("bad partition value")));
    var s0 := ScanOf([FileAt("a")], None);
    var p1 := PollNext(s0, env);
    RunUnfold(PollOf(env), s0, 2);
    RunUnfold(PollOf(env), p1.next, 1);
  }

  /** An open that is not ready for two polls: two Pending answers, then the
      file's batch. */
  lemma PendingOpen()
    ensures var env := ScriptedEnv(map["a" := Future(2, Ok([Rows(3)]))]);
            Run(PollOf(env), ScanOf([FileAt("a")], None), 4).outputs == [Pending, Pending, Yields(3), Ready(None)]
  {
    var env := ScriptedEnv(map["a" := Future(2, Ok([Rows(3)]))]);
    var s0 := ScanOf([FileAt("a")], None);
    var p1 := PollNext(s0, env);
    var p2 := PollNext(p1.next, env);
    var p3 := PollNext(p2.next, env);
    RunUnfold(PollOf(env), s0, 4);
    RunUnfold(PollOf(env), p1.next, 3);
    RunUnfold(PollOf(env), p2.next, 2);
    RunUnfold(PollOf(env), p3.next, 1);
  }

  /** A sub-stream that yields a batch and then fails to decode: the batch, the
      error, then the end, with the stream in Error and the next file unopened. */
  lemma DecodeErrorAfterBatch()
    ensures var env := ScriptedEnv(map["a" := Future(0, Ok([Rows(3), Ready(Some(Err(ScanError("decode"))))]))]);
            var t := Run(PollOf(env), ScanOf([FileAt("a"), FileAt("b")], None), 3);
            && t.outputs == [Yields(3), Ready(Some(Err(ScanError("decode")))), Ready(None)]
            && t.last.state.Error?
            && t.last.files == [FileAt("b")]
  {
    var env := ScriptedEnv(map["a" := Future(0, Ok([Rows(3), Ready(Some(Err(ScanError("decode"))))]))]);
    var s0 := ScanOf([FileAt("a"), FileAt("b")], None);
    var p1 := PollNext(s0, env);
    var p2 := PollNext(p1.next, env);
    RunUnfold(PollOf(env), s0, 3);
    RunUnfold(PollOf(env), p1.next, 2);
    RunUnfold(PollOf(env), p2.next, 1);
  }

  /** A zero limit over a file that yields no batch: nothing reaches the
      governor, so the stream ends with its queue exhausted, not in Limit. */
  lemma EmptyFileZeroLimit()
    ensures var env := ScriptedEnv(map[]);
            var t := Run(PollOf(env), ScanOf([FileAt("z")], Some(0)), 2);
            && t.outputs == [Ready(None), Ready(None)]
            && t.last.state.Idle? && t.last.files == [] && t.last.remain == Some(0)
  {
    var env := ScriptedEnv(map[]);
    var s0 := ScanOf([FileAt("z")], Some(0));
    var p1 := PollNext(s0, env);
    RunUnfold(PollOf(env), s0, 2);
    RunUnfold(PollOf(env), p1.next, 1);
  }
}
