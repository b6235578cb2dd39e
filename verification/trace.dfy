/** Repeated polls of the stream, and what holds of every run of them.

    A run is stated for any poll function that keeps the guarantees
    `Driver.PollInner` proves of a single poll; `PollOf(env)` is the stream's
    own poll, and `PollOfSound` shows it keeps them. */
module Trace {
  import opened Wrappers
  import opened ScanTypes
  import opened Driver

  type Poller = FileStream -> Step

  /** What one poll of a file stream guarantees. */
  ghost predicate PollGuarantees(s: FileStream, r: Step) {
    && (Exhausted(s) ==> r == Step(Ready(None), s))
    && IsSuffix(r.next.files, s.files)
    && r.next.projectedSchema == s.projectedSchema
    && (r.output == Ready(None) ==> Exhausted(r.next))
    && (!Terminal(s) ==> (r.next.state.Error? <==> IsError(r.output)))
    && (!Terminal(s) ==> (r.next.state.Limit? <==> IsBatch(r.output) && r.next.remain == Some(0)))
    && (s.remain.None? ==> r.next.remain.None?)
    && (s.remain.Some? ==> r.next.remain.Some? && RowsOf(r.output) + r.next.remain.value == s.remain.value)
  }

  ghost predicate Sound(poll: Poller) {
    forall s :: PollGuarantees(s, poll(s))
  }

  /** The stream's poll, with its collaborators fixed. */
  function PollOf(env: Env): Poller {
    s => PollNext(s, env)
  }

  lemma PollOfSound(env: Env)
    ensures Sound(PollOf(env))
  {
  }

  /** The answers of a run of polls and the stream it leaves behind. */
  datatype Trace = Trace(outputs: seq<Output>, last: FileStream)

  /** Rows carried by a sequence of answers. */
  function TotalRows(outputs: seq<Output>): nat {
    if |outputs| == 0 then 0 else RowsOf(outputs[0]) + TotalRows(outputs[1..])
  }

  /** `n` successive polls of `s`. */
  function Run(poll: Poller, s: FileStream, n: nat): (t: Trace)
    ensures |t.outputs| == n
    decreases n
  {
    if n == 0 then Trace([], s)
    else
      var st := poll(s);
      var t := Run(poll, st.next, n - 1);
      Trace([st.output] + t.outputs, t.last)
  }

  lemma RunUnfold(poll: Poller, s: FileStream, n: nat)
    requires n > 0
    ensures Run(poll, s, n).outputs == [poll(s).output] + Run(poll, poll(s).next, n - 1).outputs
    ensures Run(poll, s, n).last == Run(poll, poll(s).next, n - 1).last
  {
  }

  /** Row accounting over a whole run: with a limit, rows emitted plus rows
      still allowed is the budget the run started with; without one, no budget
      appears. Files leave the queue only at its front. */
  lemma {:induction false} RunAccounting(poll: Poller, s: FileStream, n: nat)
    requires Sound(poll)
    ensures var t := Run(poll, s, n);
            && IsSuffix(t.last.files, s.files)
            && t.last.projectedSchema == s.projectedSchema
            && (s.remain.None? ==> t.last.remain.None?)
            && (s.remain.Some? ==> t.last.remain.Some? && TotalRows(t.outputs) + t.last.remain.value == s.remain.value)
    decreases n
  {
    if n > 0 {
      var st := poll(s);
      var t := Run(poll, st.next, n - 1);
      RunAccounting(poll, st.next, n - 1);
      RunUnfold(poll, s, n);
      assert Run(poll, s, n).outputs[1..] == t.outputs;
      SuffixTrans(t.last.files, st.next.files, s.files);
    }
  }

  /** Once a stream is exhausted every further poll answers end-of-sequence
      and nothing changes: Error and Limit are terminal, and so is the end of
      the queue. */
  lemma {:induction false} RunAfterEnd(poll: Poller, s: FileStream, n: nat)
    requires Sound(poll) && Exhausted(s)
    ensures Run(poll, s, n).last == s
    ensures forall i | 0 <= i < n :: Run(poll, s, n).outputs[i] == Ready(None)
    decreases n
  {
    if n > 0 {
      RunAfterEnd(poll, s, n - 1);
      assert Run(poll, s, n).outputs == [Ready(None)] + Run(poll, s, n - 1).outputs;
    }
  }

  /** A fresh stream over an empty file group ends at once and never opens a
      file, whatever its limit. */
  lemma EmptyGroupEnds(config: FileScanConfig, partition: nat, env: Env, n: nat)
    requires partition < |config.fileGroups| && config.fileGroups[partition] == []
    ensures Run(PollOf(env), New(config, partition), n).last == New(config, partition)
    ensures forall i | 0 <= i < n :: Run(PollOf(env), New(config, partition), n).outputs[i] == Ready(None)
  {
    PollOfSound(env);
    RunAfterEnd(PollOf(env), New(config, partition), n);
  }

  /** After end-of-sequence, only end-of-sequence. */
  lemma {:induction false} EndThenSilence(poll: Poller, s: FileStream, n: nat, i: nat, j: nat)
    requires Sound(poll)
    requires i < j < n && Run(poll, s, n).outputs[i] == Ready(None)
    ensures Run(poll, s, n).outputs[j] == Ready(None)
    decreases n
  {
    var st := poll(s);
    RunUnfold(poll, s, n);
    if i == 0 {
      RunAfterEnd(poll, st.next, n - 1);
    } else {
      EndThenSilence(poll, st.next, n - 1, i - 1, j - 1);
    }
  }

  /** An error is answered once; every later poll answers end-of-sequence. */
  lemma {:induction false} ErrorThenSilence(poll: Poller, s: FileStream, n: nat, i: nat, j: nat)
    requires Sound(poll)
    requires i < j < n && IsError(Run(poll, s, n).outputs[i])
    ensures Run(poll, s, n).outputs[j] == Ready(None)
    decreases n
  {
    var st := poll(s);
    RunUnfold(poll, s, n);
    if i == 0 {
      RunAfterEnd(poll, st.next, n - 1);
    } else {
      ErrorThenSilence(poll, st.next, n - 1, i - 1, j - 1);
    }
  }

  lemma TotalRowsCons(o: Output, rest: seq<Output>, i: nat)
    requires i <= |rest|
    ensures TotalRows(([o] + rest)[..i + 1]) == RowsOf(o) + TotalRows(rest[..i])
  {
    assert ([o] + rest)[..i + 1][1..] == rest[..i];
  }

  /** With a budget of `L` rows, the batch that brings the rows emitted up to
      `L` is the last thing answered before end-of-sequence. */
  lemma {:induction false} LimitThenSilence(poll: Poller, s: FileStream, n: nat, i: nat, j: nat)
    requires Sound(poll)
    requires s.remain.Some? && i < j < n
    requires IsBatch(Run(poll, s, n).outputs[i])
    requires TotalRows(Run(poll, s, n).outputs[..i + 1]) == s.remain.value
    ensures Run(poll, s, n).outputs[j] == Ready(None)
    decreases n
  {
    var st := poll(s);
    RunUnfold(poll, s, n);
    TotalRowsCons(st.output, Run(poll, st.next, n - 1).outputs, i);
    if i == 0 {
      RunAfterEnd(poll, st.next, n - 1);
    } else {
      LimitThenSilence(poll, st.next, n - 1, i - 1, j - 1);
    }
  }

  /** A file's partition values travel with it: while the stream waits on an
      open future or drains a sub-stream, the partition values it holds are
      those of the file most recently taken from the front of `files0`. */
  ghost predicate Provenance(s: FileStream, files0: seq<PartitionedFile>) {
    && IsSuffix(s.files, files0)
    && ((s.state.Open? || s.state.Scan?) ==>
          && |s.files| < |files0|
          && PhaseOf(s.state).pv == files0[|files0| - |s.files| - 1].partitionValues)
  }

  lemma {:induction false} PollKeepsProvenance(s: FileStream, env: Env, files0: seq<PartitionedFile>)
    requires Provenance(s, files0)
    ensures Provenance(PollInner(s, env).next, files0)
    decreases Measure(s)
  {
    match LoopBody(s, env)
    case Continue(t) =>
      SuffixTrans(t.files, s.files, files0);
      if s.state.Idle? {
        SuffixShape(s.files, files0);
        assert files0[|files0| - |t.files| - 1] == s.files[0];
      }
      PollKeepsProvenance(t, env, files0);
    case Return(step) =>
  }

  lemma {:induction false} RunKeepsProvenance(s: FileStream, env: Env, n: nat, files0: seq<PartitionedFile>)
    requires Provenance(s, files0)
    ensures Provenance(Run(PollOf(env), s, n).last, files0)
    decreases n
  {
    if n > 0 {
      PollKeepsProvenance(s, env, files0);
      RunKeepsProvenance(PollNext(s, env).next, env, n - 1, files0);
    }
  }

  /** Every stream a fresh stream reaches holds the partition values of the
      file it is working on. */
  lemma NewKeepsProvenance(config: FileScanConfig, partition: nat, env: Env, n: nat)
    requires partition < |config.fileGroups|
    ensures Provenance(Run(PollOf(env), New(config, partition), n).last, config.fileGroups[partition])
  {
    RunKeepsProvenance(New(config, partition), env, n, config.fileGroups[partition]);
  }
}
