/** The stream always comes to an end, and what it yields on the way is the
    reference description of the scan. */
module Progress {
  import opened Wrappers
  import opened ScanTypes
  import opened Driver
  import opened Trace
  import opened Reference

  /** Polls a future and the sub-stream it resolves to can still absorb. */
  function FutureWork(f: Future): nat {
    f.pendingPolls + 1 + (if f.result.Ok? then |f.result.value| + 1 else 0)
  }

  function QueueWork(files: seq<PartitionedFile>, env: Env): nat
    decreases |files|
  {
    if |files| == 0 then 0
    else 1 + FutureWork(env.open(files[0].objectMeta, files[0].range)) + QueueWork(files[1..], env)
  }

  /** An upper bound on the polls a stream still answers with something other
      than end-of-sequence. */
  function Work(s: FileStream, env: Env): nat {
    QueueWork(s.files, env)
    + match s.state
      case Open(future, _) => FutureWork(future)
      case Scan(_, reader) => |reader| + 1
      case _ => 0
  }

  lemma LiveWork(s: FileStream, env: Env)
    requires !Exhausted(s)
    ensures Work(s, env) >= 1
  {
  }

  /** Every turn of the driver loop uses up work, except the one that answers
      end-of-sequence. */
  lemma TurnProgress(s: FileStream, env: Env)
    ensures LoopBody(s, env).Continue? ==> Work(LoopBody(s, env).next, env) < Work(s, env)
    ensures LoopBody(s, env).Return? && LoopBody(s, env).step.output != Ready(None) ==>
              Work(LoopBody(s, env).step.next, env) < Work(s, env)
  {
  }

  /** Every poll that does not end the sequence uses up work. */
  lemma {:induction false} PollProgress(s: FileStream, env: Env)
    ensures PollInner(s, env).output != Ready(None) ==> Work(PollInner(s, env).next, env) < Work(s, env)
    decreases Measure(s)
  {
    TurnProgress(s, env);
    match LoopBody(s, env)
    case Continue(t) => PollProgress(t, env);
    case Return(_) =>
  }

  /** Every poll of `poll` that does not end the sequence uses up work. */
  ghost predicate MakesProgress(poll: Poller, env: Env) {
    forall s {:trigger poll(s)} :: poll(s).output != Ready(None) ==> Work(poll(s).next, env) < Work(s, env)
  }

  lemma PollOfProgress(env: Env)
    ensures MakesProgress(PollOf(env), env)
  {
    forall s {
      PollProgress(s, env);
    }
  }

  /** For collaborators that finish (a future resolves after finitely many
      polls and a sub-stream is a finite list of answers), `Work(s)` polls bring
      the stream to its end. */
  lemma {:induction false} RunEnds(poll: Poller, env: Env, s: FileStream, n: nat)
    requires Sound(poll) && MakesProgress(poll, env)
    requires Work(s, env) <= n
    ensures Exhausted(Run(poll, s, n).last)
    decreases n
  {
    if Exhausted(s) {
      RunAfterEnd(poll, s, n);
    } else {
      LiveWork(s, env);
      var st := poll(s);
      RunUnfold(poll, s, n);
      if st.output == Ready(None) {
        RunAfterEnd(poll, st.next, n - 1);
      } else {
        RunEnds(poll, env, st.next, n - 1);
      }
    }
  }

  /** The whole scan of one file group: polled often enough, a fresh stream
      ends, and the items it delivers on the way are the files' items in queue
      order, stopping at the first error, cut down to the configured limit. */
  lemma ScanDelivers(config: FileScanConfig, partition: nat, env: Env)
    requires partition < |config.fileGroups|
    ensures var s := New(config, partition);
            var t := Run(PollOf(env), s, Work(s, env));
            && Exhausted(t.last)
            && Delivered(t.outputs) == Truncate(Unlimited(config.fileGroups[partition], env), config.limit)
  {
    var s := New(config, partition);
    var n := Work(s, env);
    var t := Run(PollOf(env), s, n);
    PollOfSound(env);
    PollOfProgress(env);
    PollOfRefines(env);
    RunEnds(PollOf(env), env, s, n);
    RunRefines(PollOf(env), RemainingOf(env), s, n);
    ExhaustedHasNothing(t.last, env);
    assert Delivered(t.outputs) + [] == Delivered(t.outputs);
  }

  /** Whatever the number of polls, a stream never delivers more rows than its
      limit, and an error is only ever the last item delivered. */
  lemma DeliveredSound(config: FileScanConfig, partition: nat, env: Env, n: nat)
    requires partition < |config.fileGroups|
    ensures var items := Delivered(Run(PollOf(env), New(config, partition), n).outputs);
            && (config.limit.Some? ==> SumRows(items) <= config.limit.value)
            && ErrorsOnlyLast(items)
  {
    var s := New(config, partition);
    var t := Run(PollOf(env), s, n);
    var items := Delivered(t.outputs);
    var group := config.fileGroups[partition];
    PollOfRefines(env);
    RunRefines(PollOf(env), RemainingOf(env), s, n);
    assert Truncate(Unlimited(group, env), config.limit) == items + Remaining(t.last, env);
    UnlimitedErrorsOnlyLast(group, env);
    if config.limit.Some? {
      TruncateRowsBound(Unlimited(group, env), config.limit.value);
      TruncateRowsPrefix(Unlimited(group, env), config.limit.value);
    }
    PrefixSound(items, Remaining(t.last, env));
  }

  lemma {:induction false} SumRowsAppend(a: seq<Item>, b: seq<Item>)
    ensures SumRows(a + b) == SumRows(a) + SumRows(b)
    decreases |a|
  {
    if |a| == 0 {
      assert a + b == b;
    } else {
      SumRowsAppend(a[1..], b);
      assert (a + b)[1..] == a[1..] + b;
    }
  }

  lemma PrefixSound(a: seq<Item>, b: seq<Item>)
    ensures SumRows(a) <= SumRows(a + b)
    ensures ErrorsOnlyLast(a + b) ==> ErrorsOnlyLast(a)
  {
    SumRowsAppend(a, b);
    if ErrorsOnlyLast(a + b) {
      forall i | 0 <= i < |a| - 1 ensures a[i].Ok? {
        assert a[i] == (a + b)[i];
      }
    }
  }
}
