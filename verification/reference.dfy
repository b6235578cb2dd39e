/** A reference description of everything a file stream yields, written as a
    plain list computation instead of a state machine: each file contributes
    its sub-stream's batches stamped with its partition values, files follow
    one another in queue order, the first error ends everything, and the row
    limit cuts the result off as a prefix. */
module Reference {
  import opened Wrappers
  import opened ScanTypes
  import opened Driver
  import opened Trace

  /** What the sub-stream `reader` yields once stamped with `pv`: its batches in
      order, up to and including the first error (its own or the projector's),
      skipping the polls it is not ready for. */
  function StreamItems(reader: SubStream, pv: seq<ScalarValue>, env: Env): seq<Item>
    decreases |reader|
  {
    if |reader| == 0 then []
    else
      match reader[0]
      case Pending => StreamItems(reader[1..], pv, env)
      case Ready(None) => []
      case Ready(Some(Err(e))) => [Err(e)]
      case Ready(Some(Ok(raw))) =>
        var projected := env.project(raw, pv);
        if projected.Err? then [projected] else [projected] + StreamItems(reader[1..], pv, env)
  }

  /** What an open future leads to: its open error, or its sub-stream's items. */
  function FutureItems(future: Future, pv: seq<ScalarValue>, env: Env): seq<Item> {
    match future.result
    case Err(e) => [Err(e)]
    case Ok(reader) => StreamItems(reader, pv, env)
  }

  /** What one file contributes when no limit applies. */
  function FileItems(f: PartitionedFile, env: Env): seq<Item> {
    FutureItems(env.open(f.objectMeta, f.range), f.partitionValues, env)
  }

  predicate EndsInError(items: seq<Item>) {
    |items| > 0 && items[|items| - 1].Err?
  }

  predicate NoErrors(items: seq<Item>) {
    forall i | 0 <= i < |items| :: items[i].Ok?
  }

  /** Only the last item may be an error. */
  predicate ErrorsOnlyLast(items: seq<Item>) {
    forall i | 0 <= i < |items| - 1 :: items[i].Ok?
  }

  /** What a queue of files yields when no limit applies. */
  function Unlimited(files: seq<PartitionedFile>, env: Env): seq<Item>
    decreases |files|
  {
    if |files| == 0 then []
    else
      var items := FileItems(files[0], env);
      if EndsInError(items) then items else items + Unlimited(files[1..], env)
  }

  /** `items` followed by what `files` yield, unless `items` already failed. */
  function Then(items: seq<Item>, files: seq<PartitionedFile>, env: Env): seq<Item> {
    if EndsInError(items) then items else items + Unlimited(files, env)
  }

  /** Rows carried by the batches among `items`. */
  function SumRows(items: seq<Item>): nat {
    if |items| == 0 then 0 else (if items[0].Ok? then items[0].value.rows else 0) + SumRows(items[1..])
  }

  /** `items` cut down to `r` rows: batches pass while the budget exceeds them,
      and the first batch that does not fit is cut to the rest of the budget
      and is the last item. */
  function TruncateRows(items: seq<Item>, r: nat): seq<Item>
    decreases |items|
  {
    if |items| == 0 then []
    else
      match items[0]
      case Err(_) => [items[0]] + TruncateRows(items[1..], r)
      case Ok(b) =>
        if r > b.rows then [items[0]] + TruncateRows(items[1..], r - b.rows)
        else [Ok(Slice(b, r))]
  }

  function Truncate(items: seq<Item>, limit: Option<nat>): seq<Item> {
    match limit
    case None => items
    case Some(r) => TruncateRows(items, r)
  }

  /** Everything a stream in state `s` has still to yield. */
  function Remaining(s: FileStream, env: Env): seq<Item> {
    match s.state
    case Idle => Truncate(Unlimited(s.files, env), s.remain)
    case Open(future, pv) => Truncate(Then(FutureItems(future, pv, env), s.files, env), s.remain)
    case Scan(pv, reader) => Truncate(Then(StreamItems(reader, pv, env), s.files, env), s.remain)
    case Error => []
    case Limit => []
  }

  /** The item a poll's answer delivers, if any. */
  function ItemOf(o: Output): seq<Item> {
    if o.Ready? && o.value.Some? then [o.value.value] else []
  }

  /** The items a run of polls delivers, in order. */
  function Delivered(outputs: seq<Output>): seq<Item> {
    if |outputs| == 0 then [] else ItemOf(outputs[0]) + Delivered(outputs[1..])
  }

  lemma DeliveredCons(o: Output, rest: seq<Output>)
    ensures Delivered([o] + rest) == ItemOf(o) + Delivered(rest)
  {
    assert ([o] + rest)[1..] == rest;
  }

  lemma ThenCons(x: Item, items: seq<Item>, files: seq<PartitionedFile>, env: Env)
    requires x.Ok?
    ensures Then([x] + items, files, env) == [x] + Then(items, files, env)
  {
    if |items| > 0 {
      assert ([x] + items)[|[x] + items| - 1] == items[|items| - 1];
    }
  }

  lemma TruncateOneError(e: ScanError, limit: Option<nat>)
    ensures Truncate([Err(e)], limit) == [Err(e)]
  {
    if limit.Some? {
      assert TruncateRows([Err(e)], limit.value) == [Err(e)] + TruncateRows([], limit.value);
    }
  }

  lemma ThenNothing(files: seq<PartitionedFile>, env: Env)
    ensures Then([], files, env) == Unlimited(files, env)
  {
    assert [] + Unlimited(files, env) == Unlimited(files, env);
  }

  /** The turn that takes a batch off a sub-stream delivers it, projected and
      governed, as the first item still to come. */
  lemma BatchTurnRefines(s: FileStream, env: Env)
    requires s.state.Scan? && |s.state.reader| > 0
    requires s.state.reader[0].Ready? && s.state.reader[0].value.Some? && s.state.reader[0].value.value.Ok?
    ensures LoopBody(s, env).Return?
    ensures Remaining(s, env) == ItemOf(LoopBody(s, env).step.output) + Remaining(LoopBody(s, env).step.next, env)
  {
    var pv, reader := s.state.partitionValues, s.state.reader;
    var projected := env.project(reader[0].value.value.value, pv);
    if projected.Ok? {
      ThenCons(projected, StreamItems(reader[1..], pv, env), s.files, env);
    } else {
      TruncateOneError(projected.error, s.remain);
    }
  }

  /** One turn of the driver loop either keeps what is still to come, or
      delivers its first item. */
  lemma TurnRefines(s: FileStream, env: Env)
    ensures LoopBody(s, env).Continue? ==> Remaining(LoopBody(s, env).next, env) == Remaining(s, env)
    ensures LoopBody(s, env).Return? ==>
              Remaining(s, env) == ItemOf(LoopBody(s, env).step.output) + Remaining(LoopBody(s, env).step.next, env)
  {
    match s.state
    case Idle =>
    case Open(future, pv) =>
      if future.result.Err? {
        TruncateOneError(future.result.error, s.remain);
      }
    case Scan(pv, reader) =>
      if |reader| == 0 || reader[0] == Ready(None) {
        ThenNothing(s.files, env);
      } else if reader[0].Ready? && reader[0].value.Some? {
        if reader[0].value.value.Ok? {
          BatchTurnRefines(s, env);
        } else {
          TruncateOneError(reader[0].value.value.error, s.remain);
        }
      }
    case Error =>
    case Limit =>
  }

  /** One poll delivers exactly the first of the items still to come, if it
      delivers anything, and the rest is what the new state has to come. */
  lemma {:induction false} PollRefines(s: FileStream, env: Env)
    ensures Remaining(s, env) == ItemOf(PollInner(s, env).output) + Remaining(PollInner(s, env).next, env)
    decreases Measure(s)
  {
    TurnRefines(s, env);
    match LoopBody(s, env)
    case Continue(t) => PollRefines(t, env);
    case Return(_) =>
  }

  /** Each poll of `poll` delivers the first of the items `remaining` says are
      still to come, if it delivers anything, and leaves the rest to come. */
  ghost predicate Refines(poll: Poller, remaining: FileStream -> seq<Item>) {
    forall s {:trigger poll(s)} :: remaining(s) == ItemOf(poll(s).output) + remaining(poll(s).next)
  }

  function RemainingOf(env: Env): FileStream -> seq<Item> {
    s => Remaining(s, env)
  }

  lemma PollOfRefines(env: Env)
    ensures Refines(PollOf(env), RemainingOf(env))
  {
    forall s {
      PollRefines(s, env);
    }
  }

  /** A run of polls delivers, in order, a prefix of what the stream had to
      yield; the rest is still to come. */
  lemma {:induction false} RunRefines(poll: Poller, remaining: FileStream -> seq<Item>, s: FileStream, n: nat)
    requires Refines(poll, remaining)
    ensures remaining(s) == Delivered(Run(poll, s, n).outputs) + remaining(Run(poll, s, n).last)
    decreases n
  {
    var t := Run(poll, s, n);
    if n == 0 {
      assert t.outputs == [] && t.last == s;
    } else {
      var st := poll(s);
      var rest := Run(poll, st.next, n - 1);
      RunUnfold(poll, s, n);
      RunRefines(poll, remaining, st.next, n - 1);
      DeliveredCons(st.output, rest.outputs);
      var a, b, c := ItemOf(st.output), Delivered(rest.outputs), remaining(rest.last);
      assert Delivered(t.outputs) == a + b;
      assert remaining(s) == a + remaining(st.next);
      assert a + (b + c) == (a + b) + c;
    }
  }

  lemma ExhaustedHasNothing(s: FileStream, env: Env)
    requires Exhausted(s)
    ensures Remaining(s, env) == []
  {
  }

  /** `a` is `b` cut down by the row limit: a batch with the same partition
      values and no more rows. */
  predicate SlicedFrom(a: Item, b: Item) {
    a.Ok? && b.Ok? && a.value.rows <= b.value.rows && a.value.partitionValues == b.value.partitionValues
  }

  /** The row limit never lets more than its budget through. */
  lemma {:induction false} TruncateRowsBound(items: seq<Item>, r: nat)
    ensures SumRows(TruncateRows(items, r)) <= r
    decreases |items|
  {
    if |items| > 0 {
      var t := TruncateRows(items, r);
      if items[0].Err? {
        TruncateRowsBound(items[1..], r);
        assert t[1..] == TruncateRows(items[1..], r);
      } else if r > items[0].value.rows {
        TruncateRowsBound(items[1..], r - items[0].value.rows);
        assert t[1..] == TruncateRows(items[1..], r - items[0].value.rows);
      } else {
        assert SumRows(t) == r + SumRows(t[1..]);
      }
    }
  }

  /** Without errors, the row limit lets through exactly the smaller of its
      budget and the rows on offer. */
  lemma {:induction false} TruncateRowsExact(items: seq<Item>, r: nat)
    requires NoErrors(items)
    ensures SumRows(TruncateRows(items, r)) == if r < SumRows(items) then r else SumRows(items)
    decreases |items|
  {
    if |items| > 0 {
      var t := TruncateRows(items, r);
      var b := items[0].value;
      assert NoErrors(items[1..]) by {
        forall i | 0 <= i < |items[1..]| ensures items[1..][i].Ok? {
          assert items[1..][i] == items[i + 1];
        }
      }
      if r > b.rows {
        TruncateRowsExact(items[1..], r - b.rows);
        assert t[1..] == TruncateRows(items[1..], r - b.rows);
      } else {
        assert SumRows(t) == r + SumRows(t[1..]);
      }
    }
  }

  /** The row limit keeps a prefix of the items; only the last one kept may be
      cut short, and then it keeps its partition values. When the budget
      exceeds the rows on offer nothing is cut at all. */
  lemma {:induction false} TruncateRowsPrefix(items: seq<Item>, r: nat)
    ensures |TruncateRows(items, r)| <= |items|
    ensures forall i | 0 <= i < |TruncateRows(items, r)| ::
              TruncateRows(items, r)[i] == items[i]
              || (i == |TruncateRows(items, r)| - 1 && SlicedFrom(TruncateRows(items, r)[i], items[i]))
    ensures SumRows(items) < r ==> TruncateRows(items, r) == items
    decreases |items|
  {
    if |items| > 0 {
      var t := TruncateRows(items, r);
      if items[0].Err? || r > items[0].value.rows {
        var r' := if items[0].Err? then r else r - items[0].value.rows;
        TruncateRowsPrefix(items[1..], r');
        assert t == [items[0]] + TruncateRows(items[1..], r');
        forall i | 1 <= i < |t|
          ensures t[i] == items[i] || (i == |t| - 1 && SlicedFrom(t[i], items[i]))
        {
          assert t[i] == TruncateRows(items[1..], r')[i - 1] && items[i] == items[1..][i - 1];
        }
        if SumRows(items) < r {
          assert SumRows(items[1..]) < r';
          assert items == [items[0]] + items[1..];
        }
      }
    }
  }

  /** A budget of zero lets through the first batch cut to no rows, and
      nothing after it. */
  lemma ZeroBudget(items: seq<Item>)
    requires |items| > 0 && items[0].Ok?
    ensures TruncateRows(items, 0) == [Ok(Batch(0, items[0].value.partitionValues))]
  {
  }

  /** Files are scanned in queue order: what a queue yields is what its front
      part yields, followed by what the rest yields unless the front part
      failed. */
  lemma {:induction false} UnlimitedAppend(a: seq<PartitionedFile>, b: seq<PartitionedFile>, env: Env)
    ensures Unlimited(a + b, env) == Then(Unlimited(a, env), b, env)
    decreases |a|
  {
    if |a| == 0 {
      assert a + b == b;
      ThenNothing(b, env);
    } else {
      var items := FileItems(a[0], env);
      assert (a + b)[0] == a[0] && (a + b)[1..] == a[1..] + b;
      if !EndsInError(items) {
        UnlimitedAppend(a[1..], b, env);
        var rest := Unlimited(a[1..], env);
        if |rest| > 0 {
          assert (items + rest)[|items + rest| - 1] == rest[|rest| - 1];
        } else {
          assert items + rest == items;
        }
        assert items + rest + Unlimited(b, env) == items + (rest + Unlimited(b, env));
      }
    }
  }

  /** A single file yields its own items. */
  lemma SingleFile(f: PartitionedFile, env: Env)
    ensures Unlimited([f], env) == FileItems(f, env)
  {
    assert [f][1..] == [];
    if !EndsInError(FileItems(f, env)) {
      assert FileItems(f, env) + [] == FileItems(f, env);
    }
  }

  lemma ErrorsOnlyLastCons(x: Item, items: seq<Item>)
    requires ErrorsOnlyLast(items) && (x.Ok? || |items| == 0)
    ensures ErrorsOnlyLast([x] + items)
  {
    forall i | 0 <= i < |[x] + items| - 1 ensures ([x] + items)[i].Ok? {
      if i > 0 {
        assert ([x] + items)[i] == items[i - 1];
      }
    }
  }

  lemma {:induction false} StreamErrorsOnlyLast(reader: SubStream, pv: seq<ScalarValue>, env: Env)
    ensures ErrorsOnlyLast(StreamItems(reader, pv, env))
    decreases |reader|
  {
    if |reader| > 0 {
      StreamErrorsOnlyLast(reader[1..], pv, env);
      if reader[0].Ready? && reader[0].value.Some? && reader[0].value.value.Ok? {
        var projected := env.project(reader[0].value.value.value, pv);
        if projected.Ok? {
          ErrorsOnlyLastCons(projected, StreamItems(reader[1..], pv, env));
        }
      }
    }
  }

  /** An error is always the last item a queue yields. */
  lemma {:induction false} UnlimitedErrorsOnlyLast(files: seq<PartitionedFile>, env: Env)
    ensures ErrorsOnlyLast(Unlimited(files, env))
    decreases |files|
  {
    if |files| > 0 {
      var f := files[0];
      var items := FileItems(f, env);
      var future := env.open(f.objectMeta, f.range);
      if future.result.Ok? {
        StreamErrorsOnlyLast(future.result.value, f.partitionValues, env);
      }
      if !EndsInError(items) {
        UnlimitedErrorsOnlyLast(files[1..], env);
        var rest := Unlimited(files[1..], env);
        forall i | 0 <= i < |items + rest| - 1 ensures (items + rest)[i].Ok? {
          if i < |items| {
            assert (items + rest)[i] == items[i];
          } else {
            assert (items + rest)[i] == rest[i - |items|];
          }
        }
      }
    }
  }

  /** The projector stamps every batch it returns with the partition values
      it was given. */
  ghost predicate StampsPartitionValues(env: Env) {
    forall b, pv :: env.project(b, pv).Ok? ==> env.project(b, pv).value.partitionValues == pv
  }

  predicate AllStamped(items: seq<Item>, pv: seq<ScalarValue>) {
    forall i | 0 <= i < |items| :: items[i].Ok? ==> items[i].value.partitionValues == pv
  }

  lemma {:induction false} StreamStamped(reader: SubStream, pv: seq<ScalarValue>, env: Env)
    requires StampsPartitionValues(env)
    ensures AllStamped(StreamItems(reader, pv, env), pv)
    decreases |reader|
  {
    if |reader| > 0 {
      StreamStamped(reader[1..], pv, env);
      var items := StreamItems(reader, pv, env);
      var rest := StreamItems(reader[1..], pv, env);
      if reader[0].Ready? && reader[0].value.Some? && reader[0].value.value.Ok? {
        var projected := env.project(reader[0].value.value.value, pv);
        if projected.Ok? {
          assert items == [projected] + rest;
          forall i | 1 <= i < |items| ensures items[i].Ok? ==> items[i].value.partitionValues == pv {
            assert items[i] == rest[i - 1];
          }
        }
      }
    }
  }

  /** Every batch a file yields carries that file's partition values. */
  lemma FileStamped(f: PartitionedFile, env: Env)
    requires StampsPartitionValues(env)
    ensures AllStamped(FileItems(f, env), f.partitionValues)
  {
    var future := env.open(f.objectMeta, f.range);
    if future.result.Ok? {
      StreamStamped(future.result.value, f.partitionValues, env);
    }
  }
}
