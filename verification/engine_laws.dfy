/** Laws of one and of several `process` calls of the block engine, stated
    for any voice type: short lists unfolded once, quiet stretches of
    blocks, the scenarios the engine tests exercise, and the double
    rendering of a voice dispatched in the same block. */
module EngineLaws {
  import opened Common
  import opened Dispatch

  // ---------------------------------------------------------------------
  // One step of the loops on short lists

  lemma DispatchOne<V>(ops: SourceOps<V>, t: Timing, streamTime: real, e: Scheduled<V>)
    requires ValidTiming(t)
    ensures var r := ops.render(e.source, Offset(t, e.timestamp, streamTime));
      var d := DispatchDue(ops, t, streamTime, [e]);
      d.0 == [r.out] && d.1 == (if ops.finished(r.voice) then [] else [r.voice])
  {
    assert [e][..|[e]| - 1] == [];
    var front := DispatchDue(ops, t, streamTime, []);
    assert front.0 == [] && front.1 == [];
    var d := DispatchDue(ops, t, streamTime, [e]);
    var r := ops.render(e.source, Offset(t, e.timestamp, streamTime));
    assert d.0 == front.0 + [r.out];
  }

  lemma DispatchTwoFinished<V>(ops: SourceOps<V>, t: Timing, streamTime: real, e1: Scheduled<V>, e2: Scheduled<V>)
    requires ValidTiming(t)
    requires ops.finished(ops.render(e1.source, Offset(t, e1.timestamp, streamTime)).voice)
    requires ops.finished(ops.render(e2.source, Offset(t, e2.timestamp, streamTime)).voice)
    ensures var d := DispatchDue(ops, t, streamTime, [e1, e2]);
      && d.0 == [ops.render(e1.source, Offset(t, e1.timestamp, streamTime)).out,
                 ops.render(e2.source, Offset(t, e2.timestamp, streamTime)).out]
      && d.1 == []
  {
    assert [e1, e2][..1] == [e1];
    DispatchOne(ops, t, streamTime, e1);
    var d := DispatchDue(ops, t, streamTime, [e1, e2]);
    assert d.0 == [ops.render(e1.source, Offset(t, e1.timestamp, streamTime)).out,
                   ops.render(e2.source, Offset(t, e2.timestamp, streamTime)).out];
  }

  lemma RenderOne<V>(ops: SourceOps<V>, v: V)
    ensures var r := RenderRunning(ops, [v]);
      r.0 == [ops.render(v, 0).out] && r.1 == [ops.render(v, 0).voice]
  {
    assert [v][..|[v]| - 1] == [];
    var front := RenderRunning<V>(ops, []);
    assert front.0 == [] && front.1 == [];
    var r := RenderRunning(ops, [v]);
    assert r.0 == front.0 + [ops.render(v, 0).out];
    assert r.1 == front.1 + [ops.render(v, 0).voice];
  }

  lemma RenderTwo<V>(ops: SourceOps<V>, v1: V, v2: V)
    ensures var r := RenderRunning(ops, [v1, v2]);
      && r.0 == [ops.render(v1, 0).out, ops.render(v2, 0).out]
      && r.1 == [ops.render(v1, 0).voice, ops.render(v2, 0).voice]
  {
    assert [v1, v2][..|[v1, v2]| - 1] == [v1];
    RenderOne(ops, v1);
    var front := RenderRunning(ops, [v1]);
    var r := RenderRunning(ops, [v1, v2]);
    assert r.0 == front.0 + [ops.render(v2, 0).out];
    assert r.1 == front.1 + [ops.render(v2, 0).voice];
    assert r.0 == [ops.render(v1, 0).out, ops.render(v2, 0).out];
    assert r.1 == [ops.render(v1, 0).voice, ops.render(v2, 0).voice];
  }

  /** Two events stamped 0.0 both start at once, in send order. */
  lemma AdmitTwoImmediate<V>(t: Timing, now: real, queue: seq<Scheduled<V>>)
    requires |queue| == 2 && queue[0].timestamp == 0.0 && queue[1].timestamp == 0.0
    ensures Admit(t, now, queue).0 == [queue[0].source, queue[1].source]
    ensures Admit(t, now, queue).1 == []
  {
    var q1 := queue[..|queue| - 1];
    assert q1 == [queue[0]];
    assert q1[..|q1| - 1] == [];
    var a0 := Admit(t, now, q1[..|q1| - 1]);
    assert a0.0 == [] && a0.1 == [];
    var a1 := Admit(t, now, q1);
    assert a1.0 == [queue[0].source] && a1.1 == [];
    assert Admit(t, now, queue).0 == a1.0 + [queue[1].source];
  }

  lemma RenderNone<V>(ops: SourceOps<V>)
    ensures RenderRunning<V>(ops, []).0 == [] && RenderRunning<V>(ops, []).1 == []
  {
  }

  /** With nothing queued, the pending list is split as it stands. */
  lemma SplitSortedPending<V>(t: Timing, streamTime: real, pending: seq<Scheduled<V>>)
    requires Sorted(pending)
    ensures SplitPending(t, streamTime, pending, []).0 == SplitDue(pending, BlockEnd(t, streamTime)).0
    ensures SplitPending(t, streamTime, pending, []).1 == SplitDue(pending, BlockEnd(t, streamTime)).1
  {
    assert pending + [] == pending;
    SortSortedIsIdentity(pending);
  }

  // ---------------------------------------------------------------------
  // Quiet blocks

  /** An engine with nothing running, pending or queued stays so and
      outputs silence. */
  lemma IdleIsSilent<V>(ops: SourceOps<V>, t: Timing, e: Engine<V>, streamTime: real)
    requires ValidTiming(t)
    requires e.running == [] && e.pending == [] && e.queue == []
    ensures var r := Process(ops, t, e, streamTime);
      r.out == Zeros(BlockSize) && r.engine.running == [] && r.engine.pending == []
  {
    QuietBlock(ops, t, e, streamTime);
  }

  /** A block before the first pending event, with nothing running or
      queued, is silent and leaves the pending list as it was. */
  lemma QuietBlock<V>(ops: SourceOps<V>, t: Timing, e: Engine<V>, streamTime: real)
    requires ValidTiming(t)
    requires e.running == [] && e.queue == [] && Sorted(e.pending)
    requires |e.pending| == 0 || e.pending[0].timestamp > BlockEnd(t, streamTime)
    ensures var r := Process(ops, t, e, streamTime);
      r.out == Zeros(BlockSize) && r.engine == Engine([], e.pending, [], streamTime)
  {
    var kept := Retain(ops, e.running);
    var admitted := Admit(t, streamTime, e.queue);
    assert admitted.1 == [];
    SplitSortedPending(t, streamTime, e.pending);
    var split := SplitPending(t, streamTime, e.pending, admitted.1);
    assert split.0 == [] && split.1 == e.pending;
    var d := DispatchDue(ops, t, streamTime, split.0);
    assert kept + admitted.0 + d.1 == [];
    RenderNone(ops);
    var blocks := d.0 + RenderRunning(ops, kept + admitted.0 + d.1).0;
    assert blocks == [];
    SumBlocksSingle(Zeros(BlockSize));
    assert SumBlocks(blocks) == Zeros(BlockSize);
    assert Process(ops, t, e, streamTime).out == SumBlocks(blocks);
  }

  /** `process` seen as a step from one engine state to the next. */
  function ProcessStep<V>(ops: SourceOps<V>, t: Timing): (Engine<V>, real) -> Engine<V>
    requires ValidTiming(t)
  {
    (e: Engine<V>, streamTime: real) => Process(ops, t, e, streamTime).engine
  }

  /** Consecutive blocks: `step` applied at each stream time in turn. */
  function RunBlocks<V>(step: (Engine<V>, real) -> Engine<V>, e: Engine<V>, times: seq<real>): Engine<V>
    decreases |times|
  {
    if |times| == 0 then e else RunBlocks(step, step(e, times[0]), times[1..])
  }

  /** The stream times `k0*dt`, `(k0+1)*dt`, ... of `n` blocks: the loops
      of the engine tests. */
  function BlockTimes(k0: nat, n: nat, dt: real): (ts: seq<real>)
    ensures |ts| == n
    ensures forall i :: 0 <= i < n ==> ts[i] == ((k0 + i) as real) * dt
  {
    seq(n, i => ((k0 + i) as real) * dt)
  }

  /** A run of blocks each of which leaves an idle engine with pending list
      `p` as it was ends with that engine. */
  lemma {:induction false} QuietRun<V>(step: (Engine<V>, real) -> Engine<V>, p: seq<Scheduled<V>>, now: real, times: seq<real>)
    requires forall i, t0 :: 0 <= i < |times| ==> step(Engine([], p, [], t0), times[i]) == Engine([], p, [], times[i])
    ensures var f := RunBlocks(step, Engine([], p, [], now), times);
      f.running == [] && f.queue == [] && f.pending == p
    decreases |times|
  {
    if |times| > 0 {
      assert step(Engine([], p, [], now), times[0]) == Engine([], p, [], times[0]);
      forall i, t0 | 0 <= i < |times[1..]|
        ensures step(Engine([], p, [], t0), times[1..][i]) == Engine([], p, [], times[1..][i])
      {
        assert times[1..][i] == times[i + 1];
      }
      QuietRun(step, p, times[0], times[1..]);
    }
  }

  /** Every block that ends before the first pending event is quiet. */
  lemma QuietBlocks<V>(ops: SourceOps<V>, t: Timing, p: seq<Scheduled<V>>, times: seq<real>)
    requires ValidTiming(t) && Sorted(p)
    requires forall i :: 0 <= i < |times| ==> |p| == 0 || p[0].timestamp > BlockEnd(t, times[i])
    ensures forall i, t0 :: 0 <= i < |times| ==>
      ProcessStep(ops, t)(Engine([], p, [], t0), times[i]) == Engine([], p, [], times[i])
  {
    forall i, t0 | 0 <= i < |times|
      ensures ProcessStep(ops, t)(Engine([], p, [], t0), times[i]) == Engine([], p, [], times[i])
    {
      QuietBlock(ops, t, Engine([], p, [], t0), times[i]);
    }
  }

  /** Queued events none of which starts at once all go to the pending list,
      in send order. */
  lemma {:induction false} AdmitAllWait<V>(t: Timing, now: real, queue: seq<Scheduled<V>>)
    requires forall i :: 0 <= i < |queue| ==> !GoesLive(t, now, queue[i])
    ensures Admit(t, now, queue).0 == [] && Admit(t, now, queue).1 == queue
  {
    if |queue| > 0 {
      var front := queue[..|queue| - 1];
      forall i | 0 <= i < |front| ensures !GoesLive(t, now, front[i]) {
        assert front[i] == queue[i];
      }
      AdmitAllWait(t, now, front);
      assert front + [queue[|queue| - 1]] == queue;
    }
  }

  /** The first block after triggering events for later: a sorted queue none
      of whose events is due moves, as it is, to the pending list, and the
      block is silent. */
  lemma QueueWaits<V>(ops: SourceOps<V>, t: Timing, e: Engine<V>, streamTime: real)
    requires ValidTiming(t)
    requires e.running == [] && e.pending == [] && Sorted(e.queue)
    requires forall i :: 0 <= i < |e.queue| ==> !GoesLive(t, streamTime, e.queue[i])
    requires |e.queue| == 0 || e.queue[0].timestamp > BlockEnd(t, streamTime)
    ensures var r := Process(ops, t, e, streamTime);
      r.out == Zeros(BlockSize) && r.engine == Engine([], e.queue, [], streamTime)
  {
    var admitted := Admit(t, streamTime, e.queue);
    AdmitAllWait(t, streamTime, e.queue);
    assert e.pending + admitted.1 == e.queue;
    SortSortedIsIdentity(e.queue);
    var split := SplitPending(t, streamTime, e.pending, admitted.1);
    assert split.0 == [] && split.1 == e.queue;
    var d := DispatchDue(ops, t, streamTime, split.0);
    var running := Retain(ops, e.running) + admitted.0 + d.1;
    assert running == [];
    RenderNone(ops);
    var blocks := d.0 + RenderRunning(ops, running).0;
    assert blocks == [];
    SumBlocksSingle(Zeros(BlockSize));
    assert Process(ops, t, e, streamTime).out == SumBlocks(blocks);
  }

  /** Blocks before the first of some events triggered for later, starting
      at a stream time of 0 or more: the engine ends idle with the events
      pending in timestamp order. */
  lemma WaitingRun<V>(ops: SourceOps<V>, t: Timing, q: seq<Scheduled<V>>, now: real, times: seq<real>)
    requires ValidTiming(t) && Sorted(q) && |q| > 0 && |times| > 0 && times[0] >= 0.0
    requires forall i :: 0 <= i < |times| ==> q[0].timestamp > BlockEnd(t, times[i])
    ensures var f := RunBlocks(ProcessStep(ops, t), Engine([], [], q, now), times);
      f.running == [] && f.queue == [] && f.pending == q
  {
    var step := ProcessStep(ops, t);
    FirstBlockWaits(ops, t, q, now, times[0]);
    assert RunBlocks(step, Engine([], [], q, now), times) == RunBlocks(step, Engine([], q, [], times[0]), times[1..]);
    QuietBlocks(ops, t, q, times[1..]);
    QuietRun(step, q, times[0], times[1..]);
  }

  lemma FirstBlockWaits<V>(ops: SourceOps<V>, t: Timing, q: seq<Scheduled<V>>, now: real, streamTime: real)
    requires ValidTiming(t) && Sorted(q) && |q| > 0 && streamTime >= 0.0
    requires q[0].timestamp > BlockEnd(t, streamTime)
    ensures ProcessStep(ops, t)(Engine([], [], q, now), streamTime) == Engine([], q, [], streamTime)
  {
    forall i | 0 <= i < |q| ensures !GoesLive(t, streamTime, q[i]) {
      assert q[0].timestamp <= q[i].timestamp;
    }
    QueueWaits(ops, t, Engine([], [], q, now), streamTime);
  }

  /** Two events triggered for later that fall due in the same block (the
      scheduled and overlap tests): that block is the sum of the two voices,
      each rendered once from its own offset. */
  lemma PairDueTogether<V>(ops: SourceOps<V>, t: Timing, e1: Scheduled<V>, e2: Scheduled<V>, now: real, times: seq<real>, streamTime: real)
    requires ValidTiming(t) && |times| > 0 && times[0] >= 0.0
    requires forall i :: 0 <= i < |times| ==> e1.timestamp > BlockEnd(t, times[i])
    requires e1.timestamp <= e2.timestamp <= BlockEnd(t, streamTime)
    requires ops.finished(ops.render(e1.source, Offset(t, e1.timestamp, streamTime)).voice)
    requires ops.finished(ops.render(e2.source, Offset(t, e2.timestamp, streamTime)).voice)
    ensures var r := Process(ops, t, RunBlocks(ProcessStep(ops, t), Engine([], [], [e1, e2], now), times), streamTime);
      r.out == Mix(ops.render(e1.source, Offset(t, e1.timestamp, streamTime)).out,
                   ops.render(e2.source, Offset(t, e2.timestamp, streamTime)).out)
  {
    WaitingRun(ops, t, [e1, e2], now, times);
    PairBothDue(ops, t, RunBlocks(ProcessStep(ops, t), Engine([], [], [e1, e2], now), times), e1, e2, streamTime);
  }

  lemma PairBothDue<V>(ops: SourceOps<V>, t: Timing, before: Engine<V>, e1: Scheduled<V>, e2: Scheduled<V>, streamTime: real)
    requires ValidTiming(t)
    requires before.running == [] && before.queue == [] && before.pending == [e1, e2]
    requires e1.timestamp <= e2.timestamp <= BlockEnd(t, streamTime)
    requires ops.finished(ops.render(e1.source, Offset(t, e1.timestamp, streamTime)).voice)
    requires ops.finished(ops.render(e2.source, Offset(t, e2.timestamp, streamTime)).voice)
    ensures var r := Process(ops, t, before, streamTime);
      r.out == Mix(ops.render(e1.source, Offset(t, e1.timestamp, streamTime)).out,
                   ops.render(e2.source, Offset(t, e2.timestamp, streamTime)).out)
  {
    assert Sorted(before.pending);
    BothDue(ops, t, before, streamTime);
  }

  /** Two events triggered for later that fall due in different blocks (the
      disjunct test): the first block is the first voice alone, the blocks
      in between leave the second pending, and its block is that voice
      alone. */
  lemma PairDueApart<V>(ops: SourceOps<V>, t: Timing, e1: Scheduled<V>, e2: Scheduled<V>, now: real,
                        before: seq<real>, first: real, between: seq<real>, second: real)
    requires ValidTiming(t) && |before| > 0 && before[0] >= 0.0
    requires forall i :: 0 <= i < |before| ==> e1.timestamp > BlockEnd(t, before[i])
    requires e1.timestamp <= BlockEnd(t, first) < e2.timestamp <= BlockEnd(t, second)
    requires forall i :: 0 <= i < |between| ==> e2.timestamp > BlockEnd(t, between[i])
    requires ops.finished(ops.render(e1.source, Offset(t, e1.timestamp, first)).voice)
    requires ops.finished(ops.render(e2.source, Offset(t, e2.timestamp, second)).voice)
    ensures var r1 := Process(ops, t, RunBlocks(ProcessStep(ops, t), Engine([], [], [e1, e2], now), before), first);
      var r2 := Process(ops, t, RunBlocks(ProcessStep(ops, t), r1.engine, between), second);
      && r1.out == ops.render(e1.source, Offset(t, e1.timestamp, first)).out
      && r2.out == ops.render(e2.source, Offset(t, e2.timestamp, second)).out
  {
    WaitingRun(ops, t, [e1, e2], now, before);
    var e := RunBlocks(ProcessStep(ops, t), Engine([], [], [e1, e2], now), before);
    FirstOfPairAlone(ops, t, e, e1, e2, first);
    LaterAloneDue(ops, t, e2, first, between, second);
  }

  /** A lone pending event renders alone in its block after blocks that end
      before it. */
  lemma LaterAloneDue<V>(ops: SourceOps<V>, t: Timing, e2: Scheduled<V>, now: real, between: seq<real>, second: real)
    requires ValidTiming(t)
    requires forall i :: 0 <= i < |between| ==> e2.timestamp > BlockEnd(t, between[i])
    requires e2.timestamp <= BlockEnd(t, second)
    requires ops.finished(ops.render(e2.source, Offset(t, e2.timestamp, second)).voice)
    ensures var e := RunBlocks(ProcessStep(ops, t), Engine([], [e2], [], now), between);
      Process(ops, t, e, second).out == ops.render(e2.source, Offset(t, e2.timestamp, second)).out
  {
    var step := ProcessStep(ops, t);
    QuietBlocks(ops, t, [e2], between);
    QuietRun(step, [e2], now, between);
    var e := RunBlocks(step, Engine([], [e2], [], now), between);
    LeadingDue(ops, t, e, second);
  }

  lemma FirstOfPairAlone<V>(ops: SourceOps<V>, t: Timing, before: Engine<V>, e1: Scheduled<V>, e2: Scheduled<V>, streamTime: real)
    requires ValidTiming(t)
    requires before.running == [] && before.queue == [] && before.pending == [e1, e2]
    requires e1.timestamp <= BlockEnd(t, streamTime) < e2.timestamp
    requires ops.finished(ops.render(e1.source, Offset(t, e1.timestamp, streamTime)).voice)
    ensures var first := Process(ops, t, before, streamTime);
      && first.engine == Engine([], [e2], [], streamTime)
      && first.out == ops.render(e1.source, Offset(t, e1.timestamp, streamTime)).out
  {
    assert Sorted(before.pending);
    LeadingDue(ops, t, before, streamTime);
    assert before.pending[1..] == [e2];
  }

  /** Events stamped 0.0 start in the block they are admitted to, rendered
      from frame 0 and summed. */
  lemma ImmediatePair<V>(ops: SourceOps<V>, t: Timing, e: Engine<V>, streamTime: real)
    requires ValidTiming(t)
    requires e.running == [] && e.pending == [] && |e.queue| == 2
    requires e.queue[0].timestamp == 0.0 && e.queue[1].timestamp == 0.0
    ensures var r := Process(ops, t, e, streamTime);
      && r.engine.pending == []
      && r.out == Mix(ops.render(e.queue[0].source, 0).out, ops.render(e.queue[1].source, 0).out)
  {
    var admitted := Admit(t, streamTime, e.queue);
    AdmitTwoImmediate(t, streamTime, e.queue);
    SplitSortedPending(t, streamTime, e.pending);
    var split := SplitPending(t, streamTime, e.pending, admitted.1);
    assert split.0 == [] && split.1 == [];
    var d := DispatchDue(ops, t, streamTime, split.0);
    var running := Retain(ops, e.running) + admitted.0 + d.1;
    assert running == admitted.0;
    RenderTwo(ops, e.queue[0].source, e.queue[1].source);
    var rendered := RenderRunning(ops, running);
    var blocks := d.0 + rendered.0;
    assert blocks == [rendered.0[0], rendered.0[1]];
    SumOfTwo(rendered.0[0], rendered.0[1]);
    assert Process(ops, t, e, streamTime).out == SumBlocks(blocks);
  }

  /** The head of a sorted pending list is due in this block and the next
      event is not: the head renders once at its offset and, being finished,
      is not kept running; the rest stays pending. */
  lemma LeadingDue<V>(ops: SourceOps<V>, t: Timing, e: Engine<V>, streamTime: real)
    requires ValidTiming(t)
    requires e.running == [] && e.queue == [] && |e.pending| > 0 && Sorted(e.pending)
    requires e.pending[0].timestamp <= BlockEnd(t, streamTime)
    requires |e.pending| == 1 || e.pending[1].timestamp > BlockEnd(t, streamTime)
    requires ops.finished(ops.render(e.pending[0].source, Offset(t, e.pending[0].timestamp, streamTime)).voice)
    ensures var r := Process(ops, t, e, streamTime);
      && r.engine == Engine([], e.pending[1..], [], streamTime)
      && r.out == ops.render(e.pending[0].source, Offset(t, e.pending[0].timestamp, streamTime)).out
  {
    var end := BlockEnd(t, streamTime);
    SplitSortedPending(t, streamTime, e.pending);
    var inner := SplitDue(e.pending[1..], end);
    assert inner.0 == [] && inner.1 == e.pending[1..];
    var split := SplitDue(e.pending, end);
    assert split.0 == [e.pending[0]] && split.1 == e.pending[1..];
    DispatchOne(ops, t, streamTime, e.pending[0]);
    var d := DispatchDue(ops, t, streamTime, split.0);
    var running := Retain(ops, e.running) + Admit(t, streamTime, e.queue).0 + d.1;
    assert running == [];
    RenderNone(ops);
    var blocks := d.0 + RenderRunning(ops, running).0;
    assert blocks == [d.0[0]];
    SumBlocksSingle(d.0[0]);
    assert Process(ops, t, e, streamTime).out == SumBlocks(blocks);
  }

  /** A sorted pending pair, both due in this block: each renders once at its
      own offset and, being finished, is not kept running. */
  lemma BothDue<V>(ops: SourceOps<V>, t: Timing, e: Engine<V>, streamTime: real)
    requires ValidTiming(t)
    requires e.running == [] && e.queue == [] && |e.pending| == 2 && Sorted(e.pending)
    requires e.pending[1].timestamp <= BlockEnd(t, streamTime)
    requires ops.finished(ops.render(e.pending[0].source, Offset(t, e.pending[0].timestamp, streamTime)).voice)
    requires ops.finished(ops.render(e.pending[1].source, Offset(t, e.pending[1].timestamp, streamTime)).voice)
    ensures var r := Process(ops, t, e, streamTime);
      && r.engine.running == [] && r.engine.pending == []
      && r.out == Mix(ops.render(e.pending[0].source, Offset(t, e.pending[0].timestamp, streamTime)).out,
                      ops.render(e.pending[1].source, Offset(t, e.pending[1].timestamp, streamTime)).out)
  {
    SplitSortedPending(t, streamTime, e.pending);
    var admitted := Admit(t, streamTime, e.queue);
    var split := SplitPending(t, streamTime, e.pending, admitted.1);
    var end := BlockEnd(t, streamTime);
    assert e.pending[0].timestamp <= e.pending[1].timestamp;
    assert e.pending[1..][1..] == [];
    var tail := e.pending[1..];
    assert tail == [e.pending[1]];
    var innermost := SplitDue(tail[1..], end);
    assert innermost.0 == [] && innermost.1 == [];
    var inner := SplitDue(tail, end);
    assert inner.0 == [e.pending[1]] + innermost.0;
    assert inner.0 == [e.pending[1]] && inner.1 == [];
    assert split == SplitDue(e.pending, end);
    assert split.0 == [e.pending[0]] + inner.0;
    assert split.0 == [e.pending[0], e.pending[1]] && split.1 == [];
    DispatchTwoFinished(ops, t, streamTime, e.pending[0], e.pending[1]);
    var d := DispatchDue(ops, t, streamTime, split.0);
    var running := Retain(ops, e.running) + admitted.0 + d.1;
    assert running == [];
    RenderNone(ops);
    var blocks := d.0 + RenderRunning(ops, running).0;
    assert blocks == [d.0[0], d.0[1]];
    SumOfTwo(d.0[0], d.0[1]);
    assert Process(ops, t, e, streamTime).out == SumBlocks(blocks);
  }

  /** As written, a voice dispatched in this block that is still sounding
      is mixed twice: once from its offset and once more from frame 0. */
  lemma AsWrittenRendersDispatchedTwice<V>(ops: SourceOps<V>, t: Timing, e: Engine<V>, streamTime: real)
    requires ValidTiming(t)
    requires e.running == [] && e.queue == [] && |e.pending| == 1
    requires e.pending[0].timestamp <= BlockEnd(t, streamTime)
    requires !ops.finished(ops.render(e.pending[0].source, Offset(t, e.pending[0].timestamp, streamTime)).voice)
    ensures var first := ops.render(e.pending[0].source, Offset(t, e.pending[0].timestamp, streamTime));
      var again := ops.render(first.voice, 0);
      var r := Process(ops, t, e, streamTime);
      && r.engine.running == [again.voice]
      && r.out == Mix(first.out, again.out)
  {
    SplitSortedPending(t, streamTime, e.pending);
    assert SplitDue(e.pending, BlockEnd(t, streamTime)).0 == e.pending;
    assert e.pending == [e.pending[0]];
    var first := ops.render(e.pending[0].source, Offset(t, e.pending[0].timestamp, streamTime));
    DispatchOne(ops, t, streamTime, e.pending[0]);
    assert Retain(ops, e.running) + [] + [first.voice] == [first.voice];
    RenderOne(ops, first.voice);
    var again := ops.render(first.voice, 0);
    assert [first.out] + [again.out] == [first.out, again.out];
    SumOfTwo(first.out, again.out);
  }

  /** Corrected, the same voice is mixed once in its first block and joins
      the running voices unchanged, to continue from frame 0 in the next. */
  lemma CorrectedRendersDispatchedOnce<V>(ops: SourceOps<V>, t: Timing, e: Engine<V>, streamTime: real)
    requires ValidTiming(t)
    requires e.running == [] && e.queue == [] && |e.pending| == 1
    requires e.pending[0].timestamp <= BlockEnd(t, streamTime)
    requires !ops.finished(ops.render(e.pending[0].source, Offset(t, e.pending[0].timestamp, streamTime)).voice)
    ensures var first := ops.render(e.pending[0].source, Offset(t, e.pending[0].timestamp, streamTime));
      var r := ProcessCorrected(ops, t, e, streamTime);
      && r.engine.running == [first.voice]
      && r.out == first.out
  {
    SplitSortedPending(t, streamTime, e.pending);
    assert SplitDue(e.pending, BlockEnd(t, streamTime)).0 == e.pending;
    assert e.pending == [e.pending[0]];
    var first := ops.render(e.pending[0].source, Offset(t, e.pending[0].timestamp, streamTime));
    DispatchOne(ops, t, streamTime, e.pending[0]);
    assert Retain(ops, e.running) + [] == [];
    assert RenderRunning<V>(ops, []) == ([], []);
    assert [] + [first.out] == [first.out];
    assert [] + [first.voice] == [first.voice];
    SumBlocksSingle(first.out);
  }

  /** The next corrected block renders a lone running voice from frame 0. */
  lemma CorrectedContinues<V>(ops: SourceOps<V>, t: Timing, e: Engine<V>, streamTime: real)
    requires ValidTiming(t)
    requires |e.running| == 1 && !ops.finished(e.running[0]) && e.queue == [] && e.pending == []
    ensures var r := ProcessCorrected(ops, t, e, streamTime);
      && r.out == ops.render(e.running[0], 0).out
      && r.engine.running == [ops.render(e.running[0], 0).voice]
  {
    RetainKeepsUnfinished(ops, e.running);
    SplitSortedPending(t, streamTime, e.pending);
    assert e.running + [] == [e.running[0]];
    RenderOne(ops, e.running[0]);
    var b := ops.render(e.running[0], 0);
    assert DispatchDue<V>(ops, t, streamTime, []) == ([], []);
    assert [b.out] + [] == [b.out];
    assert [b.voice] + [] == [b.voice];
    SumBlocksSingle(b.out);
  }

  /** The two late-event policies: the synth variant starts an event whose
      time has passed at once; the sampler variant sends it through the
      pending list, where it is due at once and starts at frame 0. */
  lemma LateEventPolicies<V>(t: Timing, ev: Scheduled<V>, streamTime: real)
    requires ValidTiming(t)
    requires 0.0 < ev.timestamp <= streamTime
    ensures GoesLive(t, streamTime, ev) <==> t.lateStartsNow
    ensures ev.timestamp <= BlockEnd(t, streamTime)
    ensures Offset(t, ev.timestamp, streamTime) == 0
  {
    assert (ev.timestamp - streamTime) / t.secPerSample <= 0.0;
  }
}
