/** The block engine shared by the two scheduling `Ruffbox` variants
    (ruffbox-synth/src/ruffbox.rs and ruffbox-sampler/src/ruffbox.rs).
    Both run the same `process` loop over a queue of triggered events, a
    pending list ordered by timestamp and a list of running voices; they
    differ only in the timing constants, in whether a late event starts at
    once, and in whether the sample offset is rounded or truncated. The
    voice type is a parameter: `SourceOps` stands for the `Source` trait.

    The step functions here only compute; what each of them guarantees is
    stated by the lemma that follows it. */
module Dispatch {
  import opened Common

  /** A voice after rendering one block, and the block it produced. */
  datatype Rendered<V> = Rendered(voice: V, out: Block)

  /** `get_next_block(start)` and `is_finished` of a voice type. */
  datatype SourceOps<!V> = SourceOps(render: (V, nat) -> Rendered<V>, finished: V -> bool)

  /** `ScheduledEvent`: a voice and the stream time it should start at. */
  datatype Scheduled<V> = Scheduled(timestamp: real, source: V)

  /** The constants and policies that tell the two engine variants apart. */
  datatype Timing = Timing(blockDuration: real, secPerSample: real, lateStartsNow: bool, roundsOffset: bool)

  predicate ValidTiming(t: Timing) {
    t.secPerSample > 0.0 && t.blockDuration > 0.0
  }

  /** The engine state `process` reads and writes. `queue` is the channel of
      triggered events, in send order; `now` is the last stream time seen. */
  datatype Engine<V> = Engine(running: seq<V>, pending: seq<Scheduled<V>>, queue: seq<Scheduled<V>>, now: real)

  datatype Output<V> = Output(engine: Engine<V>, out: Block)

  /** A newly constructed engine: nothing running, pending or queued. */
  function Empty<V>(): Engine<V> {
    Engine([], [], [], 0.0)
  }

  // ---------------------------------------------------------------------
  // Sample offsets

  /** `x as usize` for an `f64`: truncation toward zero, negative values
      saturate to 0. */
  function Truncate(x: real): (n: nat)
    ensures x >= 0.0 ==> n as real <= x < n as real + 1.0
    ensures x < 0.0 ==> n == 0
  {
    if x < 0.0 then 0 else x.Floor
  }

  /** `x.round() as usize`: round half away from zero, then saturate
      negative results to 0. */
  function Round(x: real): (n: nat)
    ensures x >= 0.0 ==> x - 0.5 < n as real <= x + 0.5
    ensures x < 0.0 ==> n == 0
  {
    if x < 0.0 then 0 else (x + 0.5).Floor
  }

  /** The frame of the current block at which an event starts. */
  function Offset(t: Timing, timestamp: real, streamTime: real): nat
    requires ValidTiming(t)
  {
    var x := (timestamp - streamTime) / t.secPerSample;
    if t.roundsOffset then Round(x) else Truncate(x)
  }

  /** An event's offset is less than one frame from its exact position, and
      an event at or before the block start begins at frame 0. */
  lemma OffsetIsNearExact(t: Timing, timestamp: real, streamTime: real)
    requires ValidTiming(t)
    ensures var x := (timestamp - streamTime) / t.secPerSample;
      && (timestamp <= streamTime ==> Offset(t, timestamp, streamTime) == 0)
      && (x >= 0.0 ==> x - 1.0 < Offset(t, timestamp, streamTime) as real <= x + 0.5)
  {
    var x := (timestamp - streamTime) / t.secPerSample;
    if timestamp <= streamTime {
      assert x <= 0.0;
      if x == 0.0 {
        assert Round(x) == 0;
      }
    }
  }

  /** The offset in the variant's own terms: rounded in the synth engine,
      truncated in the sampler engine. */
  lemma OffsetByPolicy(t: Timing, timestamp: real, streamTime: real)
    requires ValidTiming(t)
    ensures t.roundsOffset ==> Offset(t, timestamp, streamTime) == Round((timestamp - streamTime) / t.secPerSample)
    ensures !t.roundsOffset ==> Offset(t, timestamp, streamTime) == Truncate((timestamp - streamTime) / t.secPerSample)
  {
  }

  /** Entry `i` of the reference rendering is event `i` rendered from its
      offset. */
  lemma RenderedAtOffsetsAt<V>(ops: SourceOps<V>, t: Timing, streamTime: real, due: seq<Scheduled<V>>, i: nat)
    requires ValidTiming(t) && i < |due|
    ensures RenderedAtOffsets(ops, t, streamTime, due)[i] == ops.render(due[i].source, Offset(t, due[i].timestamp, streamTime))
  {
  }

  function BlockEnd(t: Timing, streamTime: real): real {
    streamTime + t.blockDuration
  }

  // ---------------------------------------------------------------------
  // Retaining live voices

  /** `running_instances.retain(|i| !i.is_finished())`. */
  function Retain<V>(ops: SourceOps<V>, vs: seq<V>): seq<V>
  {
    if |vs| == 0 then []
    else
      var rest := Retain(ops, vs[..|vs| - 1]);
      if ops.finished(vs[|vs| - 1]) then rest else rest + [vs[|vs| - 1]]
  }

  /** Retaining keeps exactly the unfinished voices. */
  lemma {:induction false} RetainLaw<V>(ops: SourceOps<V>, vs: seq<V>)
    ensures var r := Retain(ops, vs);
      && |r| <= |vs|
      && (forall i :: 0 <= i < |r| ==> !ops.finished(r[i]) && r[i] in vs)
      && (forall i :: 0 <= i < |vs| && !ops.finished(vs[i]) ==> vs[i] in r)
      && (forall v :: multiset(r)[v] == if ops.finished(v) then 0 else multiset(vs)[v])
  {
    RetainCounts(ops, vs);
    if |vs| > 0 {
      var front := vs[..|vs| - 1];
      RetainLaw(ops, front);
      var r := Retain(ops, vs);
      forall i | 0 <= i < |r| ensures r[i] in vs {
        if i < |Retain(ops, front)| {
          assert r[i] == Retain(ops, front)[i];
          assert r[i] in front;
        }
      }
      forall i | 0 <= i < |vs| && !ops.finished(vs[i]) ensures vs[i] in r {
        if i < |vs| - 1 {
          assert vs[i] == front[i];
        }
      }
    }
  }

  /** Every unfinished voice is kept as many times as it occurs, and no
      finished one is kept. */
  lemma {:induction false} RetainCounts<V>(ops: SourceOps<V>, vs: seq<V>)
    ensures forall v :: multiset(Retain(ops, vs))[v] == if ops.finished(v) then 0 else multiset(vs)[v]
  {
    if |vs| > 0 {
      var front := vs[..|vs| - 1];
      RetainCounts(ops, front);
      assert vs == front + [vs[|vs| - 1]];
    }
  }

  /** Retaining works element by element: the voices kept from a
      concatenation are those kept from each part, in the original order. */
  lemma {:induction false} RetainAppend<V>(ops: SourceOps<V>, a: seq<V>, b: seq<V>)
    ensures Retain(ops, a + b) == Retain(ops, a) + Retain(ops, b)
    ensures Retain(ops, [] + b) == Retain(ops, b)
    decreases |b|
  {
    assert [] + b == b;
    if |b| == 0 {
      assert a + b == a;
    } else {
      var front := b[..|b| - 1];
      var x := b[|b| - 1];
      RetainAppend(ops, a, front);
      assert (a + b)[..|a + b| - 1] == a + front;
      var ra := Retain(ops, a);
      var rf := Retain(ops, front);
      if !ops.finished(x) {
        assert Retain(ops, a + b) == (ra + rf) + [x];
        assert (ra + rf) + [x] == ra + (rf + [x]);
      }
    }
  }

  /** With no finished voice, retaining changes nothing. */
  lemma {:induction false} RetainKeepsUnfinished<V>(ops: SourceOps<V>, vs: seq<V>)
    requires forall i :: 0 <= i < |vs| ==> !ops.finished(vs[i])
    ensures Retain(ops, vs) == vs
  {
    if |vs| > 0 {
      RetainKeepsUnfinished(ops, vs[..|vs| - 1]);
      assert vs[..|vs| - 1] + [vs[|vs| - 1]] == vs;
    }
  }

  /** With every voice finished, retaining drops them all. */
  lemma {:induction false} RetainDropsFinished<V>(ops: SourceOps<V>, vs: seq<V>)
    requires forall i :: 0 <= i < |vs| ==> ops.finished(vs[i])
    ensures Retain(ops, vs) == []
  {
    if |vs| > 0 {
      RetainDropsFinished(ops, vs[..|vs| - 1]);
    }
  }

  /** Dropping finished voices twice is dropping them once. */
  lemma RetainIdempotent<V>(ops: SourceOps<V>, vs: seq<V>)
    ensures Retain(ops, Retain(ops, vs)) == Retain(ops, vs)
  {
    RetainLaw(ops, vs);
    RetainKeepsUnfinished(ops, Retain(ops, vs));
  }

  // ---------------------------------------------------------------------
  // Admitting queued events

  /** Whether a queued event skips the pending list. Timestamp 0.0 means
      "now" in both variants; the synth variant also starts late events. */
  predicate GoesLive<V>(t: Timing, now: real, e: Scheduled<V>) {
    e.timestamp == 0.0 || (t.lateStartsNow && e.timestamp <= now)
  }

  /** The `try_iter` loop: each queued event, in send order, joins the
      running voices or the pending list. */
  function Admit<V>(t: Timing, now: real, queue: seq<Scheduled<V>>): (seq<V>, seq<Scheduled<V>>)
  {
    if |queue| == 0 then ([], [])
    else
      var front := Admit(t, now, queue[..|queue| - 1]);
      var e := queue[|queue| - 1];
      if GoesLive(t, now, e) then (front.0 + [e.source], front.1)
      else (front.0, front.1 + [e])
  }

  /** Every queued event goes exactly one way: its voice starts, or the
      event waits in the pending list. */
  lemma AdmitLaw<V>(t: Timing, now: real, queue: seq<Scheduled<V>>)
    ensures var r := Admit(t, now, queue);
      && |r.0| + |r.1| == |queue|
      && (forall i :: 0 <= i < |r.1| ==> !GoesLive(t, now, r.1[i]) && r.1[i] in queue)
      && (forall i :: 0 <= i < |queue| && GoesLive(t, now, queue[i]) ==> queue[i].source in r.0)
      && (forall i :: 0 <= i < |queue| && !GoesLive(t, now, queue[i]) ==> queue[i] in r.1)
      && (forall ev :: multiset(r.1)[ev] == if GoesLive(t, now, ev) then 0 else multiset(queue)[ev])
  {
    AdmitMembers(t, now, queue);
    AdmitCounts(t, now, queue);
  }

  lemma {:induction false} AdmitMembers<V>(t: Timing, now: real, queue: seq<Scheduled<V>>)
    ensures var r := Admit(t, now, queue);
      && |r.0| + |r.1| == |queue|
      && (forall i :: 0 <= i < |r.1| ==> !GoesLive(t, now, r.1[i]) && r.1[i] in queue)
      && (forall i :: 0 <= i < |queue| && GoesLive(t, now, queue[i]) ==> queue[i].source in r.0)
      && (forall i :: 0 <= i < |queue| && !GoesLive(t, now, queue[i]) ==> queue[i] in r.1)
  {
    if |queue| > 0 {
      var front := queue[..|queue| - 1];
      AdmitMembers(t, now, front);
      var r := Admit(t, now, queue);
      var f := Admit(t, now, front);
      forall i | 0 <= i < |r.1| ensures r.1[i] in queue {
        if i < |f.1| {
          assert r.1[i] == f.1[i];
          assert f.1[i] in front;
        }
      }
      forall i | 0 <= i < |queue| - 1 ensures queue[i] == front[i] {
      }
    }
  }

  /** Each event that waits is kept as many times as it was queued. */
  lemma {:induction false} AdmitCounts<V>(t: Timing, now: real, queue: seq<Scheduled<V>>)
    ensures forall ev :: multiset(Admit(t, now, queue).1)[ev] == if GoesLive(t, now, ev) then 0 else multiset(queue)[ev]
  {
    if |queue| > 0 {
      var front := queue[..|queue| - 1];
      AdmitCounts(t, now, front);
      assert queue == front + [queue[|queue| - 1]];
    }
  }

  /** Admitting works event by event, in send order: the voices started and
      the events left waiting from a concatenation are those of each part,
      one after the other; a single event starts or waits as `GoesLive` says. */
  lemma {:induction false} AdmitAppend<V>(t: Timing, now: real, a: seq<Scheduled<V>>, b: seq<Scheduled<V>>)
    ensures var ra := Admit(t, now, a);
      var rb := Admit(t, now, b);
      Admit(t, now, a + b) == (ra.0 + rb.0, ra.1 + rb.1)
    ensures forall ev: Scheduled<V> :: Admit(t, now, [ev]) == if GoesLive(t, now, ev) then ([ev.source], []) else ([], [ev])
    decreases |b|
  {
    forall ev: Scheduled<V> ensures Admit(t, now, [ev]) == if GoesLive(t, now, ev) then ([ev.source], []) else ([], [ev]) {
      AdmitOne(t, now, ev);
    }
    if |b| == 0 {
      var ra := Admit(t, now, a);
      assert a + b == a && ra.0 + [] == ra.0 && ra.1 + [] == ra.1;
    } else {
      var front := b[..|b| - 1];
      var x := b[|b| - 1];
      AdmitAppend(t, now, a, front);
      assert (a + b)[..|a + b| - 1] == a + front;
      var ra := Admit(t, now, a);
      var rf := Admit(t, now, front);
      if GoesLive(t, now, x) {
        assert Admit(t, now, a + b) == ((ra.0 + rf.0) + [x.source], ra.1 + rf.1);
        assert (ra.0 + rf.0) + [x.source] == ra.0 + (rf.0 + [x.source]);
      } else {
        assert Admit(t, now, a + b) == (ra.0 + rf.0, (ra.1 + rf.1) + [x]);
        assert (ra.1 + rf.1) + [x] == ra.1 + (rf.1 + [x]);
      }
    }
  }

  lemma AdmitOne<V>(t: Timing, now: real, ev: Scheduled<V>)
    ensures Admit(t, now, [ev]) == if GoesLive(t, now, ev) then ([ev.source], []) else ([], [ev])
  {
    assert [ev][..0] == [];
    assert Admit(t, now, [ev][..0]) == ([], []);
    assert [] + [ev.source] == [ev.source] && [] + [ev] == [ev];
  }

  // ---------------------------------------------------------------------
  // The pending list

  /** Ascending by timestamp: the next event to fire comes first. */
  ghost predicate Sorted<V>(p: seq<Scheduled<V>>) {
    forall i, j :: 0 <= i < j < |p| ==> p[i].timestamp <= p[j].timestamp
  }

  /** Inserts after every event with an equal or earlier timestamp. */
  function Insert<V>(p: seq<Scheduled<V>>, e: Scheduled<V>): seq<Scheduled<V>>
  {
    if |p| == 0 then [e]
    else if e.timestamp < p[0].timestamp then [e] + p
    else [p[0]] + Insert(p[1..], e)
  }

  /** Insertion keeps a list sorted and adds exactly the one event. */
  lemma InsertLaw<V>(p: seq<Scheduled<V>>, e: Scheduled<V>)
    requires Sorted(p)
    ensures var r := Insert(p, e);
      && Sorted(r)
      && multiset(r) == multiset(p) + multiset{e}
      && |r| == |p| + 1
      && r[0] == (if |p| == 0 || e.timestamp < p[0].timestamp then e else p[0])
  {
    InsertAddsOne(p, e);
    InsertSorted(p, e);
  }

  lemma {:induction false} InsertAddsOne<V>(p: seq<Scheduled<V>>, e: Scheduled<V>)
    ensures multiset(Insert(p, e)) == multiset(p) + multiset{e}
    ensures |Insert(p, e)| == |p| + 1
  {
    if |p| > 0 && e.timestamp >= p[0].timestamp {
      InsertAddsOne(p[1..], e);
      assert p == [p[0]] + p[1..];
    }
  }

  lemma {:induction false} InsertSorted<V>(p: seq<Scheduled<V>>, e: Scheduled<V>)
    requires Sorted(p)
    ensures |Insert(p, e)| > 0
    ensures Sorted(Insert(p, e))
    ensures Insert(p, e)[0] == (if |p| == 0 || e.timestamp < p[0].timestamp then e else p[0])
  {
    if |p| > 0 && e.timestamp >= p[0].timestamp {
      var tail := p[1..];
      assert Sorted(tail);
      InsertSorted(tail, e);
      ConsSorted(p[0], Insert(tail, e));
    }
  }

  lemma ConsSorted<V>(x: Scheduled<V>, rest: seq<Scheduled<V>>)
    requires Sorted(rest) && (|rest| > 0 ==> x.timestamp <= rest[0].timestamp)
    ensures Sorted([x] + rest)
  {
    var r := [x] + rest;
    forall i, j | 0 <= i < j < |r| ensures r[i].timestamp <= r[j].timestamp {
      if i == 0 {
        assert r[j] == rest[j - 1];
        assert rest[0].timestamp <= rest[j - 1].timestamp;
      } else {
        assert r[i] == rest[i - 1] && r[j] == rest[j - 1];
      }
    }
  }

  /** `sort_unstable_by` on the pending list, modelled as a stable insertion
      sort (see the note on equal timestamps in README). */
  function Sort<V>(p: seq<Scheduled<V>>): seq<Scheduled<V>>
  {
    if |p| == 0 then [] else Insert(Sort(p[..|p| - 1]), p[|p| - 1])
  }

  /** Sorting orders the list by timestamp and loses or adds nothing. */
  lemma SortLaw<V>(p: seq<Scheduled<V>>)
    ensures Sorted(Sort(p))
    ensures multiset(Sort(p)) == multiset(p)
  {
    SortSorted(p);
    SortPermutes(p);
  }

  lemma {:induction false} SortSorted<V>(p: seq<Scheduled<V>>)
    ensures Sorted(Sort(p))
  {
    if |p| > 0 {
      SortSorted(p[..|p| - 1]);
      InsertSorted(Sort(p[..|p| - 1]), p[|p| - 1]);
    }
  }

  lemma {:induction false} SortPermutes<V>(p: seq<Scheduled<V>>)
    ensures multiset(Sort(p)) == multiset(p)
  {
    if |p| > 0 {
      SortPermutes(p[..|p| - 1]);
      InsertAddsOne(Sort(p[..|p| - 1]), p[|p| - 1]);
      assert p == p[..|p| - 1] + [p[|p| - 1]];
    }
  }

  /** An event no earlier than every element of a list goes last. */
  lemma {:induction false} InsertLatest<V>(p: seq<Scheduled<V>>, e: Scheduled<V>)
    requires forall i :: 0 <= i < |p| ==> p[i].timestamp <= e.timestamp
    ensures Insert(p, e) == p + [e]
  {
    if |p| > 0 {
      InsertLatest(p[1..], e);
      assert [p[0]] + (p[1..] + [e]) == p + [e];
    }
  }

  /** Sorting an already sorted list changes nothing. */
  lemma {:induction false} SortSortedIsIdentity<V>(p: seq<Scheduled<V>>)
    requires Sorted(p)
    ensures Sort(p) == p
  {
    if |p| > 0 {
      var front := p[..|p| - 1];
      assert Sorted(front);
      SortSortedIsIdentity(front);
      InsertLatest(front, p[|p| - 1]);
      assert front + [p[|p| - 1]] == p;
    }
  }

  /** The `while` loop's guard applied repeatedly: the longest prefix whose
      timestamps are within the block, and the rest. */
  function SplitDue<V>(p: seq<Scheduled<V>>, blockEnd: real): (seq<Scheduled<V>>, seq<Scheduled<V>>)
  {
    if |p| == 0 || p[0].timestamp > blockEnd then ([], p)
    else
      var rest := SplitDue(p[1..], blockEnd);
      ([p[0]] + rest.0, rest.1)
  }

  /** The split cuts the list in two: everything taken is within the block,
      and the first event left is beyond it. */
  lemma {:induction false} SplitDueLaw<V>(p: seq<Scheduled<V>>, blockEnd: real)
    ensures var r := SplitDue(p, blockEnd);
      && r.0 + r.1 == p
      && (forall i :: 0 <= i < |r.0| ==> r.0[i].timestamp <= blockEnd)
      && (|r.1| > 0 ==> r.1[0].timestamp > blockEnd)
  {
    if |p| > 0 && p[0].timestamp <= blockEnd {
      SplitDueLaw(p[1..], blockEnd);
      var rest := SplitDue(p[1..], blockEnd);
      assert p == [p[0]] + p[1..];
      assert [p[0]] + rest.0 + rest.1 == [p[0]] + (rest.0 + rest.1);
      var r0 := [p[0]] + rest.0;
      forall i | 0 <= i < |r0| ensures r0[i].timestamp <= blockEnd {
        if i > 0 {
          assert r0[i] == rest.0[i - 1];
        }
      }
    }
  }

  /** On a sorted list the split is exact: an event is dispatched if and only
      if its timestamp is within the block, and what stays is still sorted. */
  lemma SplitDueSorted<V>(p: seq<Scheduled<V>>, blockEnd: real)
    requires Sorted(p)
    ensures var r := SplitDue(p, blockEnd);
      && Sorted(r.1)
      && (forall i :: 0 <= i < |r.1| ==> r.1[i].timestamp > blockEnd)
      && (forall i :: 0 <= i < |p| ==> (p[i].timestamp <= blockEnd <==> i < |r.0|))
  {
    SplitRestIsSortedSuffix(p, blockEnd);
    SplitDueExact(p, blockEnd);
  }

  lemma SplitDueExact<V>(p: seq<Scheduled<V>>, blockEnd: real)
    requires Sorted(p)
    ensures forall i :: 0 <= i < |p| ==> (p[i].timestamp <= blockEnd <==> i < |SplitDue(p, blockEnd).0|)
  {
    var r := SplitDue(p, blockEnd);
    SplitDueLaw(p, blockEnd);
    SplitRestLate(p, blockEnd);
    CutExact(p, r.0, r.1, blockEnd);
  }

  /** A list cut in two, everything in front within the block and
      everything behind beyond it: an event is in front exactly when its
      timestamp is within the block. */
  lemma CutExact<V>(p: seq<Scheduled<V>>, due: seq<Scheduled<V>>, rest: seq<Scheduled<V>>, blockEnd: real)
    requires due + rest == p
    requires forall i :: 0 <= i < |due| ==> due[i].timestamp <= blockEnd
    requires forall i :: 0 <= i < |rest| ==> rest[i].timestamp > blockEnd
    ensures forall i :: 0 <= i < |p| ==> (p[i].timestamp <= blockEnd <==> i < |due|)
  {
    forall i | 0 <= i < |p| ensures p[i].timestamp <= blockEnd <==> i < |due| {
      if i < |due| {
        assert p[i] == due[i];
      } else {
        assert p[i] == rest[i - |due|];
      }
    }
  }

  lemma SplitRestIsSortedSuffix<V>(p: seq<Scheduled<V>>, blockEnd: real)
    requires Sorted(p)
    ensures var r := SplitDue(p, blockEnd);
      && Sorted(r.1)
      && (forall i :: 0 <= i < |r.1| ==> r.1[i].timestamp > blockEnd)
  {
    var r := SplitDue(p, blockEnd);
    SplitDueLaw(p, blockEnd);
    var n := |r.0|;
    assert forall i :: 0 <= i < |r.1| ==> r.1[i] == p[n + i];
    assert Sorted(r.1) by {
      forall i, j | 0 <= i < j < |r.1| ensures r.1[i].timestamp <= r.1[j].timestamp {
        assert r.1[i] == p[n + i] && r.1[j] == p[n + j];
      }
    }
    SplitRestLate(p, blockEnd);
  }

  /** Everything a sorted list keeps pending lies beyond the block. */
  lemma SplitRestLate<V>(p: seq<Scheduled<V>>, blockEnd: real)
    requires Sorted(p)
    ensures var r := SplitDue(p, blockEnd);
      forall i :: 0 <= i < |r.1| ==> r.1[i].timestamp > blockEnd
  {
    var r := SplitDue(p, blockEnd);
    SplitDueLaw(p, blockEnd);
    var n := |r.0|;
    forall i | 0 <= i < |r.1| ensures r.1[i].timestamp > blockEnd {
      assert r.1[i] == p[n + i] && r.1[0] == p[n];
    }
  }

  /** An event of a sorted list that lies beyond the block is not split off. */
  lemma LateMemberStays<V>(sorted: seq<Scheduled<V>>, blockEnd: real, ev: Scheduled<V>)
    requires Sorted(sorted) && ev in sorted && ev.timestamp > blockEnd
    ensures ev in SplitDue(sorted, blockEnd).1
  {
    var split := SplitDue(sorted, blockEnd);
    SplitDueSorted(sorted, blockEnd);
    SplitDueLaw(sorted, blockEnd);
    var k :| 0 <= k < |sorted| && sorted[k] == ev;
    assert sorted[k] == split.1[k - |split.0|];
  }

  /** Sorting the old and newly admitted pending events together and
      splitting off those due in this block. */
  function SplitPending<V>(t: Timing, streamTime: real, pending: seq<Scheduled<V>>, waiting: seq<Scheduled<V>>): (seq<Scheduled<V>>, seq<Scheduled<V>>)
  {
    SplitDue(Sort(pending + waiting), BlockEnd(t, streamTime))
  }

  // ---------------------------------------------------------------------
  // Rendering and mixing

  /** The output buffer: blocks added one after another onto silence. */
  function SumBlocks(bs: seq<Block>): Block
  {
    if |bs| == 0 then Zeros(BlockSize) else Mix(SumBlocks(bs[..|bs| - 1]), bs[|bs| - 1])
  }

  /** Mixing is frame-wise addition: the sum of a concatenation is the sum
      of the sums. */
  lemma {:induction false} SumBlocksAppend(bs: seq<Block>, cs: seq<Block>, i: nat)
    requires i < BlockSize
    ensures SumBlocks(bs + cs)[i] == SumBlocks(bs)[i] + SumBlocks(cs)[i]
    decreases |cs|
  {
    if |cs| == 0 {
      assert bs + cs == bs;
    } else {
      assert (bs + cs)[..|bs + cs| - 1] == bs + cs[..|cs| - 1];
      SumBlocksAppend(bs, cs[..|cs| - 1], i);
    }
  }

  /** A list of one block sums to that block; no blocks sum to silence. */
  lemma SumBlocksSingle(b: Block)
    ensures SumBlocks([b]) == b
    ensures SumBlocks([]) == Zeros(BlockSize)
  {
    assert [b][..0] == [];
  }

  /** Two blocks summed are the two mixed frame by frame. */
  lemma SumOfTwo(b1: Block, b2: Block)
    ensures SumBlocks([b1, b2]) == Mix(b1, b2)
  {
    SumBlocksSingle(b1);
    SumBlocksSingle(b2);
    assert [b1, b2] == [b1] + [b2];
    forall j | 0 <= j < BlockSize ensures SumBlocks([b1, b2])[j] == Mix(b1, b2)[j] {
      SumBlocksAppend([b1], [b2], j);
    }
  }

  /** Each due event rendered on its own from its own offset: a reference
      for the dispatch loop that does not depend on the loop. */
  function RenderedAtOffsets<V>(ops: SourceOps<V>, t: Timing, streamTime: real, due: seq<Scheduled<V>>): seq<Rendered<V>>
    requires ValidTiming(t)
  {
    seq(|due|, i requires 0 <= i < |due| => ops.render(due[i].source, Offset(t, due[i].timestamp, streamTime)))
  }

  /** Each voice rendered on its own from frame 0. */
  function RenderedFromStart<V>(ops: SourceOps<V>, vs: seq<V>): seq<Rendered<V>>
  {
    seq(|vs|, k requires 0 <= k < |vs| => ops.render(vs[k], 0))
  }

  function Outs<V>(rs: seq<Rendered<V>>): seq<Block>
  {
    seq(|rs|, i requires 0 <= i < |rs| => rs[i].out)
  }

  function Voices<V>(rs: seq<Rendered<V>>): seq<V>
  {
    seq(|rs|, i requires 0 <= i < |rs| => rs[i].voice)
  }

  /** Frame `j` of every block, added up. */
  function FrameSum(bs: seq<Block>, j: nat): real
    requires j < BlockSize
  {
    if |bs| == 0 then 0.0 else FrameSum(bs[..|bs| - 1], j) + bs[|bs| - 1][j]
  }

  /** Each frame of the output buffer is that frame of every block added
      onto it, summed. */
  lemma {:induction false} SumBlocksFrame(bs: seq<Block>, j: nat)
    requires j < BlockSize
    ensures SumBlocks(bs)[j] == FrameSum(bs, j)
  {
    if |bs| > 0 {
      SumBlocksFrame(bs[..|bs| - 1], j);
    }
  }

  /** Blocks added in two groups: each frame is the first group's frame sum
      plus the second's. */
  lemma SumSplitsFrames(bs: seq<Block>, cs: seq<Block>)
    ensures forall j :: 0 <= j < BlockSize ==> SumBlocks(bs + cs)[j] == FrameSum(bs, j) + FrameSum(cs, j)
  {
    forall j | 0 <= j < BlockSize ensures SumBlocks(bs + cs)[j] == FrameSum(bs, j) + FrameSum(cs, j) {
      SumBlocksAppend(bs, cs, j);
      SumBlocksFrame(bs, j);
      SumBlocksFrame(cs, j);
    }
  }

  /** Each due event, in order, rendered from its offset; the voices still
      sounding afterwards continue as running instances. */
  function DispatchDue<V>(ops: SourceOps<V>, t: Timing, streamTime: real, due: seq<Scheduled<V>>): (seq<Block>, seq<V>)
    requires ValidTiming(t)
  {
    if |due| == 0 then ([], [])
    else
      var front := DispatchDue(ops, t, streamTime, due[..|due| - 1]);
      var e := due[|due| - 1];
      var rendered := ops.render(e.source, Offset(t, e.timestamp, streamTime));
      var cont := if ops.finished(rendered.voice) then front.1 else front.1 + [rendered.voice];
      (front.0 + [rendered.out], cont)
  }

  /** One block per due event, rendered from that event's own offset; only
      unfinished voices continue. */
  lemma {:induction false} DispatchDueLaw<V>(ops: SourceOps<V>, t: Timing, streamTime: real, due: seq<Scheduled<V>>)
    requires ValidTiming(t)
    ensures var r := DispatchDue(ops, t, streamTime, due);
      && |r.0| == |due|
      && (forall i :: 0 <= i < |due| ==>
            r.0[i] == ops.render(due[i].source, Offset(t, due[i].timestamp, streamTime)).out)
      && (forall i :: 0 <= i < |r.1| ==> !ops.finished(r.1[i]))
      && r.0 == Outs(RenderedAtOffsets(ops, t, streamTime, due))
      && r.1 == Retain(ops, Voices(RenderedAtOffsets(ops, t, streamTime, due)))
  {
    DispatchDueKeeps(ops, t, streamTime, due);
    DispatchDueBlocks(ops, t, streamTime, due);
    RetainLaw(ops, Voices(RenderedAtOffsets(ops, t, streamTime, due)));
  }

  lemma DispatchDueBlocks<V>(ops: SourceOps<V>, t: Timing, streamTime: real, due: seq<Scheduled<V>>)
    requires ValidTiming(t)
    ensures var r := DispatchDue(ops, t, streamTime, due);
      && |r.0| == |due|
      && (forall i :: 0 <= i < |due| ==>
            r.0[i] == ops.render(due[i].source, Offset(t, due[i].timestamp, streamTime)).out)
      && r.0 == Outs(RenderedAtOffsets(ops, t, streamTime, due))
  {
    DispatchDueOuts(ops, t, streamTime, due);
    var r := DispatchDue(ops, t, streamTime, due);
    assert r.0 == Outs(RenderedAtOffsets(ops, t, streamTime, due));
  }

  /** The voices a dispatch keeps are the dispatched voices, each advanced
      by its block, with the finished ones dropped, in dispatch order. */
  lemma {:induction false} DispatchDueKeeps<V>(ops: SourceOps<V>, t: Timing, streamTime: real, due: seq<Scheduled<V>>)
    requires ValidTiming(t)
    ensures DispatchDue(ops, t, streamTime, due).1 == Retain(ops, Voices(RenderedAtOffsets(ops, t, streamTime, due)))
  {
    if |due| > 0 {
      var front := due[..|due| - 1];
      DispatchDueKeeps(ops, t, streamTime, front);
      var w := Voices(RenderedAtOffsets(ops, t, streamTime, due));
      assert w[..|w| - 1] == Voices(RenderedAtOffsets(ops, t, streamTime, front));
    }
  }

  lemma {:induction false} DispatchDueOuts<V>(ops: SourceOps<V>, t: Timing, streamTime: real, due: seq<Scheduled<V>>)
    requires ValidTiming(t)
    ensures var r := DispatchDue(ops, t, streamTime, due);
      && |r.0| == |due|
      && (forall i :: 0 <= i < |due| ==>
            r.0[i] == ops.render(due[i].source, Offset(t, due[i].timestamp, streamTime)).out)
  {
    if |due| > 0 {
      DispatchDueOuts(ops, t, streamTime, due[..|due| - 1]);
      var front := DispatchDue(ops, t, streamTime, due[..|due| - 1]);
      var r := DispatchDue(ops, t, streamTime, due);
      forall i | 0 <= i < |due| - 1
        ensures r.0[i] == ops.render(due[i].source, Offset(t, due[i].timestamp, streamTime)).out
      {
        assert r.0[i] == front.0[i];
        assert due[..|due| - 1][i] == due[i];
      }
    }
  }

  /** The running loop: every instance renders one block from frame 0 and
      is replaced by its advanced self, in place. */
  function RenderRunning<V>(ops: SourceOps<V>, vs: seq<V>): (seq<Block>, seq<V>)
  {
    if |vs| == 0 then ([], [])
    else
      var front := RenderRunning(ops, vs[..|vs| - 1]);
      var rendered := ops.render(vs[|vs| - 1], 0);
      (front.0 + [rendered.out], front.1 + [rendered.voice])
  }

  /** Every running voice contributes one block rendered from frame 0 and
      stays in its place, advanced by that block. */
  lemma {:induction false} RenderRunningLaw<V>(ops: SourceOps<V>, vs: seq<V>)
    ensures var r := RenderRunning(ops, vs);
      && |r.0| == |vs| && |r.1| == |vs|
      && forall i :: 0 <= i < |vs| ==> ops.render(vs[i], 0) == Rendered(r.1[i], r.0[i])
  {
    if |vs| > 0 {
      RenderRunningLaw(ops, vs[..|vs| - 1]);
      var front := RenderRunning(ops, vs[..|vs| - 1]);
      var r := RenderRunning(ops, vs);
      forall i | 0 <= i < |vs| - 1 ensures ops.render(vs[i], 0) == Rendered(r.1[i], r.0[i]) {
        assert r.0[i] == front.0[i] && r.1[i] == front.1[i];
        assert vs[..|vs| - 1][i] == vs[i];
      }
    }
  }

  // ---------------------------------------------------------------------
  // One block

  /** `Ruffbox::process(stream_time)` as written: drop finished voices, admit
      the queue, sort, dispatch due events at their offsets (keeping the
      unfinished ones running), then render every running voice from 0. A
      voice dispatched in this block that outlasts it is therefore rendered
      twice in the same block. */
  function Process<V>(ops: SourceOps<V>, t: Timing, e: Engine<V>, streamTime: real): (r: Output<V>)
    requires ValidTiming(t)
    ensures r.engine.queue == [] && r.engine.now == streamTime
  {
    var kept := Retain(ops, e.running);
    var admitted := Admit(t, streamTime, e.queue);
    var split := SplitPending(t, streamTime, e.pending, admitted.1);
    var dispatched := DispatchDue(ops, t, streamTime, split.0);
    var rendered := RenderRunning(ops, kept + admitted.0 + dispatched.1);
    Output(Engine(rendered.1, split.1, [], streamTime), SumBlocks(dispatched.0 + rendered.0))
  }

  /** The corrected `process`: running voices render first, and a voice
      dispatched in this block joins them only for the next block, so every
      voice renders exactly once per block. */
  function ProcessCorrected<V>(ops: SourceOps<V>, t: Timing, e: Engine<V>, streamTime: real): (r: Output<V>)
    requires ValidTiming(t)
    ensures r.engine.queue == [] && r.engine.now == streamTime
  {
    var kept := Retain(ops, e.running);
    var admitted := Admit(t, streamTime, e.queue);
    var split := SplitPending(t, streamTime, e.pending, admitted.1);
    var rendered := RenderRunning(ops, kept + admitted.0);
    var dispatched := DispatchDue(ops, t, streamTime, split.0);
    Output(Engine(rendered.1 + dispatched.1, split.1, [], streamTime), SumBlocks(rendered.0 + dispatched.0))
  }

  /** What one block of `process` as written sounds like, for any engine
      state. Each due event renders once from its own offset; then every
      running voice renders from frame 0. The running voices are the
      unfinished old ones, then those started at once, then the dispatched
      voices that did not finish, which thus render a second time. Frame j
      of the output is the sum of frame j of all these blocks, and each
      running voice is kept, advanced by its block. */
  lemma ProcessOutputLaw<V>(ops: SourceOps<V>, t: Timing, e: Engine<V>, streamTime: real)
    requires ValidTiming(t)
    ensures var admitted := Admit(t, streamTime, e.queue);
      var born := RenderedAtOffsets(ops, t, streamTime, SplitPending(t, streamTime, e.pending, admitted.1).0);
      var run := RenderedFromStart(ops, Retain(ops, e.running) + admitted.0 + Retain(ops, Voices(born)));
      var r := Process(ops, t, e, streamTime);
      && r.out == SumBlocks(Outs(born) + Outs(run))
      && (forall j :: 0 <= j < BlockSize ==> r.out[j] == FrameSum(Outs(born), j) + FrameSum(Outs(run), j))
      && r.engine.running == Voices(run)
  {
    var admitted := Admit(t, streamTime, e.queue);
    var due := SplitPending(t, streamTime, e.pending, admitted.1).0;
    var born := RenderedAtOffsets(ops, t, streamTime, due);
    DispatchDueKeeps(ops, t, streamTime, due);
    DispatchDueBlocks(ops, t, streamTime, due);
    var live := Retain(ops, e.running) + admitted.0 + DispatchDue(ops, t, streamTime, due).1;
    RunningAsRendered(ops, live);
    SumSplitsFrames(Outs(born), Outs(RenderedFromStart(ops, live)));
  }

  /** The same for the corrected `process`: the running voices (unfinished
      old ones, then those started at once) render from frame 0, each due
      event renders once from its offset, and the dispatched voices that did
      not finish join the running ones after them, for the next block. */
  lemma ProcessCorrectedOutputLaw<V>(ops: SourceOps<V>, t: Timing, e: Engine<V>, streamTime: real)
    requires ValidTiming(t)
    ensures var admitted := Admit(t, streamTime, e.queue);
      var born := RenderedAtOffsets(ops, t, streamTime, SplitPending(t, streamTime, e.pending, admitted.1).0);
      var run := RenderedFromStart(ops, Retain(ops, e.running) + admitted.0);
      var r := ProcessCorrected(ops, t, e, streamTime);
      && r.out == SumBlocks(Outs(run) + Outs(born))
      && (forall j :: 0 <= j < BlockSize ==> r.out[j] == FrameSum(Outs(run), j) + FrameSum(Outs(born), j))
      && r.engine.running == Voices(run) + Retain(ops, Voices(born))
  {
    var admitted := Admit(t, streamTime, e.queue);
    var due := SplitPending(t, streamTime, e.pending, admitted.1).0;
    var born := RenderedAtOffsets(ops, t, streamTime, due);
    DispatchDueKeeps(ops, t, streamTime, due);
    DispatchDueBlocks(ops, t, streamTime, due);
    var live := Retain(ops, e.running) + admitted.0;
    RunningAsRendered(ops, live);
    SumSplitsFrames(Outs(RenderedFromStart(ops, live)), Outs(born));
  }

  lemma RunningAsRendered<V>(ops: SourceOps<V>, vs: seq<V>)
    ensures var r := RenderRunning(ops, vs);
      r.0 == Outs(RenderedFromStart(ops, vs)) && r.1 == Voices(RenderedFromStart(ops, vs))
  {
    RenderRunningLaw(ops, vs);
    var r := RenderRunning(ops, vs);
    assert r.0 == Outs(RenderedFromStart(ops, vs));
    assert r.1 == Voices(RenderedFromStart(ops, vs));
  }

  /** `after` holds exactly the events of `pending`, and of `queue` not
      started at once, whose timestamps lie beyond the block. */
  ghost predicate StillPending<V>(t: Timing, streamTime: real, pending: seq<Scheduled<V>>, queue: seq<Scheduled<V>>, after: seq<Scheduled<V>>) {
    && (forall i :: 0 <= i < |after| ==>
          && after[i].timestamp > BlockEnd(t, streamTime)
          && (after[i] in pending || (after[i] in queue && !GoesLive(t, streamTime, after[i]))))
    && (forall i :: 0 <= i < |pending| && pending[i].timestamp > BlockEnd(t, streamTime) ==> pending[i] in after)
    && (forall i :: 0 <= i < |queue| && queue[i].timestamp > BlockEnd(t, streamTime) && !GoesLive(t, streamTime, queue[i]) ==> queue[i] in after)
  }

  /** How many copies of `ev` stay pending after a block: those already
      pending plus those queued and not started at once, if `ev` lies beyond
      the block, and none otherwise. */
  ghost function LateCount<V>(t: Timing, streamTime: real, pending: seq<Scheduled<V>>, queue: seq<Scheduled<V>>, ev: Scheduled<V>): nat {
    if ev.timestamp > BlockEnd(t, streamTime) then
      multiset(pending)[ev] + (if GoesLive(t, streamTime, ev) then 0 else multiset(queue)[ev])
    else 0
  }

  /** After a block, the pending list is sorted and holds exactly the
      events, old or newly queued and not started at once, that lie beyond
      the block; both versions of `process` agree on it. */
  lemma ProcessKeepsLatePending<V>(ops: SourceOps<V>, t: Timing, e: Engine<V>, streamTime: real)
    requires ValidTiming(t)
    ensures var r := Process(ops, t, e, streamTime);
      && Sorted(r.engine.pending)
      && StillPending(t, streamTime, e.pending, e.queue, r.engine.pending)
      && (forall ev :: multiset(r.engine.pending)[ev] == LateCount(t, streamTime, e.pending, e.queue, ev))
      && ProcessCorrected(ops, t, e, streamTime).engine.pending == r.engine.pending
  {
    var admitted := Admit(t, streamTime, e.queue);
    AdmitLaw(t, streamTime, e.queue);
    var sorted := Sort(e.pending + admitted.1);
    SortLaw(e.pending + admitted.1);
    SplitRestIsSortedSuffix(sorted, BlockEnd(t, streamTime));
    SplitRestFromInputs(t, streamTime, e.pending, admitted.1, e.queue);
    SplitRestKeepsLate(t, streamTime, e.pending, admitted.1, e.queue);
    SplitRestCounts(t, streamTime, e.pending, admitted.1, e.queue);
  }

  lemma SplitRestCounts<V>(t: Timing, streamTime: real, pending: seq<Scheduled<V>>, waiting: seq<Scheduled<V>>, queue: seq<Scheduled<V>>)
    requires forall ev :: multiset(waiting)[ev] == if GoesLive(t, streamTime, ev) then 0 else multiset(queue)[ev]
    ensures var rest := SplitDue(Sort(pending + waiting), BlockEnd(t, streamTime)).1;
      forall ev :: multiset(rest)[ev] == LateCount(t, streamTime, pending, queue, ev)
  {
    var sorted := Sort(pending + waiting);
    SortPermutes(pending + waiting);
    SortSorted(pending + waiting);
    SplitSortedCounts(sorted, BlockEnd(t, streamTime));
    LateCountsCombine(t, streamTime, pending, waiting, queue, sorted, SplitDue(sorted, BlockEnd(t, streamTime)).1);
  }

  /** Splitting a sorted list leaves pending every copy of each event beyond
      the block, and nothing else. */
  lemma SplitSortedCounts<V>(sorted: seq<Scheduled<V>>, blockEnd: real)
    requires Sorted(sorted)
    ensures var rest := SplitDue(sorted, blockEnd).1;
      forall ev :: multiset(rest)[ev] == if ev.timestamp > blockEnd then multiset(sorted)[ev] else 0
  {
    var split := SplitDue(sorted, blockEnd);
    SplitDueLaw(sorted, blockEnd);
    SplitRestLate(sorted, blockEnd);
    CutCounts(sorted, split.0, split.1, blockEnd);
  }

  lemma LateCountsCombine<V>(t: Timing, streamTime: real, pending: seq<Scheduled<V>>, waiting: seq<Scheduled<V>>, queue: seq<Scheduled<V>>,
                             sorted: seq<Scheduled<V>>, rest: seq<Scheduled<V>>)
    requires forall ev :: multiset(waiting)[ev] == if GoesLive(t, streamTime, ev) then 0 else multiset(queue)[ev]
    requires multiset(sorted) == multiset(pending + waiting)
    requires forall ev :: multiset(rest)[ev] == if ev.timestamp > BlockEnd(t, streamTime) then multiset(sorted)[ev] else 0
    ensures forall ev :: multiset(rest)[ev] == LateCount(t, streamTime, pending, queue, ev)
  {
    assert multiset(pending + waiting) == multiset(pending) + multiset(waiting);
  }

  /** A list cut in two, everything in front within the block and
      everything behind beyond it: the back holds every copy of each event
      beyond the block, and nothing else. */
  lemma CutCounts<V>(p: seq<Scheduled<V>>, due: seq<Scheduled<V>>, rest: seq<Scheduled<V>>, blockEnd: real)
    requires due + rest == p
    requires forall i :: 0 <= i < |due| ==> due[i].timestamp <= blockEnd
    requires forall i :: 0 <= i < |rest| ==> rest[i].timestamp > blockEnd
    ensures forall ev :: multiset(rest)[ev] == if ev.timestamp > blockEnd then multiset(p)[ev] else 0
  {
    assert multiset(p) == multiset(due) + multiset(rest);
    forall ev ensures multiset(rest)[ev] == if ev.timestamp > blockEnd then multiset(p)[ev] else 0 {
      if ev.timestamp > blockEnd {
        assert ev !in due;
      } else {
        assert ev !in rest;
      }
    }
  }

  lemma SplitRestFromInputs<V>(t: Timing, streamTime: real, pending: seq<Scheduled<V>>, waiting: seq<Scheduled<V>>, queue: seq<Scheduled<V>>)
    requires forall i :: 0 <= i < |waiting| ==> !GoesLive(t, streamTime, waiting[i]) && waiting[i] in queue
    ensures var rest := SplitDue(Sort(pending + waiting), BlockEnd(t, streamTime)).1;
      forall i :: 0 <= i < |rest| ==> rest[i] in pending || (rest[i] in queue && !GoesLive(t, streamTime, rest[i]))
  {
    var sorted := Sort(pending + waiting);
    SortLaw(pending + waiting);
    var split := SplitDue(sorted, BlockEnd(t, streamTime));
    SplitDueLaw(sorted, BlockEnd(t, streamTime));
    forall i | 0 <= i < |split.1|
      ensures split.1[i] in pending || (split.1[i] in queue && !GoesLive(t, streamTime, split.1[i]))
    {
      var x := split.1[i];
      assert x == sorted[|split.0| + i];
      assert x in multiset(sorted);
      assert x in pending + waiting;
      if x !in pending {
        var k :| 0 <= k < |waiting| && waiting[k] == x;
      }
    }
  }

  lemma SplitRestKeepsLate<V>(t: Timing, streamTime: real, pending: seq<Scheduled<V>>, waiting: seq<Scheduled<V>>, queue: seq<Scheduled<V>>)
    requires forall i :: 0 <= i < |queue| && !GoesLive(t, streamTime, queue[i]) ==> queue[i] in waiting
    ensures var rest := SplitDue(Sort(pending + waiting), BlockEnd(t, streamTime)).1;
      && (forall i :: 0 <= i < |pending| && pending[i].timestamp > BlockEnd(t, streamTime) ==> pending[i] in rest)
      && (forall i :: 0 <= i < |queue| && queue[i].timestamp > BlockEnd(t, streamTime) && !GoesLive(t, streamTime, queue[i]) ==> queue[i] in rest)
  {
    var end := BlockEnd(t, streamTime);
    var sorted := Sort(pending + waiting);
    SortLaw(pending + waiting);
    forall i | 0 <= i < |pending| && pending[i].timestamp > end
      ensures pending[i] in SplitDue(sorted, end).1
    {
      assert pending[i] in pending + waiting;
      assert pending[i] in multiset(sorted);
      LateMemberStays(sorted, end, pending[i]);
    }
    forall i | 0 <= i < |queue| && queue[i].timestamp > end && !GoesLive(t, streamTime, queue[i])
      ensures queue[i] in SplitDue(sorted, end).1
    {
      assert queue[i] in pending + waiting;
      assert queue[i] in multiset(sorted);
      LateMemberStays(sorted, end, queue[i]);
    }
  }
}
