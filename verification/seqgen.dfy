/** The sequence generators of the pattern language
    (ruffbox-pattern/src/seqgen.rs). A generator is a value; `get_next`
    becomes a function returning the produced value together with the
    advanced generator. Randomness and the learned automaton are outside the
    model: the caller supplies a `pick` number per call, and the sine of the
    bounce generator is supplied as a function. */
module SeqGen {
  import opened Common

  /** The outcome of one `get_next` call: a value, no value (`None`), or a
      trap (a Rust panic: an index out of bounds, or a NaN reaching `N32`). */
  datatype Step<T, G> = Yield(value: T, next: G) | Silent(next: G) | Trap

  /** Generators over a list of items: `RandomSequenceGenerator`,
      `CycleSequenceGenerator` and `PfaSequenceGenerator`. */
  datatype ItemGen<T> =
    | RandomGen(items: seq<T>)
    | CycleGen(items: seq<T>, index: nat)
    | LearnGen(items: seq<T>)

  /** `CycleSequenceGenerator::from_seq`: the cursor starts at 0. */
  function CycleFromSeq<T>(items: seq<T>): (g: ItemGen<T>)
    ensures g.CycleGen? && g.items == items && g.index == 0
    ensures |items| > 0 <==> g.index < |g.items|
  {
    CycleGen(items, 0)
  }

  /** `CycleSequenceGenerator::from_seq_with_index`: an index past the end is
      clamped to the last position. For an empty list `len - 1` wraps around
      to `usize::MAX` on wasm32. */
  function CycleFromSeqWithIndex<T>(items: seq<T>, idx: nat): (g: ItemGen<T>)
    ensures g.CycleGen? && g.items == items
    ensures idx < |items| ==> g.index == idx
    ensures 0 < |items| <= idx ==> g.index == |items| - 1
    ensures |items| == 0 ==> g.index == UsizeMax
    ensures |items| > 0 <==> g.index < |g.items|
  {
    if |items| <= idx then
      CycleGen(items, if |items| == 0 then UsizeMax else |items| - 1)
    else CycleGen(items, idx)
  }

  /** `get_state`: the cycle cursor, and 0 for the other two kinds. */
  function ItemState<T>(g: ItemGen<T>): nat {
    if g.CycleGen? then g.index else 0
  }

  /** `get_next`. A cycle reads `items[index]` unguarded and then wraps the
      cursor; a random generator returns the item the pick selects, or
      nothing when the list is empty; the learned automaton (a foreign
      crate) is modelled as emitting an item of its training list or
      nothing, as the pick decides. */
  function ItemNext<T>(g: ItemGen<T>, pick: nat): Step<T, ItemGen<T>>
  {
    match g
    case RandomGen(items) =>
      if |items| == 0 then Silent(g) else Yield(items[pick % |items|], g)
    case CycleGen(items, index) =>
      if index < |items| then
        var next := index + 1;
        Yield(items[index], CycleGen(items, if next >= |items| then 0 else next))
      else Trap
    case LearnGen(items) =>
      if pick == 0 || |items| == 0 then Silent(g) else Yield(items[(pick - 1) % |items|], g)
  }

  /** What one `get_next` promises: only a cycle whose cursor is off the
      list traps (the unguarded index); every value is an item of the list;
      a random or learned generator is unchanged by the call; a cycle yields
      the item under its cursor and keeps a valid cursor; a random generator
      yields exactly when its list is non-empty. */
  lemma ItemNextLaw<T>(g: ItemGen<T>, pick: nat)
    ensures ItemNext(g, pick).Trap? <==> g.CycleGen? && g.index >= |g.items|
    ensures ItemNext(g, pick).Yield? ==> ItemNext(g, pick).value in g.items
    ensures !ItemNext(g, pick).Trap? && !g.CycleGen? ==> ItemNext(g, pick).next == g
    ensures g.CycleGen? && ItemNext(g, pick).Yield? ==>
              ItemNext(g, pick).value == g.items[g.index]
              && ItemNext(g, pick).next.CycleGen? && ItemNext(g, pick).next.items == g.items
              && ItemNext(g, pick).next.index < |g.items|
    ensures g.CycleGen? ==> ItemNext(g, pick).Trap? || ItemNext(g, pick).Yield?
    ensures g.RandomGen? ==> (ItemNext(g, pick).Yield? <==> |g.items| > 0)
  {
  }

  /** Successive `get_next` calls, one per pick; `None` when one traps. */
  function ItemRun<T>(g: ItemGen<T>, picks: seq<nat>): Option<(seq<Option<T>>, ItemGen<T>)>
    decreases |picks|
  {
    if |picks| == 0 then Some(([], g))
    else
      match ItemNext(g, picks[0])
      case Trap => None
      case Silent(next) =>
        (match ItemRun(next, picks[1..])
         case None => None
         case Some(rest) => Some(([None] + rest.0, rest.1)))
      case Yield(v, next) =>
        (match ItemRun(next, picks[1..])
         case None => None
         case Some(rest) => Some(([Some(v)] + rest.0, rest.1)))
  }

  /** A cycle over a non-empty list never traps, yields on every call, and
      its cursor, which is also its state, ends `n` places further round the
      list. */
  lemma {:induction false} CycleRunAdvances<T>(g: ItemGen<T>, picks: seq<nat>)
    requires g.CycleGen? && g.index < |g.items|
    ensures ItemRun(g, picks).Some?
    ensures |ItemRun(g, picks).value.0| == |picks|
    ensures ItemRun(g, picks).value.1 == CycleGen(g.items, Rotate(g.index, |picks|, |g.items|))
    decreases |picks|
  {
    if |picks| > 0 {
      var next := CycleGen(g.items, Rotate(g.index, 1, |g.items|));
      CycleStep(g, picks[0]);
      CycleRunAdvances(next, picks[1..]);
      YieldThenRun(g, picks, g.items[g.index], next);
      RotateSplits(g.index, |picks| - 1, |g.items|);
    }
  }

  /** The cycle walks its list round robin: the k-th value is the item `k`
      places after the starting cursor. */
  lemma {:induction false} CycleRunRotates<T>(g: ItemGen<T>, picks: seq<nat>)
    requires g.CycleGen? && g.index < |g.items|
    ensures ItemRun(g, picks).Some? && |ItemRun(g, picks).value.0| == |picks|
    ensures forall k :: 0 <= k < |picks| ==>
              ItemRun(g, picks).value.0[k] == Some(g.items[Rotate(g.index, k, |g.items|)])
    decreases |picks|
  {
    CycleRunAdvances(g, picks);
    if |picks| > 0 {
      var len := |g.items|;
      var next := CycleGen(g.items, Rotate(g.index, 1, len));
      CycleStep(g, picks[0]);
      CycleRunRotates(next, picks[1..]);
      var rest := ItemRun(next, picks[1..]).value.0;
      YieldThenRun(g, picks, g.items[g.index], next);
      var outs := ItemRun(g, picks).value.0;
      assert outs == [Some(g.items[g.index])] + rest;
      forall k | 0 <= k < |picks|
        ensures outs[k] == Some(g.items[Rotate(g.index, k, len)])
      {
        if k > 0 {
          assert outs[k] == rest[k - 1];
          RotateSplits(g.index, k - 1, len);
        }
      }
    }
  }

  /** One yielding call followed by the remaining ones. */
  lemma YieldThenRun<T>(g: ItemGen<T>, picks: seq<nat>, v: T, next: ItemGen<T>)
    requires |picks| > 0 && ItemNext(g, picks[0]) == Yield(v, next)
    requires ItemRun(next, picks[1..]).Some?
    ensures ItemRun(g, picks) == Some(([Some(v)] + ItemRun(next, picks[1..]).value.0, ItemRun(next, picks[1..]).value.1))
  {
  }

  /** A cursor `i` moved `k` places round a list of length `n`, one
      `get_next` at a time: count up, and go back to 0 at the end. */
  function Rotate(i: nat, k: nat, n: nat): nat
    decreases k
  {
    if k == 0 then i
    else
      var j := Rotate(i, k - 1, n) + 1;
      if j >= n then 0 else j
  }

  /** One `get_next` on a valid cycle yields the item under the cursor and
      moves the cursor one place round the list. */
  lemma CycleStep<T>(g: ItemGen<T>, pick: nat)
    requires g.CycleGen? && g.index < |g.items|
    ensures ItemNext(g, pick) == Yield(g.items[g.index], CycleGen(g.items, Rotate(g.index, 1, |g.items|)))
  {
  }

  /** Moving one place and then `k` more is moving `k + 1` places. */
  lemma {:induction false} RotateSplits(i: nat, k: nat, n: nat)
    ensures Rotate(Rotate(i, 1, n), k, n) == Rotate(i, k + 1, n)
    decreases k
  {
    if k > 0 {
      RotateSplits(i, k - 1, n);
    }
  }

  /** The rotated cursor is `(i + k) mod n`. */
  lemma {:induction false} RotateIsModulo(i: nat, k: nat, n: nat)
    requires i < n
    ensures Rotate(i, k, n) == (i + k) % n
    decreases k
  {
    if k == 0 {
      DivModUnique(i, n, 0, i);
    } else {
      RotateIsModulo(i, k - 1, n);
      ModStep(i + k - 1, n);
    }
  }

  /** Adding one to `a` adds one to `a mod n`, wrapping to zero at `n`. */
  lemma ModStep(a: nat, n: nat)
    requires n > 0
    ensures (a + 1) % n == if a % n + 1 >= n then 0 else a % n + 1
  {
    var q, r := a / n, a % n;
    assert a == q * n + r;
    if r + 1 >= n {
      assert (q + 1) * n == q * n + n;
      DivModUnique(a + 1, n, q + 1, 0);
    } else {
      DivModUnique(a + 1, n, q, r + 1);
    }
  }

  /** Quotient and remainder are the only pair with `a == q * n + r` and
      `0 <= r < n`. */
  lemma DivModUnique(a: int, n: int, q: int, r: int)
    requires n > 0 && 0 <= r < n && a == q * n + r
    ensures a / n == q && a % n == r
  {
    var q', r' := a / n, a % n;
    assert a == q' * n + r';
    assert (q - q') * n == r' - r;
    if q > q' {
      MulAtLeast(q - q', n);
    } else if q' > q {
      MulAtLeast(q' - q, n);
    }
  }

  lemma MulAtLeast(d: int, n: int)
    requires d >= 1 && n > 0
    ensures d * n >= n
  {
  }

  /** From a fresh cycle, the state after `n` calls is `n mod len`. */
  lemma CycleStateCounts<T>(items: seq<T>, picks: seq<nat>)
    requires |items| > 0
    ensures ItemRun(CycleFromSeq(items), picks).Some?
    ensures ItemState(ItemRun(CycleFromSeq(items), picks).value.1) == |picks| % |items|
  {
    CycleRunAdvances(CycleFromSeq(items), picks);
    RotateIsModulo(0, |picks|, |items|);
  }

  /** Rebuilding a cycle from its own state, as `update_sequence` does with
      the pattern's cursor, gives back the same generator whenever the cursor
      is valid. */
  lemma CycleRebuiltFromState<T>(g: ItemGen<T>)
    requires g.CycleGen? && g.index < |g.items|
    ensures CycleFromSeqWithIndex(g.items, ItemState(g)) == g
  {
  }

  /** A random generator only ever yields members of its list, yields on
      every call exactly when the list is non-empty, and keeps state 0. */
  lemma {:induction false} RandomRunMembers<T>(items: seq<T>, picks: seq<nat>)
    ensures ItemRun(RandomGen(items), picks).Some?
    ensures ItemRun(RandomGen(items), picks).value.1 == RandomGen(items)
    ensures |ItemRun(RandomGen(items), picks).value.0| == |picks|
    ensures forall k :: 0 <= k < |picks| ==>
              var v := ItemRun(RandomGen(items), picks).value.0[k];
              (v.Some? <==> |items| > 0) && (v.Some? ==> v.value in items)
    ensures ItemState(ItemRun(RandomGen(items), picks).value.1) == 0
    decreases |picks|
  {
    if |picks| > 0 {
      RandomRunMembers(items, picks[1..]);
    }
  }

  ////////////////////////////////////////////////////////////////////////////
  // Ramp and bounce
  ////////////////////////////////////////////////////////////////////////////

  /** `RampSequenceGenerator`. `inc` is `(max - min) / steps`; when `steps`
      is 0 the increment is infinite in f32 and the field is left at 0.0,
      since every call then traps. */
  datatype Ramp = Ramp(min: real, inc: real, steps: real, count: nat)

  /** `RampSequenceGenerator::from_params`. `N32` panics when `0 / 0`
      produces NaN, that is when `steps` is 0 and `max == min`. */
  function RampFromParams(min: real, max: real, steps: real): (r: Option<Ramp>)
    ensures r.None? <==> steps == 0.0 && max == min
    ensures r.Some? ==> r.value.min == min && r.value.steps == steps && r.value.count == 0
    ensures r.Some? && steps != 0.0 ==> min + steps * r.value.inc == max
  {
    if steps == 0.0 then
      if max == min then None else Some(Ramp(min, 0.0, steps, 0))
    else Some(Ramp(min, (max - min) / steps, steps, 0))
  }

  /** The value of the ramp at step `j`. */
  function RampValue(min: real, inc: real, j: nat): real {
    min + j as real * inc
  }

  /** `get_next`: yields `min + count * inc`, then counts up, and restarts
      from 0 once the count exceeds `steps`. With an infinite increment the
      first product is `0 * inf`, a NaN, and `N32` panics. */
  function RampNext(r: Ramp): Step<real, Ramp> {
    if r.steps == 0.0 then Trap
    else
      var next := r.count + 1;
      Yield(RampValue(r.min, r.inc, r.count),
            r.(count := if next as real > r.steps then 0 else next))
  }

  /** `BounceSequenceGenerator`: `degreeInc` is `360 / steps` (infinite, and
      left at 0.0, when `steps` is 0). */
  datatype Bounce = Bounce(min: real, degreeInc: real, range: real, steps: real, count: nat)

  function BounceFromParams(min: real, max: real, steps: real): (b: Bounce)
    ensures b.min == min && b.min + b.range == max && b.steps == steps && b.count == 0
    ensures steps != 0.0 ==> b.degreeInc * steps == 360.0
  {
    Bounce(min, if steps == 0.0 then 0.0 else 360.0 / steps, max - min, steps, 0)
  }

  /** Rust's `%` on floats: the remainder of the division truncated toward
      zero, so it takes the sign of the dividend. */
  function FloatRem(x: real, y: real): (r: real)
    requires y != 0.0
  {
    var q := x / y;
    var t := if q >= 0.0 then q.Floor else -((-q).Floor);
    x - y * t as real
  }

  /** The angle in degrees the bounce generator takes the sine of. */
  function BounceDegree(b: Bounce): real
    requires b.steps != 0.0
  {
    FloatRem(b.degreeInc * FloatRem(b.count as real, b.steps), 360.0)
  }

  /** `get_next`: `min + |sin(degree)| * range`, with `absSin` standing for
      `|sin|` of an angle in degrees; the count grows by one and is never
      reset. With `steps == 0` the remainder is NaN and `N32` panics. */
  function BounceNext(b: Bounce, absSin: real -> real): Step<real, Bounce> {
    if b.steps == 0.0 then Trap
    else Yield(BounceValue(b, absSin), b.(count := b.count + 1))
  }

  /** The value the bounce generator yields at its current count. */
  function BounceValue(b: Bounce, absSin: real -> real): real
    requires b.steps != 0.0
  {
    b.min + absSin(BounceDegree(b)) * b.range
  }

  /** The generator behind one `@param` clause. */
  datatype ParamGen = Listed(g: ItemGen<real>) | Ramping(r: Ramp) | Bouncing(b: Bounce)

  function ParamNext(p: ParamGen, pick: nat, absSin: real -> real): Step<real, ParamGen> {
    match p
    case Listed(g) =>
      (match ItemNext(g, pick)
       case Trap => Trap
       case Silent(g') => Silent(Listed(g'))
       case Yield(v, g') => Yield(v, Listed(g')))
    case Ramping(r) =>
      (match RampNext(r)
       case Yield(v, r') => Yield(v, Ramping(r'))
       case _ => Trap)
    case Bouncing(b) =>
      (match BounceNext(b, absSin)
       case Yield(v, b') => Yield(v, Bouncing(b'))
       case _ => Trap)
  }

  /** `get_state`; the ramp and bounce counters are whole numbers, so the
      `as usize` truncation keeps them. */
  function ParamState(p: ParamGen): nat {
    match p
    case Listed(g) => ItemState(g)
    case Ramping(r) => r.count
    case Bouncing(b) => b.count
  }

  /** Successive `get_next` calls on a parameter generator. */
  function ParamRun(p: ParamGen, picks: seq<nat>, absSin: real -> real): Option<(seq<Option<real>>, ParamGen)>
    decreases |picks|
  {
    if |picks| == 0 then Some(([], p))
    else
      match ParamNext(p, picks[0], absSin)
      case Trap => None
      case Silent(next) =>
        (match ParamRun(next, picks[1..], absSin)
         case None => None
         case Some(rest) => Some(([None] + rest.0, rest.1)))
      case Yield(v, next) =>
        (match ParamRun(next, picks[1..], absSin)
         case None => None
         case Some(rest) => Some(([Some(v)] + rest.0, rest.1)))
  }

  /** A ramp whose remaining calls stay within one sweep yields
      `min + (count + k) * inc` on the k-th call; its count ends at
      `count + n`, or back at 0 if the last call went past `steps`. */
  lemma {:induction false} RampClimbs(r: Ramp, picks: seq<nat>, absSin: real -> real)
    requires r.steps != 0.0 && r.count as real <= r.steps
    requires (r.count + |picks|) as real <= r.steps + 1.0
    ensures ParamRun(Ramping(r), picks, absSin).Some?
    ensures |ParamRun(Ramping(r), picks, absSin).value.0| == |picks|
    ensures forall k :: 0 <= k < |picks| ==>
              ParamRun(Ramping(r), picks, absSin).value.0[k] == Some(RampValue(r.min, r.inc, r.count + k))
    ensures ParamRun(Ramping(r), picks, absSin).value.1 ==
              Ramping(r.(count := if (r.count + |picks|) as real > r.steps then 0 else r.count + |picks|))
    decreases |picks|
  {
    if |picks| > 0 {
      var next := r.count + 1;
      var r' := r.(count := if next as real > r.steps then 0 else next);
      assert RampNext(r).Yield? && RampNext(r).next == r';
      var step := ParamNext(Ramping(r), picks[0], absSin);
      assert step.Yield?;
      assert step.next == Ramping(r');
      assert step.value == RampValue(r.min, r.inc, r.count);
      if next as real > r.steps {
        assert |picks| == 1 && picks[1..] == [];
        assert ParamRun(Ramping(r'), picks[1..], absSin) == Some(([], Ramping(r')));
        assert ParamRun(Ramping(r), picks, absSin).value.0 == [Some(RampValue(r.min, r.inc, r.count + 0))];
      } else {
        RampClimbs(r', picks[1..], absSin);
        var rest := ParamRun(Ramping(r'), picks[1..], absSin).value;
        assert ParamRun(Ramping(r), picks, absSin).value.0 == [Some(RampValue(r.min, r.inc, r.count))] + rest.0;
        forall j | 0 <= j < |rest.0|
          ensures rest.0[j] == Some(RampValue(r.min, r.inc, r.count + (j + 1)))
        {
          assert r'.count + j == r.count + (j + 1);
        }
      }
    }
  }

  /** With a whole number of steps `n >= 1`, a fresh ramp runs through the
      `n + 1` values `min, min + inc, ..., max` and is then back at its start. */
  lemma RampSweeps(min: real, max: real, n: nat, picks: seq<nat>, absSin: real -> real)
    requires n >= 1 && |picks| == n + 1
    ensures RampFromParams(min, max, n as real).Some?
    ensures var r := RampFromParams(min, max, n as real).value;
            var run := ParamRun(Ramping(r), picks, absSin);
            run.Some?
            && run.value.1 == Ramping(r)
            && |run.value.0| == n + 1
            && run.value.0[0] == Some(min)
            && run.value.0[n] == Some(max)
            && (forall k :: 0 <= k <= n ==> run.value.0[k] == Some(RampValue(min, r.inc, k)))
  {
    var r := RampFromParams(min, max, n as real).value;
    RampClimbs(r, picks, absSin);
    assert r.count == 0;
    assert RampValue(min, r.inc, n) == max;
  }

  /** The bounce counter grows by exactly one per call and is never reset;
      the generator yields on every call unless `steps` is 0, in which case
      the first call traps; call `k` yields `min + |sin|` of the angle for
      count `count + k`, scaled by the range. */
  lemma {:induction false} BounceCounts(b: Bounce, picks: seq<nat>, absSin: real -> real)
    ensures b.steps == 0.0 && |picks| > 0 ==> ParamRun(Bouncing(b), picks, absSin).None?
    ensures b.steps != 0.0 ==>
              var run := ParamRun(Bouncing(b), picks, absSin);
              run.Some?
              && |run.value.0| == |picks|
              && (forall k :: 0 <= k < |picks| ==>
                    run.value.0[k] == Some(BounceValue(b.(count := b.count + k), absSin)))
              && run.value.1 == Bouncing(b.(count := b.count + |picks|))
    decreases |picks|
  {
    if |picks| > 0 && b.steps != 0.0 {
      var b' := b.(count := b.count + 1);
      BounceCounts(b', picks[1..], absSin);
      var v := BounceValue(b, absSin);
      assert ParamNext(Bouncing(b), picks[0], absSin) == Yield(v, Bouncing(b'));
      var rest := ParamRun(Bouncing(b'), picks[1..], absSin).value;
      var vs := [Some(v)] + rest.0;
      assert ParamRun(Bouncing(b), picks, absSin) == Some((vs, rest.1));
      assert b.(count := b.count + 0) == b;
      forall k | 1 <= k < |picks|
        ensures vs[k] == Some(BounceValue(b.(count := b.count + k), absSin))
      {
        assert vs[k] == rest.0[k - 1];
        assert b'.(count := b'.count + (k - 1)) == b.(count := b.count + k);
      }
    }
  }
}
