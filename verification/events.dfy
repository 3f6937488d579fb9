/** Events and event sequences of the pattern language
    (ruffbox-pattern/src/lib.rs): a parsed line becomes a sequence of
    events, played back one per scheduler tick by a generator over event
    ids, with a generator per `@param` clause overriding the events' fixed
    parameters.

    The event id is `calculate_hash` of the event. Hashing is outside the
    model: callers supply the hash as a function, and the properties that
    need it ask only that it tells apart the events of one line. */
module Events {
  import opened Common
  import opened SeqGen
  import opened Parser

  /** `MainEvent`: an event name with fixed parameter values. */
  datatype MainEvent = MainEvent(name: string, params: map<string, real>)

  /** The parameter map of `MainEvent::from_parsed_input`: the pairs are
      inserted in order, so a parameter given twice keeps its last value. */
  function ParamMap(ps: seq<Param>): map<string, real>
    decreases |ps|
  {
    if |ps| == 0 then map[]
    else ParamMap(ps[..|ps| - 1])[ps[|ps| - 1].name := Value(ps[|ps| - 1].value)]
  }

  /** `MainEvent::from_parsed_input`. */
  function FromParsedInput(e: Event): (m: MainEvent)
    ensures m.name == e.name
  {
    MainEvent(e.name, ParamMap(e.params))
  }

  /** The keys of the parameter map are exactly the names the event
      gives. */
  lemma {:induction false} ParamMapKeys(ps: seq<Param>)
    ensures forall k :: k in ParamMap(ps) <==> exists i :: 0 <= i < |ps| && ps[i].name == k
    decreases |ps|
  {
    if |ps| > 0 {
      var n := |ps| - 1;
      var init := ps[..n];
      ParamMapKeys(init);
      forall k
        ensures k in ParamMap(ps) <==> exists i :: 0 <= i < |ps| && ps[i].name == k
      {
        if exists i :: 0 <= i < |ps| && ps[i].name == k {
          var i :| 0 <= i < |ps| && ps[i].name == k;
          if i < n {
            assert init[i] == ps[i];
          }
        }
        if k in ParamMap(init) {
          var i :| 0 <= i < n && init[i].name == k;
          assert ps[i] == init[i];
        }
      }
    }
  }

  /** A pair that no later pair names again sets the parameter's value:
      the last value given wins. */
  lemma {:induction false} ParamMapLastWins(ps: seq<Param>, i: nat)
    requires i < |ps|
    requires forall j :: i < j < |ps| ==> ps[j].name != ps[i].name
    ensures ps[i].name in ParamMap(ps) && ParamMap(ps)[ps[i].name] == Value(ps[i].value)
    decreases |ps|
  {
    var n := |ps| - 1;
    if i < n {
      var init := ps[..n];
      assert init[i] == ps[i];
      forall j | i < j < n
        ensures init[j].name != init[i].name
      {
        assert init[j] == ps[j];
      }
      ParamMapLastWins(init, i);
    }
  }

  /** `PartialEq for MainEvent` as written: every parameter of `a` must
      appear in `b` with the same value, and the names must agree.
      Parameters only `b` has are never looked at. */
  predicate EqAsWritten(a: MainEvent, b: MainEvent) {
    (forall k :: k in a.params ==> k in b.params && a.params[k] == b.params[k])
    && a.name == b.name
  }

  /** The comparison as written is not symmetric: an event without
      parameters "equals" the same event with a level, but not the other
      way round. */
  lemma EqAsWrittenNotSymmetric(a: MainEvent, b: MainEvent)
    requires a == MainEvent("bd", map[])
    requires b == MainEvent("bd", map["lvl" := 1.0])
    ensures EqAsWritten(a, b) && !EqAsWritten(b, a)
  {
    assert "lvl" in b.params && "lvl" !in a.params;
  }

  /** Event equality as evidently intended: the same name and the same
      parameters. It is the comparison as written made in both directions. */
  function EventEq(a: MainEvent, b: MainEvent): (r: bool)
    ensures r <==> EqAsWritten(a, b) && EqAsWritten(b, a)
    ensures r <==> a == b
  {
    assert EqAsWritten(a, b) && EqAsWritten(b, a) ==> a.params == b.params;
    a.name == b.name && a.params == b.params
  }

  /** The comparison as written is a preorder: reflexive and transitive. */
  lemma EqAsWrittenPreorder(a: MainEvent, b: MainEvent, c: MainEvent)
    ensures EqAsWritten(a, a)
    ensures EqAsWritten(a, b) && EqAsWritten(b, c) ==> EqAsWritten(a, c)
  {
  }

  /** `EventSequence`: the events by id, the generator over the ids in
      line order, and the generator of each `@param` clause. */
  datatype EventSequence = EventSequence(
    refs: map<nat, MainEvent>,
    events: ItemGen<nat>,
    paramGens: map<string, ParamGen>)

  /** Every id the event generator can produce has an event. */
  ghost predicate WellFormed(s: EventSequence) {
    forall i :: 0 <= i < |s.events.items| ==> s.events.items[i] in s.refs
  }

  /** The ids of a line's events, in line order (`event_hashes`). */
  function EventIds(es: seq<Event>, hash: MainEvent -> nat): (ids: seq<nat>)
    decreases |es|
  {
    if |es| == 0 then []
    else EventIds(es[..|es| - 1], hash) + [hash(FromParsedInput(es[|es| - 1]))]
  }

  /** The events by id (`main_events`), inserted in line order. */
  function EventRefs(es: seq<Event>, hash: MainEvent -> nat): map<nat, MainEvent>
    decreases |es|
  {
    if |es| == 0 then map[]
    else
      var e := FromParsedInput(es[|es| - 1]);
      EventRefs(es[..|es| - 1], hash)[hash(e) := e]
  }

  /** The hash tells apart the events of a line. */
  ghost predicate Distinguishes(hash: MainEvent -> nat, es: seq<Event>) {
    forall i, j :: 0 <= i < |es| && 0 <= j < |es|
      && hash(FromParsedInput(es[i])) == hash(FromParsedInput(es[j]))
      ==> FromParsedInput(es[i]) == FromParsedInput(es[j])
  }

  /** One id per event, each the hash of that event, each with an entry in
      the table, and the table holds nothing else. */
  lemma {:induction false} EventTable(es: seq<Event>, hash: MainEvent -> nat)
    ensures |EventIds(es, hash)| == |es|
    ensures forall i :: 0 <= i < |es| ==>
              EventIds(es, hash)[i] == hash(FromParsedInput(es[i]))
              && EventIds(es, hash)[i] in EventRefs(es, hash)
    ensures forall id :: id in EventRefs(es, hash) ==> id in EventIds(es, hash)
    decreases |es|
  {
    if |es| > 0 {
      var n := |es| - 1;
      var init := es[..n];
      EventTable(init, hash);
      var ids := EventIds(es, hash);
      var e := FromParsedInput(es[n]);
      assert ids == EventIds(init, hash) + [hash(e)];
      forall i | 0 <= i < n
        ensures ids[i] == hash(FromParsedInput(es[i]))
      {
        assert init[i] == es[i];
      }
    }
  }

  /** When the hash tells the events apart, the entry of the i-th id is the
      i-th event. */
  lemma {:induction false} EventTableExact(es: seq<Event>, hash: MainEvent -> nat)
    requires Distinguishes(hash, es)
    ensures forall i :: 0 <= i < |es| ==>
              hash(FromParsedInput(es[i])) in EventRefs(es, hash)
              && EventRefs(es, hash)[hash(FromParsedInput(es[i]))] == FromParsedInput(es[i])
    decreases |es|
  {
    if |es| > 0 {
      var n := |es| - 1;
      var init := es[..n];
      EventTable(es, hash);
      assert Distinguishes(hash, init) by {
        forall i, j | 0 <= i < n && 0 <= j < n
          && hash(FromParsedInput(init[i])) == hash(FromParsedInput(init[j]))
          ensures FromParsedInput(init[i]) == FromParsedInput(init[j])
        {
          assert init[i] == es[i] && init[j] == es[j];
        }
      }
      EventTableExact(init, hash);
      var e := FromParsedInput(es[n]);
      forall i | 0 <= i < n
        ensures EventRefs(es, hash)[hash(FromParsedInput(es[i]))] == FromParsedInput(es[i])
      {
        assert init[i] == es[i];
      }
    }
  }

  /** The event generator a pattern function names, as `from_parsed_line_ast`
      builds it: `rnd`, `cyc`, `learn`, and a cycle for anything else. */
  function ItemGenFor(func: string, ids: seq<nat>): (g: ItemGen<nat>)
    ensures g.items == ids
  {
    if func == "rnd" then RandomGen(ids)
    else if func == "learn" then LearnGen(ids)
    else CycleFromSeq(ids)
  }

  function Values(ls: seq<Literal>): (vs: seq<real>)
    ensures |vs| == |ls|
    ensures forall i :: 0 <= i < |ls| ==> vs[i] == Value(ls[i])
  {
    seq(|ls|, i requires 0 <= i < |ls| => Value(ls[i]))
  }

  /** The generator of one `@param` clause. `bounce` and `ramp` read the
      first three values unguarded, and a ramp traps on a NaN increment:
      both are `None`. Unknown function names give a cycle. */
  function ClauseGen(c: Clause): (r: Option<ParamGen>)
  {
    var vs := Values(c.values);
    if c.func == "rnd" then Some(Listed(RandomGen(vs)))
    else if c.func == "learn" then Some(Listed(LearnGen(vs)))
    else if c.func == "bounce" then
      if |vs| < 3 then None else Some(Bouncing(BounceFromParams(vs[0], vs[1], vs[2])))
    else if c.func == "ramp" then
      if |vs| < 3 then None
      else match RampFromParams(vs[0], vs[1], vs[2])
           case None => None
           case Some(r) => Some(Ramping(r))
    else Some(Listed(CycleFromSeq(vs)))
  }

  /** When a clause cannot be built: a bounce or ramp with fewer than three
      values, or a ramp whose step count and both ends make `0 / 0`. Any
      other clause gives a generator over its own values. */
  lemma ClauseGenFails(c: Clause)
    ensures ClauseGen(c).None? <==>
              (c.func == "bounce" && |c.values| < 3)
              || (c.func == "ramp" && (|c.values| < 3
                    || (Value(c.values[2]) == 0.0 && Value(c.values[1]) == Value(c.values[0]))))
    ensures c.func != "bounce" && c.func != "ramp" ==>
              ClauseGen(c).Some? && ClauseGen(c).value.Listed?
              && ClauseGen(c).value.g.items == Values(c.values)
  {
  }

  /** The clause generator `update_sequence` builds: the same, except that a
      cycle is built `from_seq_with_index` at the state of the generator it
      replaces. Since the generators were cleared just before, that state
      is always 0. */
  function UpdatedClauseGen(c: Clause): (r: Option<ParamGen>)
  {
    if c.func == "cyc" then Some(Listed(CycleFromSeqWithIndex(Values(c.values), 0)))
    else ClauseGen(c)
  }

  /** An updated parameter cycle restarts from its first value: it is the
      generator a fresh line builds, except over an empty list, where both
      trap on the first call. */
  lemma UpdatedClauseRestarts(c: Clause, pick: nat, absSin: real -> real)
    ensures |c.values| > 0 || c.func != "cyc" ==> UpdatedClauseGen(c) == ClauseGen(c)
    ensures c.func == "cyc" && |c.values| == 0 ==>
              ParamNext(UpdatedClauseGen(c).value, pick, absSin).Trap?
              && ParamNext(ClauseGen(c).value, pick, absSin).Trap?
  {
  }

  /** The parameter generators of a line, clause by clause (a later clause
      for the same parameter replaces an earlier one); `None` as soon as a
      clause cannot be built. */
  function ParamGens(cs: seq<Clause>, updating: bool): (r: Option<map<string, ParamGen>>)
    decreases |cs|
  {
    if |cs| == 0 then Some(map[])
    else
      var c := cs[|cs| - 1];
      match ParamGens(cs[..|cs| - 1], updating)
      case None => None
      case Some(m) =>
        match (if updating then UpdatedClauseGen(c) else ClauseGen(c))
        case None => None
        case Some(g) => Some(m[c.param := g])
  }

  /** The generator a clause gives, on a fresh or an updated line. */
  function GenOf(c: Clause, updating: bool): Option<ParamGen> {
    if updating then UpdatedClauseGen(c) else ClauseGen(c)
  }

  /** The line's generators exist unless a clause cannot be built, and then
      there is one per parameter some clause names, and no other. */
  lemma {:induction false} ParamGensKeys(cs: seq<Clause>, updating: bool)
    ensures ParamGens(cs, updating).None? <==>
              exists i :: 0 <= i < |cs| && GenOf(cs[i], updating).None?
    ensures ParamGens(cs, updating).Some? ==>
              forall k :: k in ParamGens(cs, updating).value <==>
                exists i :: 0 <= i < |cs| && cs[i].param == k
    decreases |cs|
  {
    if |cs| > 0 {
      var n := |cs| - 1;
      var init := cs[..n];
      ParamGensKeys(init, updating);
      assert forall i :: 0 <= i < n ==> init[i] == cs[i];
      if ParamGens(cs, updating).Some? {
        var m := ParamGens(cs, updating).value;
        forall k
          ensures k in m <==> exists i :: 0 <= i < |cs| && cs[i].param == k
        {
          if exists i :: 0 <= i < |cs| && cs[i].param == k {
            var i :| 0 <= i < |cs| && cs[i].param == k;
            if i < n {
              assert init[i].param == k;
            }
          }
          if k in ParamGens(init, updating).value {
            var i :| 0 <= i < n && init[i].param == k;
            assert cs[i].param == k;
          }
        }
      }
    }
  }

  /** A clause that no later clause overrides sets the parameter's
      generator. */
  lemma {:induction false} ParamGensLastWins(cs: seq<Clause>, updating: bool, i: nat)
    requires i < |cs| && ParamGens(cs, updating).Some?
    requires forall j :: i < j < |cs| ==> cs[j].param != cs[i].param
    ensures cs[i].param in ParamGens(cs, updating).value
    ensures Some(ParamGens(cs, updating).value[cs[i].param]) == GenOf(cs[i], updating)
    decreases |cs|
  {
    var n := |cs| - 1;
    if i < n {
      var init := cs[..n];
      assert init[i] == cs[i];
      forall j | i < j < n
        ensures init[j].param != init[i].param
      {
        assert init[j] == cs[j];
      }
      ParamGensLastWins(init, updating, i);
    }
  }

  /** `EventSequence::from_parsed_line_ast`; `None` when building a clause
      generator traps. */
  function FromParsedLineAst(l: Line, hash: MainEvent -> nat): (r: Option<EventSequence>)
    ensures r.Some? ==> r.value.events.items == EventIds(l.pattern.events, hash)
  {
    match ParamGens(l.clauses, false)
    case None => None
    case Some(gens) =>
      var ids := EventIds(l.pattern.events, hash);
      Some(EventSequence(EventRefs(l.pattern.events, hash), ItemGenFor(l.pattern.func, ids), gens))
  }

  /** `EventSequence::update_sequence`: the tables and generators are built
      afresh from the new line; only a `cyc` pattern keeps the position of
      the generator it replaces (clamped to the new list). */
  function UpdateSequence(s: EventSequence, l: Line, hash: MainEvent -> nat): (r: Option<EventSequence>)
    ensures r.Some? ==> r.value.events.items == EventIds(l.pattern.events, hash)
  {
    match ParamGens(l.clauses, true)
    case None => None
    case Some(gens) =>
      var ids := EventIds(l.pattern.events, hash);
      var events := if l.pattern.func == "cyc" then CycleFromSeqWithIndex(ids, ItemState(s.events))
                    else ItemGenFor(l.pattern.func, ids);
      Some(EventSequence(EventRefs(l.pattern.events, hash), events, gens))
  }

  /** A sequence built from a line can produce every id it holds, and the
      event generator has the kind the pattern function names. */
  lemma FromLineWellFormed(l: Line, hash: MainEvent -> nat)
    ensures FromParsedLineAst(l, hash).Some? <==> ParamGens(l.clauses, false).Some?
    ensures FromParsedLineAst(l, hash).Some? ==>
              var s := FromParsedLineAst(l, hash).value;
              WellFormed(s)
              && (l.pattern.func == "rnd" <==> s.events.RandomGen?)
              && (l.pattern.func == "learn" <==> s.events.LearnGen?)
              && (s.events.CycleGen? ==> s.events.index == 0)
  {
    EventTable(l.pattern.events, hash);
  }

  /** Updating keeps the sequence well formed and fails exactly when
      building afresh would; a `cyc` pattern resumes at the position it had
      reached, clamped to the new line, while every other pattern starts
      over as a fresh line does. */
  lemma UpdateKeepsPosition(s: EventSequence, l: Line, hash: MainEvent -> nat)
    ensures UpdateSequence(s, l, hash).Some? <==> FromParsedLineAst(l, hash).Some?
    ensures UpdateSequence(s, l, hash).Some? ==>
              var u := UpdateSequence(s, l, hash).value;
              WellFormed(u)
              && u.refs == FromParsedLineAst(l, hash).value.refs
              && (l.pattern.func != "cyc" ==> u.events == FromParsedLineAst(l, hash).value.events)
              && (l.pattern.func == "cyc" && ItemState(s.events) < |l.pattern.events| ==>
                    u.events == CycleGen(EventIds(l.pattern.events, hash), ItemState(s.events)))
              && (l.pattern.func == "cyc" && 0 < |l.pattern.events| <= ItemState(s.events) ==>
                    u.events == CycleGen(EventIds(l.pattern.events, hash), |l.pattern.events| - 1))
  {
    EventTable(l.pattern.events, hash);
    ParamGensKeys(l.clauses, true);
    ParamGensKeys(l.clauses, false);
    forall i | 0 <= i < |l.clauses|
      ensures GenOf(l.clauses[i], true).None? <==> GenOf(l.clauses[i], false).None?
    {
    }
  }

  /** The random choices of one `get_next_event` call: one pick for the
      event generator and one per parameter generator (0 when missing). */
  datatype Draw = Draw(event: nat, params: map<string, nat>)

  function PickFor(d: Draw, k: string): nat {
    if k in d.params then d.params[k] else 0
  }

  /** One `get_next` on every parameter generator. */
  function StepAll(gens: map<string, ParamGen>, d: Draw, absSin: real -> real): map<string, Step<real, ParamGen>> {
    map k | k in gens :: ParamNext(gens[k], PickFor(d, k), absSin)
  }

  /** The values the generators produced this time. */
  function Produced(steps: map<string, Step<real, ParamGen>>): map<string, real> {
    map k | k in steps && steps[k].Yield? :: steps[k].value
  }

  /** The generators after the call. */
  function Advanced(steps: map<string, Step<real, ParamGen>>, gens: map<string, ParamGen>): map<string, ParamGen> {
    map k | k in gens :: if k in steps && !steps[k].Trap? then steps[k].next else gens[k]
  }

  predicate AnyTrap(steps: map<string, Step<real, ParamGen>>) {
    exists k :: k in steps && steps[k].Trap?
  }

  /** What `get_next_event` hands out: an event name, its parameters, and
      the sequence advanced past it. */
  datatype Emitted = Emitted(name: string, params: map<string, real>, next: EventSequence)

  /** `EventSequence::get_next_event`; `None` when a generator traps or an
      id has no event. A rest, or no id at all, gives `"~"` without
      parameters and leaves the parameter generators untouched; otherwise
      the event's fixed parameters are overridden by whatever the
      parameter generators produce. */
  function GetNextEvent(s: EventSequence, d: Draw, absSin: real -> real): (r: Option<Emitted>)
    ensures r.Some? ==> r.value.next.refs == s.refs && r.value.next.events.items == s.events.items
  {
    match ItemNext(s.events, d.event)
    case Trap => None
    case Silent(g) => Some(Emitted("~", map[], s.(events := g)))
    case Yield(id, g) =>
      if id !in s.refs then None
      else
        var ev := s.refs[id];
        if ev.name == "~" then Some(Emitted("~", map[], s.(events := g)))
        else
          var steps := StepAll(s.paramGens, d, absSin);
          if AnyTrap(steps) then None
          else Some(Emitted(ev.name, ev.params + Produced(steps),
                            s.(events := g, paramGens := Advanced(steps, s.paramGens))))
  }

  /** What one call promises. It fails only on a trap of the event
      generator or of a parameter generator (never for want of an event in
      a well-formed sequence). A `"~"` carries no parameters and leaves the
      parameter generators as they were. Any other name is the stored
      event's; its parameters are the stored ones and the produced ones,
      produced values taking precedence. The sequence stays well formed. */
  lemma GetNextEventLaw(s: EventSequence, d: Draw, absSin: real -> real)
    requires WellFormed(s)
    ensures GetNextEvent(s, d, absSin).None? <==>
              ItemNext(s.events, d.event).Trap?
              || (ItemNext(s.events, d.event).Yield?
                  && s.refs[ItemNext(s.events, d.event).value].name != "~"
                  && exists k :: k in s.paramGens && ParamNext(s.paramGens[k], PickFor(d, k), absSin).Trap?)
    ensures GetNextEvent(s, d, absSin).Some? ==>
              var e := GetNextEvent(s, d, absSin).value;
              WellFormed(e.next)
              && (e.name == "~" ==> e.params == map[] && e.next.paramGens == s.paramGens)
              && (e.name != "~" ==>
                    ItemNext(s.events, d.event).Yield?
                    && e.name == s.refs[ItemNext(s.events, d.event).value].name
                    && e.params.Keys == s.refs[ItemNext(s.events, d.event).value].params.Keys
                                        + Produced(StepAll(s.paramGens, d, absSin)).Keys
                    && forall k :: k in e.params ==>
                         e.params[k] == (if k in Produced(StepAll(s.paramGens, d, absSin))
                                         then Produced(StepAll(s.paramGens, d, absSin))[k]
                                         else s.refs[ItemNext(s.events, d.event).value].params[k]))
  {
    ItemNextLaw(s.events, d.event);
    var steps := StepAll(s.paramGens, d, absSin);
    if AnyTrap(steps) {
      var k :| k in steps && steps[k].Trap?;
      assert k in s.paramGens && ParamNext(s.paramGens[k], PickFor(d, k), absSin).Trap?;
    }
  }

  /** Successive `get_next_event` calls, one draw each: the names handed
      out, or `None` when a call traps. */
  function Play(s: EventSequence, draws: seq<Draw>, absSin: real -> real): Option<seq<string>>
    decreases |draws|
  {
    if |draws| == 0 then Some([])
    else
      match GetNextEvent(s, draws[0], absSin)
      case None => None
      case Some(e) =>
        match Play(e.next, draws[1..], absSin)
        case None => None
        case Some(names) => Some([e.name] + names)
  }

  /** A cycle without parameter clauses plays the stored events round
      robin from its cursor, never trapping. */
  lemma {:induction false} PlayCycle(s: EventSequence, draws: seq<Draw>, absSin: real -> real)
    requires WellFormed(s) && s.paramGens == map[]
    requires s.events.CycleGen? && s.events.index < |s.events.items|
    ensures Play(s, draws, absSin).Some? && |Play(s, draws, absSin).value| == |draws|
    ensures forall k :: 0 <= k < |draws| ==>
              Play(s, draws, absSin).value[k]
              == s.refs[s.events.items[Rotate(s.events.index, k, |s.events.items|)]].name
    decreases |draws|
  {
    if |draws| > 0 {
      var g := s.events;
      var n := |g.items|;
      CycleStep(g, draws[0].event);
      assert StepAll(s.paramGens, draws[0], absSin) == map[];
      var e := GetNextEvent(s, draws[0], absSin).value;
      assert e.next == s.(events := CycleGen(g.items, Rotate(g.index, 1, n)));
      assert e.name == s.refs[g.items[g.index]].name;
      PlayCycle(e.next, draws[1..], absSin);
      var names := Play(s, draws, absSin).value;
      forall k | 0 <= k < |draws|
        ensures names[k] == s.refs[g.items[Rotate(g.index, k, n)]].name
      {
        if k > 0 {
          RotateSplits(g.index, k - 1, n);
        }
      }
    }
  }

  /** The event stored under the id of a line's r-th event has that
      event's name. */
  lemma LineEventAt(es: seq<Event>, hash: MainEvent -> nat, r: nat)
    requires Distinguishes(hash, es) && r < |es|
    ensures |EventIds(es, hash)| == |es| && EventIds(es, hash)[r] in EventRefs(es, hash)
    ensures EventRefs(es, hash)[EventIds(es, hash)[r]].name == es[r].name
  {
    EventTable(es, hash);
    EventTableExact(es, hash);
  }

  /** The event `k` places round the line from its start is event
      `k mod n`. */
  lemma RotatedEventName(es: seq<Event>, hash: MainEvent -> nat, k: nat)
    requires Distinguishes(hash, es) && |es| > 0
    ensures |EventIds(es, hash)| == |es| && Rotate(0, k, |es|) < |es|
    ensures EventIds(es, hash)[Rotate(0, k, |es|)] in EventRefs(es, hash)
    ensures EventRefs(es, hash)[EventIds(es, hash)[Rotate(0, k, |es|)]].name == es[k % |es|].name
  {
    RotateIsModulo(0, k, |es|);
    LineEventAt(es, hash, k % |es|);
  }

  /** A `cyc` line without clauses builds a cycle at its first event and
      no parameter generators. */
  lemma FreshCycleLine(l: Line, hash: MainEvent -> nat)
    requires l.pattern.func == "cyc" && |l.clauses| == 0
    ensures FromParsedLineAst(l, hash)
            == Some(EventSequence(EventRefs(l.pattern.events, hash),
                                  CycleGen(EventIds(l.pattern.events, hash), 0), map[]))
    ensures WellFormed(FromParsedLineAst(l, hash).value)
    ensures |EventIds(l.pattern.events, hash)| == |l.pattern.events|
  {
    assert ParamGens(l.clauses, false) == Some(map[]);
    EventTable(l.pattern.events, hash);
  }

  /** A fresh `cyc` line without clauses plays its events in line order
      over and over: the k-th name is that of event `k mod n`. */
  lemma CycleLinePlaysInOrder(l: Line, hash: MainEvent -> nat, draws: seq<Draw>, absSin: real -> real)
    requires l.pattern.func == "cyc" && |l.pattern.events| > 0 && |l.clauses| == 0
    requires Distinguishes(hash, l.pattern.events)
    ensures FromParsedLineAst(l, hash).Some?
    ensures Play(FromParsedLineAst(l, hash).value, draws, absSin).Some?
    ensures |Play(FromParsedLineAst(l, hash).value, draws, absSin).value| == |draws|
    ensures forall k :: 0 <= k < |draws| ==>
              Play(FromParsedLineAst(l, hash).value, draws, absSin).value[k]
              == l.pattern.events[k % |l.pattern.events|].name
  {
    var es := l.pattern.events;
    FreshCycleLine(l, hash);
    var s := FromParsedLineAst(l, hash).value;
    PlayCycle(s, draws, absSin);
    var names := Play(s, draws, absSin).value;
    var ids := EventIds(es, hash);
    var refs := EventRefs(es, hash);
    assert s.events.items == ids && s.events.index == 0 && s.refs == refs;
    forall k | 0 <= k < |draws|
      ensures names[k] == es[k % |es|].name
    {
      assert names[k] == refs[ids[Rotate(0, k, |es|)]].name;
      RotatedEventName(es, hash, k);
    }
  }
}
