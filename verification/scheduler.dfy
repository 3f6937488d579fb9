/** The pattern scheduler (the `Scheduler` of ruffbox-pattern/src/lib.rs):
    it turns the text of a live-coding session into event sequences, one
    per pattern line, and on every tick fetches the next event of each
    sequence as a trigger stamped with the logical audio time plus the
    lookahead. Logging goes nowhere and is left out; the random choices of
    the generators are `Draw`s supplied by the caller. */
module Scheduling {
  import opened Common
  import opened SeqGen
  import opened Parser
  import opened Events

  /** `Scheduler`. Times are `f64` in the source and exact reals here. */
  datatype Scheduler = Scheduler(
    audioStart: real,
    browserStart: real,
    audioLogical: real,
    browserLogical: real,
    lookahead: real,
    tempo: real,
    sequences: seq<EventSequence>,
    variables: map<string, MainEvent>)

  /** `Scheduler::new`: all clocks at 0, a lookahead of 0.1 seconds and a
      tick of 128 milliseconds. */
  function New(): (s: Scheduler)
    ensures InStep(s)
  {
    Scheduler(0.0, 0.0, 0.0, 0.0, 0.1, 128.0, [], map[])
  }

  /** The two logical clocks have moved on together since the start: the
      audio clock in seconds, the browser clock in milliseconds. */
  ghost predicate InStep(s: Scheduler) {
    (s.audioLogical - s.audioStart) * 1000.0 == s.browserLogical - s.browserStart
  }

  // ---------------------------------------------------------------------
  // Splitting the input into lines
  // ---------------------------------------------------------------------

  /** Rust's `char::is_whitespace`: the Unicode `White_Space` characters. */
  predicate IsWhitespace(c: char) {
    ('\U{9}' <= c <= '\U{D}') || c == ' ' || c == '\U{85}' || c == '\U{A0}'
    || c == '\U{1680}' || ('\U{2000}' <= c <= '\U{200A}') || c == '\U{2028}' || c == '\U{2029}'
    || c == '\U{202F}' || c == '\U{205F}' || c == '\U{3000}'
  }

  function TrimStart(s: string): (r: string)
    ensures |r| <= |s|
    ensures |r| == 0 || !IsWhitespace(r[0])
    decreases |s|
  {
    if |s| > 0 && IsWhitespace(s[0]) then TrimStart(s[1..]) else s
  }

  function TrimEnd(s: string): (r: string)
    ensures |r| <= |s|
    ensures |r| == 0 || !IsWhitespace(r[|r| - 1])
    decreases |s|
  {
    if |s| > 0 && IsWhitespace(s[|s| - 1]) then TrimEnd(s[..|s| - 1]) else s
  }

  /** `str::trim`. */
  function Trim(s: string): (r: string)
    ensures |r| == 0 || (!IsWhitespace(r[0]) && !IsWhitespace(r[|r| - 1]))
  {
    var t := TrimStart(s);
    var r := TrimEnd(t);
    assert |r| > 0 ==> r[0] == t[0] by {
      TrimEndKeepsPrefix(t);
    }
    r
  }

  lemma {:induction false} TrimEndKeepsPrefix(s: string)
    ensures TrimEnd(s) == s[..|TrimEnd(s)|]
    decreases |s|
  {
    if |s| > 0 && IsWhitespace(s[|s| - 1]) {
      TrimEndKeepsPrefix(s[..|s| - 1]);
    }
  }

  /** Trimming drops only whitespace, and only at either end: the result
      is a slice of the line with nothing but whitespace around it. */
  lemma {:induction false} TrimStartDrops(s: string)
    ensures TrimStart(s) == s[|s| - |TrimStart(s)|..]
    ensures forall k :: 0 <= k < |s| - |TrimStart(s)| ==> IsWhitespace(s[k])
    decreases |s|
  {
    if |s| > 0 && IsWhitespace(s[0]) {
      TrimStartDrops(s[1..]);
      var r := TrimStart(s);
      assert s[1..][|s| - 1 - |r|..] == s[|s| - |r|..];
      forall k | 0 <= k < |s| - |r|
        ensures IsWhitespace(s[k])
      {
        if k > 0 {
          assert s[k] == s[1..][k - 1];
        }
      }
    }
  }

  lemma {:induction false} TrimEndDrops(s: string)
    ensures forall k :: |TrimEnd(s)| <= k < |s| ==> IsWhitespace(s[k])
    decreases |s|
  {
    if |s| > 0 && IsWhitespace(s[|s| - 1]) {
      TrimEndDrops(s[..|s| - 1]);
    }
  }

  /** `trim` returns the slice `s[i..j]` of the line, with only whitespace
      before `i` and after `j`. */
  lemma TrimIsSlice(s: string)
    ensures exists i, j :: 0 <= i <= j <= |s| && Trim(s) == s[i..j]
              && (forall k :: 0 <= k < i ==> IsWhitespace(s[k]))
              && (forall k :: j <= k < |s| ==> IsWhitespace(s[k]))
  {
    var t := TrimStart(s);
    TrimStartDrops(s);
    TrimEndKeepsPrefix(t);
    TrimEndDrops(t);
    var i := |s| - |t|;
    var j := i + |TrimEnd(t)|;
    assert Trim(s) == s[i..j];
    forall k | j <= k < |s|
      ensures IsWhitespace(s[k])
    {
      assert s[k] == t[k - i];
    }
  }

  /** `str::lines`: the text split at each `\n`, without an empty line
      after a final `\n`. The `\r` of a `\r\n` ending is kept; it is
      whitespace, which `trim` removes from every line before it is looked
      at. */
  function Lines(s: string): seq<string> {
    LinesFrom(s, "")
  }

  /** The lines of `s`, the first of which began with `cur`. */
  function LinesFrom(s: string, cur: string): seq<string>
    decreases |s|
  {
    if |s| == 0 then (if |cur| > 0 then [cur] else [])
    else if s[0] == '\n' then [cur] + LinesFrom(s[1..], "")
    else LinesFrom(s[1..], cur + [s[0]])
  }

  predicate NoNewline(a: string) {
    forall i :: 0 <= i < |a| ==> a[i] != '\n'
  }

  /** The lines joined back with `\n` between them. */
  function JoinLines(ls: seq<string>): string
    decreases |ls|
  {
    if |ls| == 0 then ""
    else if |ls| == 1 then ls[0]
    else ls[0] + "\n" + JoinLines(ls[1..])
  }

  predicate EndsWithNewline(s: string) {
    |s| > 0 && s[|s| - 1] == '\n'
  }

  /** Text without a `\n` only extends the current line. */
  lemma {:induction false} LinesFromWord(a: string, rest: string, cur: string)
    requires NoNewline(a)
    ensures LinesFrom(a + rest, cur) == LinesFrom(rest, cur + a)
    decreases |a|
  {
    if |a| == 0 {
      assert a + rest == rest && cur + a == cur;
    } else {
      assert (a + rest)[0] == a[0];
      assert (a + rest)[1..] == a[1..] + rest;
      assert cur + [a[0]] + a[1..] == cur + a;
      LinesFromWord(a[1..], rest, cur + [a[0]]);
    }
  }

  /** There are lines exactly when there is text. */
  lemma {:induction false} LinesFromEmpty(s: string, cur: string)
    ensures |LinesFrom(s, cur)| == 0 <==> |s| == 0 && |cur| == 0
    decreases |s|
  {
    if |s| > 0 && s[0] != '\n' {
      LinesFromEmpty(s[1..], cur + [s[0]]);
    }
  }

  /** No line holds a `\n`. */
  lemma {:induction false} LinesHaveNoNewline(s: string, cur: string)
    requires NoNewline(cur)
    ensures forall i :: 0 <= i < |LinesFrom(s, cur)| ==> NoNewline(LinesFrom(s, cur)[i])
    decreases |s|
  {
    if |s| > 0 {
      if s[0] == '\n' {
        LinesHaveNoNewline(s[1..], "");
      } else {
        LinesHaveNoNewline(s[1..], cur + [s[0]]);
      }
    }
  }

  /** Splitting loses only a final `\n`: joining the lines gives back the
      text. */
  lemma {:induction false} LinesJoin(s: string, cur: string)
    ensures JoinLines(LinesFrom(s, cur)) + (if EndsWithNewline(s) then "\n" else "") == cur + s
    decreases |s|
  {
    if |s| == 0 {
      assert cur + s == cur;
    } else if s[0] == '\n' {
      var rest := s[1..];
      LinesJoin(rest, "");
      LinesFromEmpty(rest, "");
      JoinAfterNewline(s, cur);
    } else {
      var rest := s[1..];
      LinesJoin(rest, cur + [s[0]]);
      assert EndsWithNewline(s) == EndsWithNewline(rest);
      assert cur + [s[0]] + rest == cur + s;
    }
  }

  /** The step of `LinesJoin` at a `\n`. */
  lemma JoinAfterNewline(s: string, cur: string)
    requires |s| > 0 && s[0] == '\n'
    requires JoinLines(LinesFrom(s[1..], "")) + (if EndsWithNewline(s[1..]) then "\n" else "") == "" + s[1..]
    requires |LinesFrom(s[1..], "")| == 0 <==> |s[1..]| == 0
    ensures JoinLines(LinesFrom(s, cur)) + (if EndsWithNewline(s) then "\n" else "") == cur + s
  {
    var rest := s[1..];
    var ls := LinesFrom(rest, "");
    assert LinesFrom(s, cur) == [cur] + ls;
    assert s == "\n" + rest;
    if |rest| == 0 {
      assert JoinLines([cur] + ls) == cur;
    } else {
      var e := if EndsWithNewline(rest) then "\n" else "";
      assert EndsWithNewline(s) == EndsWithNewline(rest);
      assert JoinLines(ls) + e == rest;
      JoinCons(cur, ls, e);
    }
  }

  /** Joining a line in front of others puts a `\n` between. */
  lemma JoinCons(x: string, ls: seq<string>, e: string)
    requires |ls| > 0
    ensures JoinLines([x] + ls) + e == x + ("\n" + (JoinLines(ls) + e))
  {
    var xs := [x] + ls;
    assert xs[0] == x && xs[1..] == ls && |xs| > 1;
    var j := JoinLines(ls);
    assert JoinLines(xs) == x + "\n" + j;
    Regroup(x, "\n", j, e);
  }

  lemma Regroup(a: string, b: string, c: string, d: string)
    ensures a + b + c + d == a + (b + (c + d))
  {
  }

  // ---------------------------------------------------------------------
  // Evaluating the input
  // ---------------------------------------------------------------------

  /** What a line of input is. Blank lines and `#` comments are skipped; a
      line that `variable_definiton` accepts defines a variable (whatever
      follows the definition); otherwise `pattern_line` is tried. Neither
      parser has to consume the whole line. */
  datatype LineKind = Skipped | Definition(v: Variable) | PatternDef(l: Line) | Invalid

  function Classify(line: string): LineKind {
    var t := Trim(line);
    if |t| == 0 || t[0] == '#' then Skipped
    else
      match VariableDefinition(t)
      case Some((v, _)) => Definition(v)
      case None =>
        match PatternLine(t)
        case Some((l, _)) => PatternDef(l)
        case None => Invalid
  }

  /** The kind of each line, in order. */
  function Kinds(lines: seq<string>): (ks: seq<LineKind>)
    ensures |ks| == |lines|
  {
    seq(|lines|, i requires 0 <= i < |lines| => Classify(lines[i]))
  }

  /** One line of the `evaluate` loop, with the current slot `seq_idx`. A
      pattern line updates the sequence in its slot, or appends a new one
      when there is none; it and an invalid line both take a slot. `None`
      when building a sequence traps. */
  function EvalLine(s: Scheduler, slot: nat, k: LineKind, hash: MainEvent -> nat): Option<(Scheduler, nat)> {
    match k
    case Skipped => Some((s, slot))
    case Definition(v) => Some((s.(variables := s.variables[v.name := FromParsedInput(v.event)]), slot))
    case Invalid => Some((s, slot + 1))
    case PatternDef(l) =>
      if slot < |s.sequences| then
        match UpdateSequence(s.sequences[slot], l, hash)
        case None => None
        case Some(q) => Some((s.(sequences := s.sequences[slot := q]), slot + 1))
      else
        match FromParsedLineAst(l, hash)
        case None => None
        case Some(q) => Some((s.(sequences := s.sequences + [q]), slot + 1))
  }

  function EvalLines(s: Scheduler, slot: nat, ks: seq<LineKind>, hash: MainEvent -> nat): Option<(Scheduler, nat)>
    decreases |ks|
  {
    if |ks| == 0 then Some((s, slot))
    else
      match EvalLine(s, slot, ks[0], hash)
      case None => None
      case Some((s', slot')) => EvalLines(s', slot', ks[1..], hash)
  }

  /** The number of slots the lines take: pattern lines and invalid lines. */
  function SlotCount(ks: seq<LineKind>): nat
    decreases |ks|
  {
    if |ks| == 0 then 0
    else (if ks[0].PatternDef? || ks[0].Invalid? then 1 else 0) + SlotCount(ks[1..])
  }

  /** The lines that take a slot, in order: the `i`-th of them is the line
      slot `i` is counted for. */
  function Counted(ks: seq<LineKind>): (cs: seq<LineKind>)
    ensures |cs| == SlotCount(ks)
    ensures forall i :: 0 <= i < |cs| ==> cs[i].PatternDef? || cs[i].Invalid?
    decreases |ks|
  {
    if |ks| == 0 then []
    else (if ks[0].PatternDef? || ks[0].Invalid? then [ks[0]] else []) + Counted(ks[1..])
  }

  /** What slot `i` holds once its line `c` has been read, given the
      sequences `prev` there were before: a pattern line updates the
      sequence in the slot or builds a new one; an invalid line keeps what
      is there, or leaves a placeholder when there is nothing. */
  function SlotAfter(prev: seq<EventSequence>, i: nat, c: LineKind, hash: MainEvent -> nat): Option<EventSequence> {
    if c.PatternDef? then
      if i < |prev| then UpdateSequence(prev[i], c.l, hash) else FromParsedLineAst(c.l, hash)
    else if i < |prev| then Some(prev[i])
    else Some(Placeholder())
  }

  /** The pattern lines among `cs` from position `k` on. */
  function PatternsFrom(cs: seq<LineKind>, k: nat): (ls: seq<Line>)
    ensures |ls| <= |cs|
    decreases |cs|
  {
    if |cs| == 0 then []
    else (if k == 0 && cs[0].PatternDef? then [cs[0].l] else []) + PatternsFrom(cs[1..], if k > 0 then k - 1 else 0)
  }

  /** Line `k` defines the variable `name`. */
  predicate Defines(k: LineKind, name: string) {
    k.Definition? && k.v.name == name
  }

  /** The variables after the lines, defined on their own: each
      definition stores its event under its name, in order. */
  function Defs(vars: map<string, MainEvent>, ks: seq<LineKind>): map<string, MainEvent>
    decreases |ks|
  {
    if |ks| == 0 then vars
    else Defs(if ks[0].Definition? then vars[ks[0].v.name := FromParsedInput(ks[0].v.event)] else vars, ks[1..])
  }

  /** A name that no line defines keeps what it had. */
  lemma {:induction false} DefsUntouched(vars: map<string, MainEvent>, ks: seq<LineKind>, name: string)
    requires forall i :: 0 <= i < |ks| ==> !Defines(ks[i], name)
    ensures name in Defs(vars, ks) <==> name in vars
    ensures name in vars ==> Defs(vars, ks)[name] == vars[name]
    decreases |ks|
  {
    if |ks| > 0 {
      var vars' := if ks[0].Definition? then vars[ks[0].v.name := FromParsedInput(ks[0].v.event)] else vars;
      assert forall j :: 0 <= j < |ks[1..]| ==> ks[1..][j] == ks[j + 1];
      DefsUntouched(vars', ks[1..], name);
    }
  }

  /** The last definition of a name wins. */
  lemma {:induction false} DefsLastWins(vars: map<string, MainEvent>, ks: seq<LineKind>, name: string, i: nat)
    requires i < |ks| && Defines(ks[i], name)
    requires forall j :: i < j < |ks| ==> !Defines(ks[j], name)
    ensures name in Defs(vars, ks) && Defs(vars, ks)[name] == FromParsedInput(ks[i].v.event)
    decreases |ks|
  {
    var rest := ks[1..];
    var vars' := if ks[0].Definition? then vars[ks[0].v.name := FromParsedInput(ks[0].v.event)] else vars;
    assert forall j :: 0 <= j < |rest| ==> rest[j] == ks[j + 1];
    if i == 0 {
      DefsUntouched(vars', rest, name);
    } else {
      DefsLastWins(vars', rest, name, i - 1);
    }
  }

  /** A name is defined afterwards exactly when it was before or some
      line defines it. */
  lemma {:induction false} DefsKeys(vars: map<string, MainEvent>, ks: seq<LineKind>, name: string)
    ensures name in Defs(vars, ks) <==> name in vars || exists i :: 0 <= i < |ks| && Defines(ks[i], name)
    decreases |ks|
  {
    if |ks| > 0 {
      var rest := ks[1..];
      var vars' := if ks[0].Definition? then vars[ks[0].v.name := FromParsedInput(ks[0].v.event)] else vars;
      DefsKeys(vars', rest, name);
      if exists i :: 0 <= i < |rest| && Defines(rest[i], name) {
        var i :| 0 <= i < |rest| && Defines(rest[i], name);
        assert Defines(ks[i + 1], name);
      }
      if exists i :: 0 <= i < |ks| && Defines(ks[i], name) {
        var i :| 0 <= i < |ks| && Defines(ks[i], name);
        if i > 0 {
          assert Defines(rest[i - 1], name);
        }
      }
    }
  }

  /** The loop and the final truncation to the slots used. */
  function EvaluateLines(s: Scheduler, ks: seq<LineKind>, hash: MainEvent -> nat): Option<Scheduler> {
    match EvalLines(s, 0, ks, hash)
    case None => None
    case Some((s', slot)) =>
      Some(if slot < |s'.sequences| then s'.(sequences := s'.sequences[..slot]) else s')
  }

  /** `Scheduler::evaluate`: no input changes nothing. */
  function Evaluate(s: Scheduler, input: Option<string>, hash: MainEvent -> nat): (r: Option<Scheduler>)
    ensures input.None? ==> r == Some(s)
  {
    match input
    case None => Some(s)
    case Some(text) => EvaluateLines(s, Kinds(Lines(text)), hash)
  }

  /** The loop counts one slot per pattern or invalid line, leaves the
      clocks alone, never drops a sequence, and keeps at most one sequence
      beyond the slots it has counted, per sequence it started with. */
  lemma {:induction false} EvalLinesSlots(s: Scheduler, slot: nat, ks: seq<LineKind>, hash: MainEvent -> nat)
    requires EvalLines(s, slot, ks, hash).Some?
    ensures var (r, n) := EvalLines(s, slot, ks, hash).value;
            n == slot + SlotCount(ks)
            && |r.sequences| >= |s.sequences|
            && |r.sequences| <= (if |s.sequences| > n then |s.sequences| else n)
            && r.(sequences := s.sequences, variables := s.variables) == s
    decreases |ks|
  {
    if |ks| > 0 {
      var (s', slot') := EvalLine(s, slot, ks[0], hash).value;
      EvalLinesSlots(s', slot', ks[1..], hash);
    }
  }

  /** After `evaluate`, there are no more sequences than slots, and exactly
      as many when there were at least that many before; the clocks are
      untouched. */
  lemma EvaluateSlots(s: Scheduler, ks: seq<LineKind>, hash: MainEvent -> nat)
    requires EvaluateLines(s, ks, hash).Some?
    ensures var r := EvaluateLines(s, ks, hash).value;
            |r.sequences| <= SlotCount(ks)
            && (|s.sequences| >= SlotCount(ks) ==> |r.sequences| == SlotCount(ks))
            && r.(sequences := s.sequences, variables := s.variables) == s
  {
    EvalLinesSlots(s, 0, ks, hash);
  }

  /** The loop leaves the variables as the definitions among the lines
      make them. */
  lemma {:induction false} EvalLinesVariables(s: Scheduler, slot: nat, ks: seq<LineKind>, hash: MainEvent -> nat)
    requires EvalLines(s, slot, ks, hash).Some?
    ensures EvalLines(s, slot, ks, hash).value.0.variables == Defs(s.variables, ks)
    decreases |ks|
  {
    if |ks| > 0 {
      var (s', slot') := EvalLine(s, slot, ks[0], hash).value;
      EvalLinesVariables(s', slot', ks[1..], hash);
    }
  }

  /** What one line does to the sequences: a counted line in a slot that
      has a sequence replaces it by what the line makes of it; a pattern
      line past the end appends the sequence it builds; nothing else
      changes them. */
  function Effect(prev: seq<EventSequence>, slot: nat, k: LineKind, hash: MainEvent -> nat): Option<seq<EventSequence>> {
    if (k.PatternDef? || k.Invalid?) && slot < |prev| then
      match SlotAfter(prev, slot, k, hash)
      case None => None
      case Some(q) => Some(prev[slot := q])
    else if k.PatternDef? then
      match FromParsedLineAst(k.l, hash)
      case None => None
      case Some(q) => Some(prev + [q])
    else Some(prev)
  }

  lemma EvalLineEffect(s: Scheduler, slot: nat, k: LineKind, hash: MainEvent -> nat)
    requires EvalLine(s, slot, k, hash).Some?
    ensures Effect(s.sequences, slot, k, hash).Some?
    ensures EvalLine(s, slot, k, hash).value.0.sequences == Effect(s.sequences, slot, k, hash).value
    ensures EvalLine(s, slot, k, hash).value.1 == slot + (if k.PatternDef? || k.Invalid? then 1 else 0)
  {
  }

  /** The sequences `r` hold, in every place below `|prev|`, what the
      counted lines `cs` taking slots `slot` onwards make of `prev`, and
      `prev` itself elsewhere. */
  ghost predicate KeptFrom(prev: seq<EventSequence>, r: seq<EventSequence>, slot: nat, cs: seq<LineKind>, hash: MainEvent -> nat) {
    |prev| <= |r|
    && forall j :: 0 <= j < |prev| ==>
         if slot <= j < slot + |cs| then Some(r[j]) == SlotAfter(prev, j, cs[j - slot], hash)
         else r[j] == prev[j]
  }

  /** The step of `EvalLinesKeeps` for a counted line, on the sequences
      alone. */
  lemma KeepsStep(prev: seq<EventSequence>, mid: seq<EventSequence>, r: seq<EventSequence>,
                  slot: nat, c: LineKind, cs: seq<LineKind>, hash: MainEvent -> nat)
    requires c.PatternDef? || c.Invalid?
    requires Effect(prev, slot, c, hash) == Some(mid)
    requires KeptFrom(mid, r, slot + 1, cs, hash)
    ensures KeptFrom(prev, r, slot, [c] + cs, hash)
  {
    assert |prev| <= |mid|;
    var n := slot + 1 + |cs|;
    forall j | 0 <= j < |prev|
      ensures if slot <= j < n then Some(r[j]) == SlotAfter(prev, j, ([c] + cs)[j - slot], hash)
              else r[j] == prev[j]
    {
      if j == slot {
        assert Some(mid[j]) == SlotAfter(prev, j, c, hash);
      } else {
        assert mid[j] == prev[j];
        if slot < j < n {
          assert ([c] + cs)[j - slot] == cs[j - (slot + 1)];
        }
      }
    }
  }

  /** `KeepsStep` for any line, from the scheduler the line is read in. */
  lemma KeepsLine(s: Scheduler, slot: nat, k: LineKind, r: seq<EventSequence>, cs: seq<LineKind>, hash: MainEvent -> nat)
    requires EvalLine(s, slot, k, hash).Some?
    requires KeptFrom(EvalLine(s, slot, k, hash).value.0.sequences, r, EvalLine(s, slot, k, hash).value.1, cs, hash)
    ensures KeptFrom(s.sequences, r, slot, (if k.PatternDef? || k.Invalid? then [k] else []) + cs, hash)
  {
    EvalLineEffect(s, slot, k, hash);
    if k.PatternDef? || k.Invalid? {
      KeepsStep(s.sequences, EvalLine(s, slot, k, hash).value.0.sequences, r, slot, k, cs, hash);
    } else {
      assert [] + cs == cs;
    }
  }

  /** Every sequence there was before the loop is still in its place: the
      ones in a slot the loop counts are what that slot's line makes of
      them, the others are untouched. */
  lemma {:induction false} EvalLinesKeeps(s: Scheduler, slot: nat, ks: seq<LineKind>, hash: MainEvent -> nat)
    requires EvalLines(s, slot, ks, hash).Some?
    ensures EvalLines(s, slot, ks, hash).value.1 == slot + |Counted(ks)|
    ensures KeptFrom(s.sequences, EvalLines(s, slot, ks, hash).value.0.sequences, slot, Counted(ks), hash)
    decreases |ks|
  {
    if |ks| > 0 {
      var (s', slot') := EvalLine(s, slot, ks[0], hash).value;
      EvalLinesKeeps(s', slot', ks[1..], hash);
      assert EvalLines(s, slot, ks, hash) == EvalLines(s', slot', ks[1..], hash);
      KeepsLine(s, slot, ks[0], EvalLines(s, slot, ks, hash).value.0.sequences, Counted(ks[1..]), hash);
    }
  }

  /** `r` is `prev` followed by the sequences built from the lines `p`. */
  ghost predicate AppendedAfter(prev: seq<EventSequence>, r: seq<EventSequence>, p: seq<Line>, hash: MainEvent -> nat) {
    |r| == |prev| + |p|
    && forall t :: 0 <= t < |p| ==> Some(r[|prev| + t]) == FromParsedLineAst(p[t], hash)
  }

  /** The step of `EvalLinesAppends` for a pattern line past the end. */
  lemma AppendsStep(prev: seq<EventSequence>, mid: seq<EventSequence>, r: seq<EventSequence>,
                    l: Line, p: seq<Line>, hash: MainEvent -> nat)
    requires |mid| == |prev| + 1 && |prev| < |r| && FromParsedLineAst(l, hash) == Some(r[|prev|])
    requires AppendedAfter(mid, r, p, hash)
    ensures AppendedAfter(prev, r, [l] + p, hash)
  {
    forall t | 0 < t < |[l] + p|
      ensures Some(r[|prev| + t]) == FromParsedLineAst(([l] + p)[t], hash)
    {
      assert ([l] + p)[t] == p[t - 1];
      assert r[|prev| + t] == r[|mid| + (t - 1)];
    }
  }

  /** Where the pattern lines that append start among the counted lines,
      when the loop is at `slot` with `len` sequences. */
  function FirstAppending(len: nat, slot: nat): nat {
    if slot <= len then len - slot else 0
  }

  /** A counted line starts the appending pattern lines when its slot
      has no sequence; the ones after it are found from the next slot. */
  lemma PatternsFromStep(c: LineKind, cs: seq<LineKind>, len: nat, slot: nat)
    requires c.PatternDef? || c.Invalid?
    ensures var len' := if slot >= len && c.PatternDef? then len + 1 else len;
            PatternsFrom([c] + cs, FirstAppending(len, slot))
            == (if slot >= len && c.PatternDef? then [c.l] else []) + PatternsFrom(cs, FirstAppending(len', slot + 1))
  {
    assert ([c] + cs)[1..] == cs;
  }

  /** One line adds a sequence only when it is a pattern line past the
      end, and then it adds the sequence it builds. */
  lemma EffectLength(prev: seq<EventSequence>, slot: nat, k: LineKind, hash: MainEvent -> nat, mid: seq<EventSequence>)
    requires Effect(prev, slot, k, hash) == Some(mid)
    ensures |mid| == |prev| + (if k.PatternDef? && slot >= |prev| then 1 else 0)
    ensures k.PatternDef? && slot >= |prev| ==> FromParsedLineAst(k.l, hash) == Some(mid[|prev|])
  {
  }

  /** Below the first slot, `KeptFrom` keeps the sequence there. */
  lemma KeptBelow(prev: seq<EventSequence>, r: seq<EventSequence>, slot: nat, cs: seq<LineKind>, hash: MainEvent -> nat, j: nat)
    requires KeptFrom(prev, r, slot, cs, hash) && j < |prev| && j < slot
    ensures r[j] == prev[j]
  {
  }

  /** `AppendsStep` for any counted line, on the sequences before and
      after it. */
  lemma AppendsLine(prev: seq<EventSequence>, mid: seq<EventSequence>, slot: nat, k: LineKind,
                    r: seq<EventSequence>, cs: seq<LineKind>, hash: MainEvent -> nat)
    requires k.PatternDef? || k.Invalid?
    requires AppendedAfter(mid, r, PatternsFrom(cs, FirstAppending(|mid|, slot + 1)), hash)
    requires |mid| == |prev| + (if k.PatternDef? && slot >= |prev| then 1 else 0)
    requires k.PatternDef? && slot >= |prev| ==> FromParsedLineAst(k.l, hash) == Some(mid[|prev|]) && r[|prev|] == mid[|prev|]
    ensures AppendedAfter(prev, r, PatternsFrom([k] + cs, FirstAppending(|prev|, slot)), hash)
  {
    PatternsFromStep(k, cs, |prev|, slot);
    var p' := PatternsFrom(cs, FirstAppending(|mid|, slot + 1));
    if slot >= |prev| && k.PatternDef? {
      AppendsStep(prev, mid, r, k.l, p', hash);
    } else {
      assert PatternsFrom([k] + cs, FirstAppending(|prev|, slot)) == p';
    }
  }

  /** The sequences the loop adds come after those there were, one per
      pattern line whose slot had no sequence when the loop began, in
      order. */
  lemma {:induction false} EvalLinesAppends(s: Scheduler, slot: nat, ks: seq<LineKind>, hash: MainEvent -> nat)
    requires EvalLines(s, slot, ks, hash).Some?
    ensures AppendedAfter(s.sequences, EvalLines(s, slot, ks, hash).value.0.sequences,
                          PatternsFrom(Counted(ks), FirstAppending(|s.sequences|, slot)), hash)
    decreases |ks|
  {
    if |ks| > 0 {
      var (s', slot') := EvalLine(s, slot, ks[0], hash).value;
      var r := EvalLines(s, slot, ks, hash).value.0.sequences;
      EvalLineEffect(s, slot, ks[0], hash);
      EffectLength(s.sequences, slot, ks[0], hash, s'.sequences);
      EvalLinesAppends(s', slot', ks[1..], hash);
      assert EvalLines(s, slot, ks, hash) == EvalLines(s', slot', ks[1..], hash);
      if ks[0].PatternDef? && slot >= |s.sequences| {
        EvalLinesKeeps(s', slot', ks[1..], hash);
        KeptBelow(s'.sequences, r, slot', Counted(ks[1..]), hash, |s.sequences|);
      }
      if ks[0].PatternDef? || ks[0].Invalid? {
        assert Counted(ks) == [ks[0]] + Counted(ks[1..]);
        AppendsLine(s.sequences, s'.sequences, slot, ks[0], r, Counted(ks[1..]), hash);
      } else {
        assert Counted(ks) == Counted(ks[1..]);
      }
    }
  }

  /** What `evaluate` leaves, for every input: slot `i` below the number
      of sequences there were holds what its line makes of the sequence
      there; the sequences built for pattern lines whose slot was empty
      follow in order, however many invalid lines were counted before
      them; all of it cut to the number of slots; and the variables are
      those the definitions give. */
  lemma EvaluateContents(s: Scheduler, ks: seq<LineKind>, hash: MainEvent -> nat)
    requires EvaluateLines(s, ks, hash).Some?
    ensures |EvaluateLines(s, ks, hash).value.sequences|
            == Min(|s.sequences| + |PatternsFrom(Counted(ks), |s.sequences|)|, |Counted(ks)|)
    ensures var r := EvaluateLines(s, ks, hash).value;
            forall i :: 0 <= i < |r.sequences| && i < |s.sequences|
              ==> Some(r.sequences[i]) == SlotAfter(s.sequences, i, Counted(ks)[i], hash)
    ensures var r := EvaluateLines(s, ks, hash).value;
            var p := PatternsFrom(Counted(ks), |s.sequences|);
            forall t :: 0 <= t < |p| && |s.sequences| + t < |r.sequences|
              ==> Some(r.sequences[|s.sequences| + t]) == FromParsedLineAst(p[t], hash)
    ensures EvaluateLines(s, ks, hash).value.variables == Defs(s.variables, ks)
  {
    var (r, n) := EvalLines(s, 0, ks, hash).value;
    EvalLinesKeeps(s, 0, ks, hash);
    EvalLinesAppends(s, 0, ks, hash);
    EvalLinesVariables(s, 0, ks, hash);
    var r' := EvaluateLines(s, ks, hash).value;
    assert r'.sequences == if n < |r.sequences| then r.sequences[..n] else r.sequences;
  }

  /** A line no parser accepts followed by a pattern line, evaluated on a
      scheduler without sequences: the pattern goes into slot 0 although it
      is counted in slot 1, so evaluating the same text a second time
      appends a second copy instead of updating the first. */
  lemma ReevaluateDuplicates(s: Scheduler, l: Line, hash: MainEvent -> nat)
    requires |s.sequences| == 0
    requires FromParsedLineAst(l, hash).Some?
    ensures EvaluateLines(s, [Invalid, PatternDef(l)], hash).Some?
    ensures |EvaluateLines(s, [Invalid, PatternDef(l)], hash).value.sequences| == 1
    ensures EvaluateLines(EvaluateLines(s, [Invalid, PatternDef(l)], hash).value, [Invalid, PatternDef(l)], hash).Some?
    ensures |EvaluateLines(EvaluateLines(s, [Invalid, PatternDef(l)], hash).value,
                           [Invalid, PatternDef(l)], hash).value.sequences| == 2
  {
    var ks := [Invalid, PatternDef(l)];
    assert ks[1..] == [PatternDef(l)];
    assert [PatternDef(l)][1..] == [];
    var q := FromParsedLineAst(l, hash).value;
    assert s.sequences + [q] == [q];
    var once := s.(sequences := [q]);
    assert EvalLine(s, 1, PatternDef(l), hash) == Some((once, 2));
    assert EvalLines(s, 1, [PatternDef(l)], hash) == Some((once, 2));
    assert [q] + [q] == [q, q];
    assert EvalLine(once, 1, PatternDef(l), hash) == Some((once.(sequences := [q, q]), 2));
    assert EvalLines(s, 0, ks, hash) == Some((once, 2));
    assert EvalLines(once, 1, [PatternDef(l)], hash) == Some((once.(sequences := [q, q]), 2));
    assert EvalLines(once, 0, ks, hash) == Some((once.(sequences := [q, q]), 2));
  }

  /** Two lines joined by a `\n` split back into those two lines. */
  lemma LinesOfTwo(a: string, b: string)
    requires NoNewline(a) && NoNewline(b) && |b| > 0
    ensures Lines(a + "\n" + b) == [a, b]
  {
    LinesFromWord(a, "\n" + b, "");
    assert a + "\n" + b == a + ("\n" + b);
    assert "" + a == a;
    assert ("\n" + b)[1..] == b;
    assert LinesFrom("\n" + b, a) == [a] + LinesFrom(b, "");
    LinesFromWord(b, "", "");
    assert b + "" == b && "" + b == b;
  }

  lemma ExampleLines(text: string)
    requires text == "x\nrnd >> bd"
    ensures Lines(text) == ["x", "rnd >> bd"]
  {
    assert text == "x" + "\n" + "rnd >> bd";
    LinesOfTwo("x", "rnd >> bd");
  }

  lemma ExampleInvalid(line: string)
    requires line == "x"
    ensures Classify(line) == Invalid
  {
    assert Trim(line) == line;
  }

  lemma ExampleTrimmed(line: string)
    requires line == "rnd >> bd"
    ensures Trim(line) == line
  {
  }

  lemma ExampleNotVariable(line: string)
    requires line == "rnd >> bd"
    ensures VariableDefinition(line).None?
  {
    assert line[..3][0] == 'r' && "let"[0] == 'l';
    assert !IsPrefix("let", line);
  }

  lemma ExampleReads(line: string)
    requires line == "rnd >> bd"
    ensures PatternLine(line) == Some((Line(Pattern("rnd", [Event("bd", [])]), []), ""))
  {
    var l := Line(Pattern("rnd", [Event("bd", [])]), []);
    assert ShowLine(l) == line;
    assert IsEventName("bd");
    LineRoundTrip(l);
  }

  lemma ExamplePattern(line: string)
    requires line == "rnd >> bd"
    ensures Classify(line) == PatternDef(Line(Pattern("rnd", [Event("bd", [])]), []))
  {
    ExampleTrimmed(line);
    ExampleNotVariable(line);
    ExampleReads(line);
  }

  /** The kinds of the lines of the text `x` followed by `rnd >> bd`. */
  lemma ExampleKinds(text: string)
    requires text == "x\nrnd >> bd"
    ensures Kinds(Lines(text)) == [Invalid, PatternDef(Line(Pattern("rnd", [Event("bd", [])]), []))]
  {
    ExampleLines(text);
    ExampleInvalid(Lines(text)[0]);
    ExamplePattern(Lines(text)[1]);
  }

  /** The same on the text `x` followed by `rnd >> bd`: one sequence after
      the first evaluation, two after the second. */
  lemma ReevaluateExample(text: string, hash: MainEvent -> nat)
    requires text == "x\nrnd >> bd"
    ensures Evaluate(New(), Some(text), hash).Some?
    ensures |Evaluate(New(), Some(text), hash).value.sequences| == 1
    ensures Evaluate(Evaluate(New(), Some(text), hash).value, Some(text), hash).Some?
    ensures |Evaluate(Evaluate(New(), Some(text), hash).value, Some(text), hash).value.sequences| == 2
  {
    ExampleKinds(text);
    var l := Line(Pattern("rnd", [Event("bd", [])]), []);
    assert ParamGens(l.clauses, false).Some?;
    ReevaluateDuplicates(New(), l, hash);
  }

  /** The evaluation loop as evidently intended: a line that does not
      parse keeps its slot, holding a silent placeholder when there is no
      sequence there yet, so that slot `i` always belongs to the `i`-th
      pattern line. */
  function EvalLineFixed(s: Scheduler, slot: nat, k: LineKind, hash: MainEvent -> nat): Option<(Scheduler, nat)> {
    if k.Invalid? && slot >= |s.sequences| then
      Some((s.(sequences := s.sequences + [Placeholder()]), slot + 1))
    else EvalLine(s, slot, k, hash)
  }

  /** A sequence that plays only rests: a random choice over no events. */
  function Placeholder(): (q: EventSequence)
    ensures WellFormed(q)
  {
    EventSequence(map[], RandomGen([]), map[])
  }

  /** The placeholder hands out a rest on every call and never changes. */
  lemma PlaceholderRests(d: Draw, absSin: real -> real)
    ensures GetNextEvent(Placeholder(), d, absSin) == Some(Emitted("~", map[], Placeholder()))
  {
  }

  function EvalLinesFixed(s: Scheduler, slot: nat, ks: seq<LineKind>, hash: MainEvent -> nat): Option<(Scheduler, nat)>
    decreases |ks|
  {
    if |ks| == 0 then Some((s, slot))
    else
      match EvalLineFixed(s, slot, ks[0], hash)
      case None => None
      case Some((s', slot')) => EvalLinesFixed(s', slot', ks[1..], hash)
  }

  function EvaluateLinesFixed(s: Scheduler, ks: seq<LineKind>, hash: MainEvent -> nat): Option<Scheduler> {
    match EvalLinesFixed(s, 0, ks, hash)
    case None => None
    case Some((s', slot)) =>
      Some(if slot < |s'.sequences| then s'.(sequences := s'.sequences[..slot]) else s')
  }

  function EvaluateFixed(s: Scheduler, input: Option<string>, hash: MainEvent -> nat): (r: Option<Scheduler>)
    ensures input.None? ==> r == Some(s)
  {
    match input
    case None => Some(s)
    case Some(text) => EvaluateLinesFixed(s, Kinds(Lines(text)), hash)
  }

  /** In the corrected loop every slot counted has a sequence. */
  lemma {:induction false} EvalLinesFixedSlots(s: Scheduler, slot: nat, ks: seq<LineKind>, hash: MainEvent -> nat)
    requires slot <= |s.sequences|
    requires EvalLinesFixed(s, slot, ks, hash).Some?
    ensures var (r, n) := EvalLinesFixed(s, slot, ks, hash).value;
            n == slot + SlotCount(ks) && n <= |r.sequences|
            && r.(sequences := s.sequences, variables := s.variables) == s
    decreases |ks|
  {
    if |ks| > 0 {
      var (s', slot') := EvalLineFixed(s, slot, ks[0], hash).value;
      EvalLinesFixedSlots(s', slot', ks[1..], hash);
    }
  }

  /** After the corrected `evaluate` there is exactly one sequence per
      slot, whatever was there before; so evaluating the same text again
      keeps the number of sequences. */
  lemma EvaluateFixedSlots(s: Scheduler, ks: seq<LineKind>, hash: MainEvent -> nat)
    requires EvaluateLinesFixed(s, ks, hash).Some?
    ensures |EvaluateLinesFixed(s, ks, hash).value.sequences| == SlotCount(ks)
    ensures EvaluateLinesFixed(s, ks, hash).value.(sequences := s.sequences, variables := s.variables) == s
  {
    EvalLinesFixedSlots(s, 0, ks, hash);
  }

  /** The corrected loop leaves the variables as the definitions make
      them, like the loop as written. */
  lemma {:induction false} EvalLinesFixedVariables(s: Scheduler, slot: nat, ks: seq<LineKind>, hash: MainEvent -> nat)
    requires EvalLinesFixed(s, slot, ks, hash).Some?
    ensures EvalLinesFixed(s, slot, ks, hash).value.0.variables == Defs(s.variables, ks)
    decreases |ks|
  {
    if |ks| > 0 {
      var (s', slot') := EvalLineFixed(s, slot, ks[0], hash).value;
      EvalLinesFixedVariables(s', slot', ks[1..], hash);
    }
  }

  /** In the corrected loop a counted line always puts what it makes
      into its own slot, appending when the slot is just past the end. */
  lemma EvalLineFixedEffect(s: Scheduler, slot: nat, k: LineKind, hash: MainEvent -> nat)
    requires slot <= |s.sequences|
    requires EvalLineFixed(s, slot, k, hash).Some?
    ensures var (s', slot') := EvalLineFixed(s, slot, k, hash).value;
            if k.PatternDef? || k.Invalid? then
              && slot' == slot + 1
              && SlotAfter(s.sequences, slot, k, hash).Some?
              && s'.sequences == Put(s.sequences, slot, SlotAfter(s.sequences, slot, k, hash).value)
            else slot' == slot && s'.sequences == s.sequences
  {
  }

  /** The sequences `r` keep `prev` below `slot` and hold, in every slot
      from `slot` on that the lines `cs` take, what the line makes of
      `prev`. */
  ghost predicate FilledFrom(prev: seq<EventSequence>, r: seq<EventSequence>, slot: nat, cs: seq<LineKind>, hash: MainEvent -> nat) {
    slot + |cs| <= |r|
    && (forall j :: 0 <= j < slot && j < |prev| ==> r[j] == prev[j])
    && (forall j :: slot <= j < slot + |cs| ==> Some(r[j]) == SlotAfter(prev, j, cs[j - slot], hash))
  }

  /** The sequences after a counted line in the corrected loop. */
  function Put(prev: seq<EventSequence>, slot: nat, v: EventSequence): (mid: seq<EventSequence>)
    requires slot <= |prev|
    ensures |mid| == if slot < |prev| then |prev| else slot + 1
    ensures mid[slot] == v
    ensures forall j :: 0 <= j < |prev| && j != slot ==> mid[j] == prev[j]
  {
    if slot < |prev| then prev[slot := v] else prev + [v]
  }

  /** The slots after `slot` hold the same whether their lines are read
      over `prev` or over `Put(prev, slot, v)`. */
  lemma FilledAbove(prev: seq<EventSequence>, v: EventSequence, r: seq<EventSequence>,
                    slot: nat, c: LineKind, cs: seq<LineKind>, hash: MainEvent -> nat)
    requires slot <= |prev| && slot + 1 + |cs| <= |r|
    requires forall j :: slot + 1 <= j < slot + 1 + |cs| ==> Some(r[j]) == SlotAfter(Put(prev, slot, v), j, cs[j - (slot + 1)], hash)
    ensures forall j :: slot < j < slot + 1 + |cs| ==> Some(r[j]) == SlotAfter(prev, j, ([c] + cs)[j - slot], hash)
  {
    var mid := Put(prev, slot, v);
    forall j | slot < j < slot + 1 + |cs|
      ensures Some(r[j]) == SlotAfter(prev, j, ([c] + cs)[j - slot], hash)
    {
      assert ([c] + cs)[j - slot] == cs[j - (slot + 1)];
      assert j < |prev| ==> mid[j] == prev[j];
    }
  }

  /** The step of `EvalLinesFixedContents` for a counted line. */
  lemma FilledStep(prev: seq<EventSequence>, v: EventSequence, r: seq<EventSequence>,
                   slot: nat, c: LineKind, cs: seq<LineKind>, hash: MainEvent -> nat)
    requires slot <= |prev| && SlotAfter(prev, slot, c, hash) == Some(v)
    requires FilledFrom(Put(prev, slot, v), r, slot + 1, cs, hash)
    ensures FilledFrom(prev, r, slot, [c] + cs, hash)
  {
    var mid := Put(prev, slot, v);
    assert r[slot] == mid[slot];
    FilledAbove(prev, v, r, slot, c, cs, hash);
  }

  /** In the corrected loop, the slots from `slot` on hold what their
      lines make of what was there, and those before keep theirs. */
  lemma {:induction false} EvalLinesFixedContents(s: Scheduler, slot: nat, ks: seq<LineKind>, hash: MainEvent -> nat)
    requires slot <= |s.sequences|
    requires EvalLinesFixed(s, slot, ks, hash).Some?
    ensures EvalLinesFixed(s, slot, ks, hash).value.1 == slot + |Counted(ks)|
    ensures FilledFrom(s.sequences, EvalLinesFixed(s, slot, ks, hash).value.0.sequences, slot, Counted(ks), hash)
    decreases |ks|
  {
    if |ks| == 0 {
      assert Counted(ks) == [];
    } else {
      var (s', slot') := EvalLineFixed(s, slot, ks[0], hash).value;
      EvalLineFixedEffect(s, slot, ks[0], hash);
      EvalLinesFixedContents(s', slot', ks[1..], hash);
      var r := EvalLinesFixed(s, slot, ks, hash).value.0.sequences;
      assert EvalLinesFixed(s, slot, ks, hash) == EvalLinesFixed(s', slot', ks[1..], hash);
      if ks[0].PatternDef? || ks[0].Invalid? {
        assert Counted(ks) == [ks[0]] + Counted(ks[1..]);
        FilledStep(s.sequences, SlotAfter(s.sequences, slot, ks[0], hash).value, r, slot, ks[0], Counted(ks[1..]), hash);
      } else {
        assert Counted(ks) == Counted(ks[1..]);
      }
    }
  }

  /** What the corrected `evaluate` leaves, for every input: one sequence
      per slot, slot `i` holding what the `i`-th counted line makes of
      the sequence that was there (a pattern line updates it or builds a
      new one; an invalid line keeps it, or leaves a placeholder); and the
      variables the definitions give. */
  lemma EvaluateFixedContents(s: Scheduler, ks: seq<LineKind>, hash: MainEvent -> nat)
    requires EvaluateLinesFixed(s, ks, hash).Some?
    ensures |EvaluateLinesFixed(s, ks, hash).value.sequences| == |Counted(ks)|
    ensures var r := EvaluateLinesFixed(s, ks, hash).value;
            forall i :: 0 <= i < |r.sequences| ==> Some(r.sequences[i]) == SlotAfter(s.sequences, i, Counted(ks)[i], hash)
    ensures EvaluateLinesFixed(s, ks, hash).value.variables == Defs(s.variables, ks)
  {
    var (r, n) := EvalLinesFixed(s, 0, ks, hash).value;
    EvalLinesFixedContents(s, 0, ks, hash);
    EvalLinesFixedVariables(s, 0, ks, hash);
    var r' := EvaluateLinesFixed(s, ks, hash).value;
    assert r'.sequences == if n < |r.sequences| then r.sequences[..n] else r.sequences;
  }

  /** The corrected loop on the same two lines: the pattern sits in slot 1
      where it is counted, and evaluating twice still leaves two slots. */
  lemma ReevaluateFixed(s: Scheduler, l: Line, hash: MainEvent -> nat)
    requires |s.sequences| == 0
    requires FromParsedLineAst(l, hash).Some?
    ensures EvaluateLinesFixed(s, [Invalid, PatternDef(l)], hash).Some?
    ensures EvaluateLinesFixed(s, [Invalid, PatternDef(l)], hash).value.sequences
            == [Placeholder(), FromParsedLineAst(l, hash).value]
    ensures EvaluateLinesFixed(EvaluateLinesFixed(s, [Invalid, PatternDef(l)], hash).value,
                               [Invalid, PatternDef(l)], hash).Some?
    ensures |EvaluateLinesFixed(EvaluateLinesFixed(s, [Invalid, PatternDef(l)], hash).value,
                                [Invalid, PatternDef(l)], hash).value.sequences| == 2
  {
    var ks := [Invalid, PatternDef(l)];
    assert ks[1..] == [PatternDef(l)];
    assert [PatternDef(l)][1..] == [];
    var q := FromParsedLineAst(l, hash).value;
    var half := s.(sequences := [Placeholder()]);
    assert s.sequences + [Placeholder()] == [Placeholder()];
    assert EvalLineFixed(s, 0, Invalid, hash) == Some((half, 1));
    var once := s.(sequences := [Placeholder(), q]);
    assert [Placeholder()] + [q] == [Placeholder(), q];
    assert EvalLineFixed(half, 1, PatternDef(l), hash) == Some((once, 2));
    assert EvalLinesFixed(half, 1, [PatternDef(l)], hash) == Some((once, 2));
    assert EvalLinesFixed(s, 0, ks, hash) == Some((once, 2));
    UpdateKeepsPosition(q, l, hash);
    var q2 := UpdateSequence(q, l, hash).value;
    assert once.sequences[1 := q2] == [Placeholder(), q2];
    assert EvalLineFixed(once, 1, PatternDef(l), hash) == Some((once.(sequences := [Placeholder(), q2]), 2));
    assert EvalLinesFixed(once, 1, [PatternDef(l)], hash) == Some((once.(sequences := [Placeholder(), q2]), 2));
    assert EvalLinesFixed(once, 0, ks, hash) == Some((once.(sequences := [Placeholder(), q2]), 2));
  }

  // ---------------------------------------------------------------------
  // Generating the events of one tick
  // ---------------------------------------------------------------------

  /** `TriggerData`. */
  datatype Trigger = Trigger(params: map<string, real>, timestamp: real, sampleId: string, sourceType: string)

  /** The sound source an event name selects. */
  function SourceType(name: string): string {
    if name == "sine" then "SineSynth"
    else if name == "saw" then "LFSawSynth"
    else if name == "sqr" then "LFSquareSynth"
    else "Sampler"
  }

  /** A variable stands for its event: the name is replaced, and the
      variable's parameters fill in those the event does not set. */
  function Resolve(vars: map<string, MainEvent>, name: string, params: map<string, real>): (string, map<string, real>) {
    if name in vars then (vars[name].name, vars[name].params + params) else (name, params)
  }

  /** One sequence's share of `generate_events`: its next event, resolved,
      as a trigger unless it is a rest. */
  function Fire(q: EventSequence, vars: map<string, MainEvent>, time: real, d: Draw, absSin: real -> real)
    : Option<(Option<Trigger>, EventSequence)>
  {
    match GetNextEvent(q, d, absSin)
    case None => None
    case Some(e) =>
      var (name, params) := Resolve(vars, e.name, e.params);
      Some((if name != "~" then Some(Trigger(params, time, name, SourceType(name))) else None, e.next))
  }

  function DrawAt(draws: seq<Draw>): Draw {
    if |draws| > 0 then draws[0] else Draw(0, map[])
  }

  function LaterDraws(draws: seq<Draw>): seq<Draw> {
    if |draws| > 0 then draws[1..] else []
  }

  function FireAll(qs: seq<EventSequence>, vars: map<string, MainEvent>, time: real, draws: seq<Draw>, absSin: real -> real)
    : Option<(seq<Trigger>, seq<EventSequence>)>
    decreases |qs|
  {
    if |qs| == 0 then Some(([], []))
    else
      match Fire(qs[0], vars, time, DrawAt(draws), absSin)
      case None => None
      case Some((t, q)) =>
        match FireAll(qs[1..], vars, time, LaterDraws(draws), absSin)
        case None => None
        case Some((ts, rest)) => Some(((if t.Some? then [t.value] else []) + ts, [q] + rest))
  }

  /** `Scheduler::generate_events`, one draw per sequence (missing draws
      pick 0); `None` when a generator traps. */
  function GenerateEvents(s: Scheduler, draws: seq<Draw>, absSin: real -> real): Option<(seq<Trigger>, Scheduler)> {
    match FireAll(s.sequences, s.variables, s.audioLogical + s.lookahead, draws, absSin)
    case None => None
    case Some((ts, qs)) => Some((ts, s.(sequences := qs)))
  }

  /** What one sequence contributes. A trigger comes exactly when the
      resolved name is not a rest. An event that names a variable plays
      the variable's event: its name, and its parameters wherever the
      event sets none. Any other event plays as it is. */
  lemma FireLaw(q: EventSequence, vars: map<string, MainEvent>, time: real, d: Draw, absSin: real -> real)
    requires Fire(q, vars, time, d, absSin).Some?
    ensures var e := GetNextEvent(q, d, absSin).value;
            var (t, q') := Fire(q, vars, time, d, absSin).value;
            q' == e.next
            && (t.Some? <==> (if e.name in vars then vars[e.name].name else e.name) != "~")
            && (t.Some? ==>
                  t.value.timestamp == time
                  && t.value.sourceType == SourceType(t.value.sampleId)
                  && (e.name !in vars ==> t.value.sampleId == e.name && t.value.params == e.params)
                  && (e.name in vars ==>
                        t.value.sampleId == vars[e.name].name
                        && t.value.params.Keys == vars[e.name].params.Keys + e.params.Keys
                        && (forall k :: k in e.params ==> t.value.params[k] == e.params[k])
                        && (forall k :: k in vars[e.name].params && k !in e.params ==>
                              t.value.params[k] == vars[e.name].params[k])))
  {
  }

  /** A tick yields at most one trigger per sequence, in sequence order,
      each stamped with the same time and never a rest; every sequence
      stays in its place and stays well formed. */
  lemma {:induction false} FireAllLaw(qs: seq<EventSequence>, vars: map<string, MainEvent>, time: real,
                                      draws: seq<Draw>, absSin: real -> real)
    requires forall i :: 0 <= i < |qs| ==> WellFormed(qs[i])
    requires FireAll(qs, vars, time, draws, absSin).Some?
    ensures var (ts, qs') := FireAll(qs, vars, time, draws, absSin).value;
            |qs'| == |qs| && |ts| <= |qs|
            && (forall i :: 0 <= i < |qs'| ==> WellFormed(qs'[i]))
            && (forall i :: 0 <= i < |ts| ==>
                  ts[i].timestamp == time && ts[i].sampleId != "~"
                  && ts[i].sourceType == SourceType(ts[i].sampleId))
    decreases |qs|
  {
    if |qs| > 0 {
      var (t, q) := Fire(qs[0], vars, time, DrawAt(draws), absSin).value;
      GetNextEventLaw(qs[0], DrawAt(draws), absSin);
      FireAllLaw(qs[1..], vars, time, LaterDraws(draws), absSin);
      var (ts, rest) := FireAll(qs[1..], vars, time, LaterDraws(draws), absSin).value;
      var (all, qs') := FireAll(qs, vars, time, draws, absSin).value;
      assert qs' == [q] + rest;
      assert all == (if t.Some? then [t.value] else []) + ts;
      forall i | 0 <= i < |all|
        ensures all[i].timestamp == time && all[i].sampleId != "~"
                && all[i].sourceType == SourceType(all[i].sampleId)
      {
        if t.Some? && i > 0 {
          assert all[i] == ts[i - 1];
        }
      }
      forall i | 0 <= i < |qs'|
        ensures WellFormed(qs'[i])
      {
        if i > 0 {
          assert qs'[i] == rest[i - 1];
        }
      }
    }
  }

  /** A tick leaves everything but the sequences alone and stamps every
      trigger with the logical audio time plus the lookahead. */
  lemma GenerateEventsLaw(s: Scheduler, draws: seq<Draw>, absSin: real -> real)
    requires forall i :: 0 <= i < |s.sequences| ==> WellFormed(s.sequences[i])
    requires GenerateEvents(s, draws, absSin).Some?
    ensures var (ts, r) := GenerateEvents(s, draws, absSin).value;
            r.(sequences := s.sequences) == s
            && |r.sequences| == |s.sequences| && |ts| <= |s.sequences|
            && (forall i :: 0 <= i < |r.sequences| ==> WellFormed(r.sequences[i]))
            && (forall i :: 0 <= i < |ts| ==>
                  ts[i].timestamp == s.audioLogical + s.lookahead && ts[i].sampleId != "~")
  {
    FireAllLaw(s.sequences, s.variables, s.audioLogical + s.lookahead, draws, absSin);
  }

  /** A scheduler without sequences generates nothing and stays as it is. */
  lemma NewGeneratesNothing(draws: seq<Draw>, absSin: real -> real)
    ensures GenerateEvents(New(), draws, absSin) == Some(([], New()))
  {
  }

  // ---------------------------------------------------------------------
  // Time keeping
  // ---------------------------------------------------------------------

  /** `Scheduler::compensate_time`: the delay until the next call, and the
      logical clocks advanced by one tick. */
  function CompensateTime(s: Scheduler, browserTimestamp: real): (r: (real, Scheduler))
    ensures browserTimestamp + r.0 == r.1.browserLogical
    ensures r.1.browserLogical - s.browserLogical == s.tempo
    ensures (r.1.audioLogical - s.audioLogical) * 1000.0 == s.tempo
    ensures r.1.(audioLogical := s.audioLogical, browserLogical := s.browserLogical) == s
  {
    var next := s.tempo - (browserTimestamp - s.browserLogical);
    (next, s.(audioLogical := s.audioLogical + s.tempo / 1000.0,
              browserLogical := s.browserLogical + s.tempo))
  }

  /** Successive ticks at the given browser times: the delays returned. */
  function Ticks(s: Scheduler, stamps: seq<real>): (seq<real>, Scheduler)
    decreases |stamps|
  {
    if |stamps| == 0 then ([], s)
    else
      var (d, s') := CompensateTime(s, stamps[0]);
      var (ds, r) := Ticks(s', stamps[1..]);
      ([d] + ds, r)
  }

  /** Drift does not accumulate: after `n` ticks the logical clocks are
      exactly `n` tempos on, however late each call came, and they stay in
      step. */
  lemma {:induction false} TicksDoNotDrift(s: Scheduler, stamps: seq<real>)
    ensures var (ds, r) := Ticks(s, stamps);
            |ds| == |stamps|
            && r.browserLogical == s.browserLogical + |stamps| as real * s.tempo
            && (r.audioLogical - s.audioLogical) * 1000.0 == |stamps| as real * s.tempo
            && r.(audioLogical := s.audioLogical, browserLogical := s.browserLogical) == s
            && (InStep(s) ==> InStep(r))
    decreases |stamps|
  {
    if |stamps| > 0 {
      var (d, s') := CompensateTime(s, stamps[0]);
      TicksDoNotDrift(s', stamps[1..]);
      var n := |stamps| as real;
      assert (n - 1.0) * s.tempo + s.tempo == n * s.tempo;
    }
  }

  /** Each delay aims the next call at the next logical tick: the `i`-th
      call, made at `stamps[i]`, asks to be called again exactly `i + 1`
      tempos after the starting clock. */
  lemma {:induction false} TicksAimAtTicks(s: Scheduler, stamps: seq<real>)
    ensures var (ds, _) := Ticks(s, stamps);
            |ds| == |stamps|
            && forall i :: 0 <= i < |stamps| ==>
                 stamps[i] + ds[i] == s.browserLogical + (i + 1) as real * s.tempo
    decreases |stamps|
  {
    if |stamps| > 0 {
      var (d, s') := CompensateTime(s, stamps[0]);
      TicksAimAtTicks(s', stamps[1..]);
      var (ds, r) := Ticks(s, stamps);
      var (rest, _) := Ticks(s', stamps[1..]);
      assert ds == [d] + rest;
      forall i | 0 <= i < |stamps|
        ensures stamps[i] + ds[i] == s.browserLogical + (i + 1) as real * s.tempo
      {
        if i > 0 {
          assert stamps[i] == stamps[1..][i - 1] && ds[i] == rest[i - 1];
        }
      }
    }
  }

  /** `Scheduler::start`: both clocks start at the given times. */
  function Start(s: Scheduler, audioTimestamp: real, browserTimestamp: real): (r: Scheduler)
    ensures InStep(r)
    ensures r.audioLogical == audioTimestamp && r.browserLogical == browserTimestamp
    ensures r.(audioStart := s.audioStart, browserStart := s.browserStart,
               audioLogical := s.audioLogical, browserLogical := s.browserLogical) == s
  {
    s.(audioStart := audioTimestamp, browserStart := browserTimestamp,
       audioLogical := audioTimestamp, browserLogical := browserTimestamp)
  }

  /** `Scheduler::set_tempo`: changes the tick and nothing else; the clocks
      stay in step. */
  function SetTempo(s: Scheduler, tempo: real): (r: Scheduler)
    ensures r.tempo == tempo && r.(tempo := s.tempo) == s
    ensures InStep(s) ==> InStep(r)
  {
    s.(tempo := tempo)
  }
}
