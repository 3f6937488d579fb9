/** The inputs the parser's own unit tests feed it (the `tests` module of
    ruffbox-pattern/src/parser.rs), each read back to the exact value the
    grammar produces. The tests only ask that parsing succeeds; here the
    result is pinned down as well, through the round trips. */
module ParserExamples {
  import opened Common
  import opened Parser

  function Rest(): Event {
    Event("~", [])
  }

  function Bare(name: string): Event {
    Event(name, [])
  }

  /** The events of `bd ~ ~ sn ~ ~`. */
  function ShortEvents(): seq<Event> {
    [Bare("bd"), Rest(), Rest(), Bare("sn"), Rest(), Rest()]
  }

  lemma ShortEventsValid()
    ensures forall i :: 0 <= i < |ShortEvents()| ==> ValidEvent(ShortEvents()[i])
  {
    assert IsEventName("bd") && IsEventName("sn");
  }

  lemma ShortPatternText(s: string)
    requires s == "rnd >> bd ~ ~ sn ~ ~"
    ensures PatternThen(Pattern("rnd", ShortEvents()), "") == s
  {
  }

  /** `pattern_func("rnd >> bd ~ ~ sn ~ ~")` succeeds and consumes all. */
  lemma PatternFuncExample(s: string)
    requires s == "rnd >> bd ~ ~ sn ~ ~"
    ensures PatternFunc(s) == Some((Pattern("rnd", ShortEvents()), ""))
  {
    ShortPatternText(s);
    ShortEventsValid();
    PatternFuncRoundTrip(Pattern("rnd", ShortEvents()), "");
  }

  /** `pattern_line` on the same text: a line without clauses. */
  lemma PatternLineWithoutParamsExample(s: string)
    requires s == "rnd >> bd ~ ~ sn ~ ~"
    ensures PatternLine(s) == Some((Line(Pattern("rnd", ShortEvents()), []), ""))
  {
    ShortPatternText(s);
    ShortEventsValid();
    LineRoundTrip(Line(Pattern("rnd", ShortEvents()), []));
  }

  /** `param_func_header("@rate")`. */
  lemma ParamFuncHeaderExample(s: string)
    requires s == "@rate"
    ensures ParamFuncHeader(s) == Some(("rate", ""))
  {
    assert s == "@" + ("rate" + "");
    HeaderRoundTrip("rate", "");
  }

  /** `variable_definiton("let xs=sine")`. */
  lemma VariableWithoutParamExample(s: string)
    requires s == "let xs=sine"
    ensures VariableDefinition(s) == Some((Variable("xs", Bare("sine")), ""))
  {
    var v := Variable("xs", Bare("sine"));
    assert ShowVariable(v) == s;
    VariableRoundTrip(v, "");
  }

  /** The events of `bd ~ ~ ~ sn ~ ~ ~`. */
  function LongEvents(): seq<Event> {
    [Bare("bd"), Rest(), Rest(), Rest(), Bare("sn"), Rest(), Rest(), Rest()]
  }

  /** A one-digit number with one decimal, such as `0.9`. */
  function Point(whole: char, fraction: char): Literal {
    Literal(false, [whole], [fraction])
  }

  /** `1.0 0.9 0.6 0.4` as literals. */
  function RateValues(): seq<Literal> {
    [Point('1', '0'), Point('0', '9'), Point('0', '6'), Point('0', '4')]
  }

  lemma RateValuesValid()
    ensures forall i :: 0 <= i < |RateValues()| ==> ValidLiteral(RateValues()[i])
  {
    assert AllDigits("0") && AllDigits("1") && AllDigits("4") && AllDigits("6") && AllDigits("9");
  }

  lemma LongEventsValid()
    ensures forall i :: 0 <= i < |LongEvents()| ==> ValidEvent(LongEvents()[i])
  {
    assert IsEventName("bd") && IsEventName("sn");
  }

  // The texts below are built piece by piece with a free tail; the literal
  // strings are joined only at the end, each join in a lemma of its own.

  lemma PointText(whole: char, fraction: char, t: string)
    ensures LiteralThen(Point(whole, fraction), t) == [whole, '.', fraction] + t
  {
  }

  lemma FirstPointText(w: char, f: char, xs: seq<Literal>, t: string)
    ensures FloatsThen([Point(w, f)] + xs, t) == [w, '.', f] + MoreFloatsThen(xs, t)
  {
    assert ([Point(w, f)] + xs)[1..] == xs;
    PointText(w, f, MoreFloatsThen(xs, t));
  }

  lemma MorePointText(w: char, f: char, xs: seq<Literal>, t: string)
    ensures MoreFloatsThen([Point(w, f)] + xs, t) == [' ', w, '.', f] + MoreFloatsThen(xs, t)
  {
    assert ([Point(w, f)] + xs)[1..] == xs;
    PointText(w, f, MoreFloatsThen(xs, t));
  }

  lemma RateValuesText(t: string)
    ensures FloatsThen(RateValues(), t) == "1.0" + (" 0.9" + (" 0.6" + (" 0.4" + t)))
  {
    var x4 := [Point('0', '4')] + [];
    var x3 := [Point('0', '6')] + x4;
    var x2 := [Point('0', '9')] + x3;
    MorePointText('0', '4', [], t);
    MorePointText('0', '6', x4, t);
    MorePointText('0', '9', x3, t);
    FirstPointText('1', '0', x2, t);
    assert RateValues() == [Point('1', '0')] + x2;
  }

  lemma RatesJoin(t: string)
    ensures " >> " + ("1.0" + (" 0.9" + (" 0.6" + (" 0.4" + t)))) == " >> 1.0 0.9 0.6 0.4" + t
  {
  }

  lemma RateHeadJoin(x: string)
    ensures "@" + ("rate" + (": " + x)) == "@rate: " + x
  {
  }

  lemma RateClauseText(func: string, t: string)
    ensures ClauseThen(Clause("rate", func, RateValues()), t) == "@rate: " + (func + (" >> 1.0 0.9 0.6 0.4" + t))
  {
    RateValuesText(t);
    RatesJoin(t);
    RateHeadJoin(func + (" >> 1.0 0.9 0.6 0.4" + t));
  }

  lemma ParamFuncJoin(t: string)
    ensures "@rate: " + ("rnd" + (" >> 1.0 0.9 0.6 0.4" + t)) == "@rate: rnd >> 1.0 0.9 0.6 0.4" + t
  {
  }

  /** `param_func_with_values("@rate: rnd >> 1.0 0.9 0.6 0.4")`. */
  lemma ParamFuncExample(s: string)
    requires s == "@rate: rnd >> 1.0 0.9 0.6 0.4"
    ensures ParamFuncWithValues(s) == Some((Clause("rate", "rnd", RateValues()), ""))
  {
    var c := Clause("rate", "rnd", RateValues());
    RateClauseText("rnd", "");
    ParamFuncJoin("");
    assert s + "" == s;
    RateValuesValid();
    assert ValidClause(c);
    ClauseRoundTrip(c, "");
  }

  lemma EventsCons(e: Event, xs: seq<Event>, t: string)
    ensures EventsThen([e] + xs, t) == EventThen(e, MoreEventsThen(xs, t))
    ensures MoreEventsThen([e] + xs, t) == " " + EventThen(e, MoreEventsThen(xs, t))
  {
    assert ([e] + xs)[1..] == xs;
  }

  lemma LongEventsText(t: string)
    ensures EventsThen(LongEvents(), t)
         == "bd" + (" " + ("~" + (" " + ("~" + (" " + ("~" + (" " + ("sn" + (" " + ("~" + (" " + ("~" + (" " + ("~" + t))))))))))))))
  {
    var e8 := [Rest()] + [];
    var e7 := [Rest()] + e8;
    var e6 := [Rest()] + e7;
    var e5 := [Bare("sn")] + e6;
    var e4 := [Rest()] + e5;
    var e3 := [Rest()] + e4;
    var e2 := [Rest()] + e3;
    EventsCons(Rest(), [], t);
    EventsCons(Rest(), e8, t);
    EventsCons(Rest(), e7, t);
    EventsCons(Bare("sn"), e6, t);
    EventsCons(Rest(), e5, t);
    EventsCons(Rest(), e4, t);
    EventsCons(Rest(), e3, t);
    EventsCons(Bare("bd"), e2, t);
    assert LongEvents() == [Bare("bd")] + e2;
  }

  lemma LongPatternJoin(t: string)
    ensures "rnd" + (" >> " + ("bd" + (" " + ("~" + (" " + ("~" + (" " + ("~" + (" " + ("sn" + (" " + ("~" + (" " + ("~" + (" " + ("~" + t))))))))))))))))
         == "rnd >> bd ~ ~ ~ sn ~ ~ ~" + t
  {
  }

  lemma LongPatternText(t: string)
    ensures PatternThen(Pattern("rnd", LongEvents()), t) == "rnd >> bd ~ ~ ~ sn ~ ~ ~" + t
  {
    LongEventsText(t);
    LongPatternJoin(t);
  }

  lemma Regroup(a: string, b: string, t: string)
    ensures a + (b + t) == (a + b) + t
  {
  }

  lemma CycClauseJoin(t: string)
    ensures "@rate: " + ("cyc" + (" >> 1.0 0.9 0.6 0.4" + t)) == "@rate: cyc >> 1.0 0.9 0.6 0.4" + t
  {
  }

  lemma ClauseTailJoin(t: string)
    ensures " " + ("@rate: " + ("cyc" + (" >> 1.0 0.9 0.6 0.4" + t))) == " @rate: cyc >> 1.0 0.9 0.6 0.4" + t
  {
    CycClauseJoin(t);
    Regroup(" ", "@rate: cyc >> 1.0 0.9 0.6 0.4", t);
  }

  lemma OneClauseText(c: Clause, t: string)
    ensures MoreClausesThen([c], t) == " " + ClauseThen(c, t)
  {
    assert [c][1..] == [];
  }

  lemma OneParamLineJoin(s: string)
    requires s == "rnd >> bd ~ ~ ~ sn ~ ~ ~ @rate: cyc >> 1.0 0.9 0.6 0.4"
    ensures s == "rnd >> bd ~ ~ ~ sn ~ ~ ~" + " @rate: cyc >> 1.0 0.9 0.6 0.4"
  {
  }

  lemma OneParamLineText(s: string)
    requires s == "rnd >> bd ~ ~ ~ sn ~ ~ ~ @rate: cyc >> 1.0 0.9 0.6 0.4"
    ensures ShowLine(Line(Pattern("rnd", LongEvents()), [Clause("rate", "cyc", RateValues())])) == s
  {
    var c := Clause("rate", "cyc", RateValues());
    RateClauseText("cyc", "");
    var u := MoreClausesThen([c], "");
    OneClauseText(c, "");
    ClauseTailJoin("");
    assert u == " @rate: cyc >> 1.0 0.9 0.6 0.4" + "";
    assert u == " @rate: cyc >> 1.0 0.9 0.6 0.4";
    LongPatternText(u);
    OneParamLineJoin(s);
  }

  /** `pattern_line("rnd >> bd ~ ~ ~ sn ~ ~ ~ @rate: cyc >> 1.0 0.9 0.6 0.4")`:
      the pattern and one clause with four values, consuming everything. */
  lemma PatternLineWithOneParamExample(s: string)
    requires s == "rnd >> bd ~ ~ ~ sn ~ ~ ~ @rate: cyc >> 1.0 0.9 0.6 0.4"
    ensures PatternLine(s) == Some((Line(Pattern("rnd", LongEvents()), [Clause("rate", "cyc", RateValues())]), ""))
  {
    var l := Line(Pattern("rnd", LongEvents()), [Clause("rate", "cyc", RateValues())]);
    OneParamLineText(s);
    LongEventsValid();
    RateValuesValid();
    assert ValidClause(l.clauses[0]);
    LineRoundTrip(l);
  }

  lemma ParamVariableText(s: string)
    requires s == "let xs=sine;lvl=0.0"
    ensures ShowVariable(Variable("xs", Event("sine", [Param("lvl", Point('0', '0'))]))) == s
  {
    PointText('0', '0', "");
  }

  /** `variable_definiton("let xs=sine;lvl=0.0")`: the event carries the
      parameter. */
  lemma VariableWithParamExample(s: string)
    requires s == "let xs=sine;lvl=0.0"
    ensures VariableDefinition(s) == Some((Variable("xs", Event("sine", [Param("lvl", Point('0', '0'))])), ""))
  {
    var v := Variable("xs", Event("sine", [Param("lvl", Point('0', '0'))]));
    ParamVariableText(s);
    assert AllDigits("0");
    assert ValidParam(v.event.params[0]);
    VariableRoundTrip(v, "");
  }
}
