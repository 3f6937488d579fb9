/** The pattern-language grammar of ruffbox-pattern/src/parser.rs, written
    against the semantics of the nom 5 combinators it is built from. Every
    parser takes the input text and returns either the parsed value with the
    unconsumed rest of the input, or `None` for nom's recoverable
    `Err::Error`. All the combinators used are the `complete` variants, and
    none of them raises an unrecoverable `Failure` in this grammar, so `alt`
    simply takes the first alternative that succeeds and `separated_list`
    stops, giving back the separator, as soon as no element follows it. */
module Parser {
  import opened Common

  /** A parse result: the value and the remaining input. */
  type Parsed<T> = Option<(T, string)>

  ////////////////////////////////////////////////////////////////////////////
  // Characters and tags
  ////////////////////////////////////////////////////////////////////////////

  predicate IsDigit(c: char) {
    '0' <= c <= '9'
  }

  /** nom's `alphanumeric1` on `&str`: ASCII letters and digits. */
  predicate IsAlphanumeric(c: char) {
    'a' <= c <= 'z' || 'A' <= c <= 'Z' || IsDigit(c)
  }

  predicate IsPrefix(t: string, s: string) {
    |t| <= |s| && s[..|t|] == t
  }

  /** `tag(t)`: consumes `t` when the input starts with it. */
  function Tag(t: string, s: string): (r: Option<string>)
    ensures r.Some? <==> IsPrefix(t, s)
    ensures r.Some? ==> s == t + r.value
  {
    if IsPrefix(t, s) then
      assert s == t + s[|t|..];
      Some(s[|t|..])
    else None
  }

  /** `alt((tag(t0), tag(t1), ...))`: the first tag, in order, that the
      input starts with. */
  function FirstTag(tags: seq<string>, s: string): (r: Parsed<string>)
    ensures r.Some? ==> r.value.0 in tags && s == r.value.0 + r.value.1
  {
    if |tags| == 0 then None
    else if IsPrefix(tags[0], s) then
      assert s == tags[0] + s[|tags[0]|..];
      Some((tags[0], s[|tags[0]|..]))
    else FirstTag(tags[1..], s)
  }

  /** The alternative fails exactly when no tag is a prefix of the input. */
  lemma {:induction false} FirstTagFails(tags: seq<string>, s: string)
    ensures FirstTag(tags, s).None? <==> forall t :: t in tags ==> !IsPrefix(t, s)
    decreases |tags|
  {
    if |tags| > 0 && !IsPrefix(tags[0], s) {
      FirstTagFails(tags[1..], s);
      assert forall t :: t in tags ==> t == tags[0] || t in tags[1..];
    }
  }

  /** No tag of the list is a prefix of another one, so at most one of them
      can match and the order of the alternatives does not matter. */
  ghost predicate PrefixFree(tags: seq<string>) {
    forall i, j :: 0 <= i < |tags| && 0 <= j < |tags| && i != j ==> !IsPrefix(tags[i], tags[j])
  }

  /** In a prefix-free list of tags, the alternative picks exactly the tag
      the input was written with. */
  lemma {:induction false} FirstTagFindsWrittenTag(tags: seq<string>, n: string, rest: string)
    requires PrefixFree(tags) && n in tags
    ensures FirstTag(tags, n + rest) == Some((n, rest))
    decreases |tags|
  {
    var s := n + rest;
    assert s[..|n|] == n && s[|n|..] == rest;
    if tags[0] != n {
      var j :| 0 <= j < |tags| && tags[j] == n;
      assert PrefixFree(tags[1..]) by {
        forall i, k | 0 <= i < |tags[1..]| && 0 <= k < |tags[1..]| && i != k
          ensures !IsPrefix(tags[1..][i], tags[1..][k])
        {
          assert tags[1..][i] == tags[i + 1] && tags[1..][k] == tags[k + 1];
        }
      }
      assert n in tags[1..] by {
        assert j != 0 && tags[1..][j - 1] == n;
      }
      FirstTagFindsWrittenTag(tags[1..], n, rest);
    }
  }

  /** The classes of characters the grammar reads runs of. */
  datatype CharClass = Digits | Alphanumerics

  predicate InClass(c: char, k: CharClass) {
    match k
    case Digits => IsDigit(c)
    case Alphanumerics => IsAlphanumeric(c)
  }

  /** Length of the longest prefix of `s` whose characters are in `k`. */
  function RunLength(s: string, k: CharClass): (n: nat)
    ensures n <= |s|
    ensures n < |s| ==> !InClass(s[n], k)
  {
    if |s| == 0 || !InClass(s[0], k) then 0
    else 1 + RunLength(s[1..], k)
  }

  /** Every character of the run is in the class. */
  lemma {:induction false} RunLengthInClass(s: string, k: CharClass)
    ensures forall i :: 0 <= i < RunLength(s, k) ==> InClass(s[i], k)
    decreases |s|
  {
    if |s| > 0 && InClass(s[0], k) {
      RunLengthInClass(s[1..], k);
      forall i | 1 <= i < RunLength(s, k)
        ensures InClass(s[i], k)
      {
        assert s[i] == s[1..][i - 1];
      }
    }
  }

  /** The run over a word of the class followed by a character outside it
      is the whole word. */
  lemma {:induction false} RunLengthOfWord(w: string, rest: string, k: CharClass)
    requires forall i :: 0 <= i < |w| ==> InClass(w[i], k)
    requires rest == [] || !InClass(rest[0], k)
    ensures RunLength(w + rest, k) == |w|
    decreases |w|
  {
    if |w| > 0 {
      assert (w + rest)[1..] == w[1..] + rest;
      RunLengthOfWord(w[1..], rest, k);
    } else {
      assert w + rest == rest;
    }
  }

  /** `alphanumeric1`: a non-empty run of letters and digits. */
  function Alphanumeric1(s: string): (r: Parsed<string>)
    ensures r.Some? ==> |r.value.0| > 0 && s == r.value.0 + r.value.1
    ensures r.Some? ==> r.value.1 == [] || !IsAlphanumeric(r.value.1[0])
    ensures r.None? <==> s == [] || !IsAlphanumeric(s[0])
  {
    var n := RunLength(s, Alphanumerics);
    if n == 0 then None
    else
      assert s == s[..n] + s[n..];
      Some((s[..n], s[n..]))
  }

  /** The word `alphanumeric1` reads is made of letters and digits only. */
  lemma {:induction false} Alphanumeric1Word(s: string)
    ensures Alphanumeric1(s).Some? ==> forall i :: 0 <= i < |Alphanumeric1(s).value.0| ==> IsAlphanumeric(Alphanumeric1(s).value.0[i])
  {
    RunLengthInClass(s, Alphanumerics);
  }

  /** `many0(char(' '))`: drops every leading space. */
  function Spaces0(s: string): (r: string)
    ensures |r| <= |s|
    ensures r == [] || r[0] != ' '
    decreases |s|
  {
    if |s| > 0 && s[0] == ' ' then Spaces0(s[1..]) else s
  }

  /** `many0(char(' '))` leaves a suffix of its input, and everything it
      drops is a space. */
  lemma {:induction false} Spaces0Dropped(s: string)
    ensures IsSuffix(Spaces0(s), s)
    ensures forall i :: 0 <= i < |s| - |Spaces0(s)| ==> s[i] == ' '
    decreases |s|
  {
    if |s| > 0 && s[0] == ' ' {
      Spaces0Dropped(s[1..]);
      var r := Spaces0(s);
      assert s[|s| - |r|..] == s[1..][|s| - 1 - |r|..];
      forall i | 1 <= i < |s| - |r|
        ensures s[i] == ' '
      {
        assert s[i] == s[1..][i - 1];
      }
    }
  }

  /** `many1(char(' '))`: as `many0`, but at least one space is needed. */
  function Spaces1(s: string): (r: Option<string>)
    ensures r.Some? <==> |s| > 0 && s[0] == ' '
    ensures r.Some? ==> r.value == Spaces0(s) && |r.value| < |s|
  {
    if |s| > 0 && s[0] == ' ' then Some(Spaces0(s)) else None
  }

  ////////////////////////////////////////////////////////////////////////////
  // Numbers
  ////////////////////////////////////////////////////////////////////////////

  /** The lexical form of a number as nom's `float` reads it: an optional
      sign, the digits before the point and the digits after it. */
  datatype Literal = Literal(negative: bool, whole: string, fraction: string)

  /** The value of a decimal digit; only digits ever reach it. */
  function DigitValue(c: char): nat {
    if IsDigit(c) then (c as int - '0' as int) as nat else 0
  }

  function DigitsValue(d: string): nat {
    if |d| == 0 then 0 else DigitsValue(d[..|d| - 1]) * 10 + DigitValue(d[|d| - 1])
  }

  function Pow10(n: nat): (p: nat)
    ensures p >= 1
  {
    if n == 0 then 1 else 10 * Pow10(n - 1)
  }

  ghost predicate AllDigits(d: string) {
    forall i :: 0 <= i < |d| ==> IsDigit(d[i])
  }

  /** A literal as the parser produces it: digits only, and at least one
      digit on either side of the point. */
  ghost predicate ValidLiteral(l: Literal) {
    AllDigits(l.whole) && AllDigits(l.fraction) && (|l.whole| > 0 || |l.fraction| > 0)
  }

  /** The number a literal denotes. The source converts it to `f32`; the
      model keeps the exact value. */
  function Value(l: Literal): real {
    var magnitude := DigitsValue(l.whole) as real + DigitsValue(l.fraction) as real / Pow10(|l.fraction|) as real;
    if l.negative then -magnitude else magnitude
  }

  /** nom's `float`: an optional `+` or `-`, then digits with an optional
      point and more digits; at least one digit is required. */
  function Float(s: string): (r: Parsed<Literal>)
    ensures r.Some? ==> |r.value.1| < |s|
    ensures r.Some? ==> r.value.1 == [] || !IsDigit(r.value.1[0])
  {
    if |s| > 0 && (s[0] == '+' || s[0] == '-') then Unsigned(s[1..], s[0] == '-')
    else Unsigned(s, false)
  }

  /** The part of `float` after the sign. */
  function Unsigned(a: string, negative: bool): (r: Parsed<Literal>)
    ensures r.Some? ==> r.value.0.negative == negative && |r.value.1| < |a|
    ensures r.Some? ==> r.value.1 == [] || !IsDigit(r.value.1[0])
  {
    var w := RunLength(a, Digits);
    var b := a[w..];
    if |b| > 0 && b[0] == '.' then
      var f := RunLength(b[1..], Digits);
      if w == 0 && f == 0 then None
      else Some((Literal(negative, a[..w], b[1..][..f]), b[1..][f..]))
    else if w == 0 then None
    else Some((Literal(negative, a[..w], []), b))
  }

  /** `float` reads a well-formed literal, made of digits with at least
      one of them, and only consumes: what it leaves is a suffix of its
      input. */
  lemma {:induction false} FloatSound(s: string)
    ensures Float(s).Some? ==> ValidLiteral(Float(s).value.0) && IsSuffix(Float(s).value.1, s)
  {
    if |s| > 0 && (s[0] == '+' || s[0] == '-') {
      UnsignedSound(s[1..], s[0] == '-');
      if Float(s).Some? {
        SuffixTransitive(Float(s).value.1, s[1..], s);
      }
    } else {
      UnsignedSound(s, false);
    }
  }

  lemma {:induction false} UnsignedSound(a: string, negative: bool)
    ensures Unsigned(a, negative).Some? ==> ValidLiteral(Unsigned(a, negative).value.0)
    ensures Unsigned(a, negative).Some? ==> IsSuffix(Unsigned(a, negative).value.1, a)
  {
    var w := RunLength(a, Digits);
    var b := a[w..];
    RunLengthInClass(a, Digits);
    assert AllDigits(a[..w]);
    if |b| > 0 && b[0] == '.' {
      var f := RunLength(b[1..], Digits);
      RunLengthInClass(b[1..], Digits);
      assert AllDigits(b[1..][..f]);
      assert b[1..][f..] == a[w + 1 + f..];
    }
  }

  /** The digits of a literal, with its point, followed by `t`. */
  function DigitsThen(l: Literal, t: string): string {
    l.whole + (if |l.fraction| > 0 then "." + (l.fraction + t) else t)
  }

  /** The text a literal is written as, followed by `t`. */
  function LiteralThen(l: Literal, t: string): string {
    if l.negative then "-" + DigitsThen(l, t) else DigitsThen(l, t)
  }

  /** Nothing that could extend a number follows. */
  predicate EndsNumber(t: string) {
    t == [] || !(IsDigit(t[0]) || t[0] == '.')
  }

  /** `float` reads back a written literal exactly, and leaves what follows
      it. */
  lemma {:induction false} FloatRoundTrip(l: Literal, t: string)
    requires ValidLiteral(l) && EndsNumber(t)
    ensures Float(LiteralThen(l, t)) == Some((l, t))
  {
    UnsignedRoundTrip(l, t);
    if l.negative {
      FloatAfterMinus(DigitsThen(l, t));
    } else {
      DigitsStart(l, t);
      FloatWithoutSign(DigitsThen(l, t));
    }
  }

  lemma {:induction false} DigitsStart(l: Literal, t: string)
    requires ValidLiteral(l)
    ensures |DigitsThen(l, t)| > 0
    ensures IsDigit(DigitsThen(l, t)[0]) || DigitsThen(l, t)[0] == '.'
  {
  }

  lemma {:induction false} FloatAfterMinus(a: string)
    ensures Float("-" + a) == Unsigned(a, true)
  {
    assert ("-" + a)[1..] == a;
  }

  lemma {:induction false} FloatWithoutSign(a: string)
    requires |a| > 0 && (IsDigit(a[0]) || a[0] == '.')
    ensures Float(a) == Unsigned(a, false)
  {
  }

  lemma {:induction false} UnsignedRoundTrip(l: Literal, t: string)
    requires ValidLiteral(l) && EndsNumber(t)
    ensures Unsigned(DigitsThen(l, t), l.negative) == Some((l, t))
  {
    var x: string := if |l.fraction| > 0 then "." + (l.fraction + t) else t;
    var a := DigitsThen(l, t);
    RunLengthOfWord(l.whole, x, Digits);
    assert a[..|l.whole|] == l.whole;
    assert a[|l.whole|..] == x;
    if |l.fraction| > 0 {
      FractionReads(l.fraction, t);
    }
  }

  lemma {:induction false} FractionReads(f: string, t: string)
    requires |f| > 0 && AllDigits(f) && EndsNumber(t)
    ensures RunLength(("." + (f + t))[1..], Digits) == |f|
    ensures ("." + (f + t))[1..][..|f|] == f && ("." + (f + t))[1..][|f|..] == t
  {
    assert ("." + (f + t))[1..] == f + t;
    RunLengthOfWord(f, t, Digits);
  }

  ////////////////////////////////////////////////////////////////////////////
  // Parameters and events
  ////////////////////////////////////////////////////////////////////////////

  /** The sixteen names `param_name` accepts, in the order it tries them. */
  const ParamNames: seq<string> :=
    ["atk", "dec", "del", "dur", "freq", "lvl", "lp-freq", "lp-q",
     "lp-dist", "pw", "rate", "start", "rel", "rev", "pos", "sus"]

  /** `param_name`: one of the fixed names, as a prefix of the input. */
  function ParamName(s: string): (r: Parsed<string>)
    ensures r.Some? ==> r.value.0 in ParamNames && s == r.value.0 + r.value.1
  {
    FirstTag(ParamNames, s)
  }

  /** `param_name` fails exactly when the input starts with none of the
      names. */
  lemma {:induction false} ParamNameFails(s: string)
    ensures ParamName(s).None? <==> forall n :: n in ParamNames ==> !IsPrefix(n, s)
  {
    FirstTagFails(ParamNames, s);
  }

  datatype Param = Param(name: string, value: Literal)

  /** `param`: a name, `=`, and a number. */
  function ParseParam(s: string): (r: Parsed<Param>)
    ensures r.Some? ==> |r.value.1| < |s|
    ensures r.Some? ==> r.value.0.name in ParamNames
  {
    match ParamName(s)
    case None => None
    case Some((name, s1)) =>
      match Tag("=", s1)
      case None => None
      case Some(s2) =>
        match Float(s2)
        case None => None
        case Some((v, s3)) => Some((Param(name, v), s3))
  }

  /** `param_list`: parameters separated by `;`. It never fails: with no
      parameter in front it returns the empty list and the whole input. */
  function ParamList(s: string): (r: Parsed<seq<Param>>)
    ensures r.Some? && |r.value.1| <= |s|
  {
    match ParseParam(s)
    case None => Some(([], s))
    case Some((p, s1)) =>
      var more := MoreParams(s1);
      Some(([p] + more.0, more.1))
  }

  /** The rest of a `param_list`: each further parameter is introduced by a
      `;`; a `;` not followed by a parameter is left unconsumed. */
  function MoreParams(s: string): (r: (seq<Param>, string))
    ensures |r.1| <= |s|
    decreases |s|
  {
    match Tag(";", s)
    case None => ([], s)
    case Some(s1) =>
      match ParseParam(s1)
      case None => ([], s)
      case Some((p, s2)) =>
        var more := MoreParams(s2);
        ([p] + more.0, more.1)
  }

  /** The names `event_name` produces: a rest `~`, a run of letters and
      digits, or `_`. */
  ghost predicate IsEventName(n: string) {
    n == "~" || n == "_" || (|n| > 0 && forall i :: 0 <= i < |n| ==> IsAlphanumeric(n[i]))
  }

  /** `event_name`: `~`, else `alphanumeric1`, else `_`. */
  function EventName(s: string): (r: Parsed<string>)
    ensures r.Some? ==> |r.value.1| < |s|
  {
    match Tag("~", s)
    case Some(rest) => Some(("~", rest))
    case None =>
      match Alphanumeric1(s)
      case Some(word) => Some(word)
      case None =>
        match Tag("_", s)
        case Some(rest) => Some(("_", rest))
        case None => None
  }

  /** Whatever `event_name` reads is one of the three forms of name. */
  lemma {:induction false} EventNameSound(s: string)
    ensures EventName(s).Some? ==> IsEventName(EventName(s).value.0)
  {
    Alphanumeric1Word(s);
  }

  datatype Event = Event(name: string, params: seq<Param>)

  /** `event_with_param`: a name, `;`, and a parameter list. */
  function EventWithParam(s: string): (r: Parsed<Event>)
    ensures r.Some? ==> |r.value.1| < |s|
  {
    match EventName(s)
    case None => None
    case Some((name, s1)) =>
      match Tag(";", s1)
      case None => None
      case Some(s2) =>
        var (params, s3) := ParamList(s2).value;
        Some((Event(name, params), s3))
  }

  /** `event_without_param`: a bare name with no parameters. */
  function EventWithoutParam(s: string): (r: Parsed<Event>)
    ensures r.Some? ==> |r.value.1| < |s|
  {
    match EventName(s)
    case None => None
    case Some((name, s1)) => Some((Event(name, []), s1))
  }

  /** `event`: the form with parameters first, the bare name otherwise. */
  function ParseEvent(s: string): (r: Parsed<Event>)
    ensures r.Some? ==> |r.value.1| < |s|
  {
    match EventWithParam(s)
    case Some(e) => Some(e)
    case None => EventWithoutParam(s)
  }

  /** `event_pattern`: events separated by one or more spaces. */
  function EventPattern(s: string): (r: Parsed<seq<Event>>)
    ensures r.Some? && |r.value.1| <= |s|
  {
    match ParseEvent(s)
    case None => Some(([], s))
    case Some((e, s1)) =>
      var more := MoreEvents(s1);
      Some(([e] + more.0, more.1))
  }

  function MoreEvents(s: string): (r: (seq<Event>, string))
    ensures |r.1| <= |s|
    decreases |s|
  {
    match Spaces1(s)
    case None => ([], s)
    case Some(s1) =>
      match ParseEvent(s1)
      case None => ([], s)
      case Some((e, s2)) =>
        var more := MoreEvents(s2);
        ([e] + more.0, more.1)
  }

  ////////////////////////////////////////////////////////////////////////////
  // Lines
  ////////////////////////////////////////////////////////////////////////////

  datatype Variable = Variable(name: string, event: Event)

  /** `variable_definiton`: `let`, one space, a name of letters and digits,
      `=`, and an event. */
  function VariableDefinition(s: string): (r: Parsed<Variable>)
  {
    match Tag("let", s)
    case None => None
    case Some(s1) =>
      match Tag(" ", s1)
      case None => None
      case Some(s2) =>
        match Alphanumeric1(s2)
        case None => None
        case Some((name, s3)) =>
          match Tag("=", s3)
          case None => None
          case Some(s4) =>
            match ParseEvent(s4)
            case None => None
            case Some((e, s5)) => Some((Variable(name, e), s5))
  }

  /** `func_name`: the parameter functions (`param_func_name`) tried before
      the pattern functions (`pattern_func_name`); the nested `alt`s try the
      five tags in this order. */
  const FuncNames: seq<string> := ["bounce", "ramp", "rnd", "cyc", "learn"]

  function FuncName(s: string): (r: Parsed<string>)
    ensures r.Some? ==> r.value.0 in FuncNames && s == r.value.0 + r.value.1
  {
    FirstTag(FuncNames, s)
  }

  /** `delimited(many0(char(' ')), tag(">>"), many0(char(' ')))`. */
  function Arrow(s: string): (r: Option<string>)
    ensures r.Some? ==> |r.value| < |s|
  {
    match Tag(">>", Spaces0(s))
    case None => None
    case Some(s1) => Some(Spaces0(s1))
  }

  datatype Pattern = Pattern(func: string, events: seq<Event>)

  /** `pattern_func`: a function name, `>>`, and an event pattern. */
  function PatternFunc(s: string): (r: Parsed<Pattern>)
  {
    match FuncName(s)
    case None => None
    case Some((func, s1)) =>
      match Arrow(s1)
      case None => None
      case Some(s2) =>
        var (events, s3) := EventPattern(s2).value;
        Some((Pattern(func, events), s3))
  }

  /** `param_func_header`: `@` and a parameter name. */
  function ParamFuncHeader(s: string): (r: Parsed<string>)
    ensures r.Some? ==> |r.value.1| < |s|
  {
    match Tag("@", s)
    case None => None
    case Some(s1) => ParamName(s1)
  }

  /** `param_func`: a header, `:` with optional spaces around it, and a
      function name. */
  function ParamFunc(s: string): (r: Parsed<(string, string)>)
    ensures r.Some? ==> |r.value.1| < |s|
  {
    match ParamFuncHeader(s)
    case None => None
    case Some((param, s1)) =>
      match Tag(":", Spaces0(s1))
      case None => None
      case Some(s2) =>
        match FuncName(Spaces0(s2))
        case None => None
        case Some((func, s3)) => Some(((param, func), s3))
  }

  /** One `@param: func >> values` clause. */
  datatype Clause = Clause(param: string, func: string, values: seq<Literal>)

  /** `param_func_with_values`: a `param_func`, `>>`, and numbers separated
      by one or more spaces. */
  function ParamFuncWithValues(s: string): (r: Parsed<Clause>)
    ensures r.Some? ==> |r.value.1| < |s|
  {
    match ParamFunc(s)
    case None => None
    case Some(((param, func), s1)) =>
      match Arrow(s1)
      case None => None
      case Some(s2) =>
        var (values, s3) := FloatList(s2);
        Some((Clause(param, func, values), s3))
  }

  /** `separated_list(many1(char(' ')), float)`. */
  function FloatList(s: string): (r: (seq<Literal>, string))
    ensures |r.1| <= |s|
  {
    match Float(s)
    case None => ([], s)
    case Some((v, s1)) =>
      var more := MoreFloats(s1);
      ([v] + more.0, more.1)
  }

  function MoreFloats(s: string): (r: (seq<Literal>, string))
    ensures |r.1| <= |s|
    decreases |s|
  {
    match Spaces1(s)
    case None => ([], s)
    case Some(s1) =>
      match Float(s1)
      case None => ([], s)
      case Some((v, s2)) =>
        var more := MoreFloats(s2);
        ([v] + more.0, more.1)
  }

  datatype Line = Line(pattern: Pattern, clauses: seq<Clause>)

  /** `pattern_line`: a `pattern_func`, optional spaces, and clauses
      separated by one or more spaces. Like every parser here it succeeds
      without consuming the whole input and returns what is left. */
  function PatternLine(s: string): (r: Parsed<Line>)
  {
    match PatternFunc(s)
    case None => None
    case Some((pattern, s1)) =>
      var (clauses, s2) := ClauseList(Spaces0(s1));
      Some((Line(pattern, clauses), s2))
  }

  /** `separated_list(many1(char(' ')), param_func_with_values)`. */
  function ClauseList(s: string): (r: (seq<Clause>, string))
  {
    match ParamFuncWithValues(s)
    case None => ([], s)
    case Some((c, s1)) =>
      var more := MoreClauses(s1);
      ([c] + more.0, more.1)
  }

  function MoreClauses(s: string): (r: (seq<Clause>, string))
    decreases |s|
  {
    match Spaces1(s)
    case None => ([], s)
    case Some(s1) =>
      match ParamFuncWithValues(s1)
      case None => ([], s)
      case Some((c, s2)) =>
        var more := MoreClauses(s2);
        ([c] + more.0, more.1)
  }

  ////////////////////////////////////////////////////////////////////////////
  // Writing the syntax back
  ////////////////////////////////////////////////////////////////////////////

  /** Parameters written one after another with `;` between neighbours,
      then `t`. Every printer takes the text that follows it, so that
      reading a printed item back leaves exactly that text. */
  function ParamsThen(xs: seq<Param>, t: string): string {
    if |xs| == 0 then t else ParamThen(xs[0], MoreParamsThen(xs[1..], t))
  }

  /** Parameters, each preceded by `;`, then `t`. */
  function MoreParamsThen(xs: seq<Param>, t: string): string {
    if |xs| == 0 then t else ";" + ParamThen(xs[0], MoreParamsThen(xs[1..], t))
  }

  /** Events with one space between neighbours, then `t`. */
  function EventsThen(xs: seq<Event>, t: string): string {
    if |xs| == 0 then t else EventThen(xs[0], MoreEventsThen(xs[1..], t))
  }

  /** Events, each preceded by a space, then `t`. */
  function MoreEventsThen(xs: seq<Event>, t: string): string {
    if |xs| == 0 then t else " " + EventThen(xs[0], MoreEventsThen(xs[1..], t))
  }

  /** Numbers with one space between neighbours, then `t`. */
  function FloatsThen(xs: seq<Literal>, t: string): string {
    if |xs| == 0 then t else LiteralThen(xs[0], MoreFloatsThen(xs[1..], t))
  }

  /** Numbers, each preceded by a space, then `t`. */
  function MoreFloatsThen(xs: seq<Literal>, t: string): string {
    if |xs| == 0 then t else " " + LiteralThen(xs[0], MoreFloatsThen(xs[1..], t))
  }

  /** Clauses with one space between neighbours, then `t`. */
  function ClausesThen(xs: seq<Clause>, t: string): string {
    if |xs| == 0 then t else ClauseThen(xs[0], MoreClausesThen(xs[1..], t))
  }

  /** Clauses, each preceded by a space, then `t`. */
  function MoreClausesThen(xs: seq<Clause>, t: string): string {
    if |xs| == 0 then t else " " + ClauseThen(xs[0], MoreClausesThen(xs[1..], t))
  }

  function ParamThen(p: Param, t: string): string {
    p.name + ("=" + LiteralThen(p.value, t))
  }

  function EventThen(e: Event, t: string): string {
    e.name + (if |e.params| > 0 then ";" + ParamsThen(e.params, t) else t)
  }

  function PatternThen(p: Pattern, t: string): string {
    p.func + (" >> " + EventsThen(p.events, t))
  }

  function ClauseThen(c: Clause, t: string): string {
    "@" + (c.param + (": " + (c.func + (" >> " + FloatsThen(c.values, t)))))
  }

  function LineThen(l: Line, t: string): string {
    PatternThen(l.pattern, MoreClausesThen(l.clauses, t))
  }

  function VariableThen(v: Variable, t: string): string {
    "let" + (" " + (v.name + ("=" + EventThen(v.event, t))))
  }

  /** The text of a line: `func >> events @param: func >> values ...`. */
  function ShowLine(l: Line): string {
    LineThen(l, "")
  }

  /** The text of a definition: `let name=event`. */
  function ShowVariable(v: Variable): string {
    VariableThen(v, "")
  }

  ghost predicate ValidParam(p: Param) {
    p.name in ParamNames && ValidLiteral(p.value)
  }

  ghost predicate ValidEvent(e: Event) {
    IsEventName(e.name) && forall i :: 0 <= i < |e.params| ==> ValidParam(e.params[i])
  }

  /** A clause the grammar can read back when another clause follows it:
      with no values, the spaces before the next `@` would be taken by the
      `>>` delimiter and the separator would be missing. */
  ghost predicate ValidClause(c: Clause) {
    c.param in ParamNames && c.func in FuncNames && |c.values| > 0
    && forall i :: 0 <= i < |c.values| ==> ValidLiteral(c.values[i])
  }

  ghost predicate ValidLine(l: Line) {
    l.pattern.func in FuncNames
    && (forall i :: 0 <= i < |l.pattern.events| ==> ValidEvent(l.pattern.events[i]))
    && (forall i :: 0 <= i < |l.clauses| ==> ValidClause(l.clauses[i]))
  }

  ghost predicate ValidVariable(v: Variable) {
    |v.name| > 0 && (forall i :: 0 <= i < |v.name| ==> IsAlphanumeric(v.name[i]))
    && ValidEvent(v.event)
  }

  /** What may follow a single item: the end, a space, or a clause's `@`. */
  predicate EndsItem(t: string) {
    t == [] || t[0] == ' ' || t[0] == '@'
  }

  /** What may follow a list: after optional spaces, the end or an `@`. */
  predicate EndsList(t: string) {
    var u := Spaces0(t);
    u == [] || u[0] == '@'
  }

  lemma {:induction false} EndsListEndsItem(t: string)
    requires EndsList(t)
    ensures EndsItem(t) && EndsItem(Spaces0(t))
  {
    var u := Spaces0(t);
    if t != [] && t[0] != ' ' {
      Spaces0Dropped(t);
      assert |u| == |t|;
      assert u == t;
    }
  }

  ////////////////////////////////////////////////////////////////////////////
  // Round trips
  ////////////////////////////////////////////////////////////////////////////

  /** `a` and `b` differ at some position both reach, at `k` or later, so
      neither is a prefix of the other. */
  predicate ApartFrom(a: string, b: string, k: nat)
    decreases |a| - k
  {
    k < |a| && k < |b| && (a[k] != b[k] || ApartFrom(a, b, k + 1))
  }

  lemma {:induction false} ApartNotPrefix(a: string, b: string, k: nat)
    requires ApartFrom(a, b, k)
    requires a[..k] == b[..k]
    ensures !IsPrefix(a, b) && !IsPrefix(b, a)
    decreases |a| - k
  {
    if a[k] == b[k] {
      assert a[..k + 1] == a[..k] + [a[k]];
      assert b[..k + 1] == b[..k] + [b[k]];
      ApartNotPrefix(a, b, k + 1);
    }
  }

  /** Tags pairwise apart make a prefix-free list. */
  lemma {:induction false} PairwiseApart(tags: seq<string>)
    requires forall i, j :: 0 <= i < j < |tags| ==> ApartFrom(tags[i], tags[j], 0)
    ensures PrefixFree(tags)
  {
    forall i, j | 0 <= i < |tags| && 0 <= j < |tags| && i != j
      ensures !IsPrefix(tags[i], tags[j])
    {
      if i < j {
        ApartNotPrefix(tags[i], tags[j], 0);
      } else {
        ApartNotPrefix(tags[j], tags[i], 0);
      }
    }
  }

  lemma {:induction false} ParamNamesPrefixFree()
    ensures PrefixFree(ParamNames)
  {
    var n := ParamNames;
    forall i, j | 0 <= i < j < |n|
      ensures ApartFrom(n[i], n[j], 0)
    {
    }
    PairwiseApart(n);
  }

  lemma {:induction false} FuncNamesPrefixFree()
    ensures PrefixFree(FuncNames)
  {
    var n := FuncNames;
    forall i, j | 0 <= i < j < |n|
      ensures ApartFrom(n[i], n[j], 0)
    {
    }
    PairwiseApart(n);
  }

  /** A leading space makes no difference to `many0(char(' '))`. */
  lemma {:induction false} Spaces0Space(x: string)
    ensures Spaces0(" " + x) == Spaces0(x)
  {
    assert (" " + x)[1..] == x;
  }

  /** Text that does not start with a space is left alone. */
  lemma {:induction false} Spaces0Stays(x: string)
    requires x == [] || x[0] != ' '
    ensures Spaces0(x) == x
  {
  }

  /** `many1(char(' '))` takes exactly one space in front of a non-space. */
  lemma {:induction false} SpaceThen(x: string)
    requires |x| > 0 && x[0] != ' '
    ensures Spaces1(" " + x) == Some(x)
  {
    Spaces0Space(x);
    Spaces0Stays(x);
  }

  /** The written arrow ` >> ` is read by the arrow parser, which also eats
      any spaces after it. */
  lemma {:induction false} ArrowReads(v: string)
    ensures Arrow(" >> " + v) == Some(Spaces0(v))
  {
    assert " >> " + v == " " + (">> " + v);
    Spaces0Space(">> " + v);
    Spaces0Stays(">> " + v);
    assert ">> " + v == ">>" + (" " + v);
    Spaces0Space(v);
  }

  lemma {:induction false} ParamRoundTrip(p: Param, t: string)
    requires ValidParam(p) && EndsNumber(t)
    ensures ParseParam(ParamThen(p, t)) == Some((p, t))
  {
    ParamNamesPrefixFree();
    FirstTagFindsWrittenTag(ParamNames, p.name, "=" + LiteralThen(p.value, t));
    FloatRoundTrip(p.value, t);
  }

  /** What may follow a parameter list: nothing that extends a number and
      no `;`. */
  predicate EndsParams(t: string) {
    EndsNumber(t) && (t == [] || t[0] != ';')
  }

  lemma {:induction false} MoreParamsStep(p: Param, rest: string)
    requires ValidParam(p) && EndsNumber(rest)
    ensures MoreParams(";" + ParamThen(p, rest)) == ([p] + MoreParams(rest).0, MoreParams(rest).1)
  {
    ParamRoundTrip(p, rest);
  }

  lemma {:induction false} MoreParamsRoundTrip(ps: seq<Param>, t: string)
    requires forall i :: 0 <= i < |ps| ==> ValidParam(ps[i])
    requires EndsParams(t)
    ensures MoreParams(MoreParamsThen(ps, t)) == (ps, t)
    decreases |ps|
  {
    if |ps| > 0 {
      MoreParamsStep(ps[0], MoreParamsThen(ps[1..], t));
      MoreParamsRoundTrip(ps[1..], t);
      assert [ps[0]] + ps[1..] == ps;
    }
  }

  /** `param_list` reads back a written, non-empty list of parameters. */
  lemma {:induction false} ParamListRoundTrip(ps: seq<Param>, t: string)
    requires |ps| > 0 && forall i :: 0 <= i < |ps| ==> ValidParam(ps[i])
    requires EndsParams(t)
    ensures ParamList(ParamsThen(ps, t)) == Some((ps, t))
  {
    ParamRoundTrip(ps[0], MoreParamsThen(ps[1..], t));
    MoreParamsRoundTrip(ps[1..], t);
    assert [ps[0]] + ps[1..] == ps;
  }

  /** `alphanumeric1` reads back a word of letters and digits. */
  lemma {:induction false} WordReads(w: string, x: string)
    requires |w| > 0 && forall i :: 0 <= i < |w| ==> IsAlphanumeric(w[i])
    requires x == [] || !IsAlphanumeric(x[0])
    ensures Alphanumeric1(w + x) == Some((w, x))
  {
    RunLengthOfWord(w, x, Alphanumerics);
  }

  lemma {:induction false} EventNameRoundTrip(n: string, t: string)
    requires IsEventName(n) && (t == [] || !IsAlphanumeric(t[0]))
    ensures EventName(n + t) == Some((n, t))
  {
    if n != "~" && n != "_" {
      WordReads(n, t);
    }
  }

  /** No event, and so no event with parameters, starts at the end of the
      input, at a space or at an `@`. */
  lemma {:induction false} NoEventAt(u: string)
    requires EndsItem(u)
    ensures EventName(u) == None && ParseEvent(u) == None
  {
  }

  /** `event` reads back a written event. */
  lemma {:induction false} EventRoundTrip(e: Event, t: string)
    requires ValidEvent(e) && EndsItem(t)
    ensures ParseEvent(EventThen(e, t)) == Some((e, t))
  {
    if |e.params| == 0 {
      EventNameRoundTrip(e.name, t);
    } else {
      EventWithParamsRoundTrip(e, t);
    }
  }

  lemma {:induction false} EventWithParamsRoundTrip(e: Event, t: string)
    requires ValidEvent(e) && EndsItem(t) && |e.params| > 0
    ensures ParseEvent(EventThen(e, t)) == Some((e, t))
  {
    var ps := ParamsThen(e.params, t);
    EventNameRoundTrip(e.name, ";" + ps);
    ParamListRoundTrip(e.params, t);
  }

  /** A written event starts with its name's first character, never a
      space. */
  lemma {:induction false} EventStart(e: Event, rest: string)
    requires ValidEvent(e)
    ensures |EventThen(e, rest)| > 0 && EventThen(e, rest)[0] != ' '
  {
    assert |e.name| > 0;
    assert EventThen(e, rest)[0] == e.name[0];
  }

  lemma {:induction false} MoreEventsStep(e: Event, rest: string)
    requires ValidEvent(e) && EndsItem(rest)
    ensures MoreEvents(" " + EventThen(e, rest)) == ([e] + MoreEvents(rest).0, MoreEvents(rest).1)
  {
    EventStart(e, rest);
    EventRoundTrip(e, rest);
    SpaceThen(EventThen(e, rest));
  }

  /** The separator is given back when no event follows it. */
  lemma {:induction false} MoreEventsEnd(t: string)
    requires EndsList(t)
    ensures MoreEvents(t) == ([], t)
  {
    EndsListEndsItem(t);
    NoEventAt(Spaces0(t));
  }

  lemma {:induction false} MoreEventsCons(es: seq<Event>, t: string)
    requires |es| > 0 && ValidEvent(es[0]) && EndsItem(t)
    ensures MoreEvents(MoreEventsThen(es, t))
         == ([es[0]] + MoreEvents(MoreEventsThen(es[1..], t)).0, MoreEvents(MoreEventsThen(es[1..], t)).1)
  {
    MoreEventsStep(es[0], MoreEventsThen(es[1..], t));
  }

  lemma {:induction false} MoreEventsRoundTrip(es: seq<Event>, t: string)
    requires forall i :: 0 <= i < |es| ==> ValidEvent(es[i])
    requires EndsList(t)
    ensures MoreEvents(MoreEventsThen(es, t)) == (es, t)
    decreases |es|
  {
    if |es| == 0 {
      MoreEventsEnd(t);
    } else {
      EndsListEndsItem(t);
      MoreEventsCons(es, t);
      MoreEventsRoundTrip(es[1..], t);
      assert [es[0]] + es[1..] == es;
    }
  }

  /** `event_pattern` reads back a written sequence of events. */
  lemma {:induction false} EventPatternRoundTrip(es: seq<Event>, t: string)
    requires forall i :: 0 <= i < |es| ==> ValidEvent(es[i])
    requires EndsList(t)
    ensures EventPattern(EventsThen(es, t)) == Some((es, t))
  {
    EndsListEndsItem(t);
    if |es| == 0 {
      NoEventAt(t);
    } else {
      EventRoundTrip(es[0], MoreEventsThen(es[1..], t));
      MoreEventsRoundTrip(es[1..], t);
      assert [es[0]] + es[1..] == es;
    }
  }

  /** No number starts at the end of the input, at a space or at an `@`. */
  lemma {:induction false} NoFloatAt(u: string)
    requires EndsItem(u)
    ensures Float(u) == None
  {
  }

  /** A written number never starts with a space. */
  lemma {:induction false} LiteralStart(v: Literal, rest: string)
    requires ValidLiteral(v)
    ensures |LiteralThen(v, rest)| > 0 && LiteralThen(v, rest)[0] != ' '
  {
    DigitsStart(v, rest);
  }

  lemma {:induction false} MoreFloatsStep(v: Literal, rest: string)
    requires ValidLiteral(v) && EndsItem(rest)
    ensures MoreFloats(" " + LiteralThen(v, rest)) == ([v] + MoreFloats(rest).0, MoreFloats(rest).1)
  {
    LiteralStart(v, rest);
    FloatRoundTrip(v, rest);
    SpaceThen(LiteralThen(v, rest));
  }

  /** The separator is given back when no number follows it. */
  lemma {:induction false} MoreFloatsEnd(t: string)
    requires EndsList(t)
    ensures MoreFloats(t) == ([], t)
  {
    EndsListEndsItem(t);
    NoFloatAt(Spaces0(t));
  }

  lemma {:induction false} MoreFloatsCons(vs: seq<Literal>, t: string)
    requires |vs| > 0 && ValidLiteral(vs[0]) && EndsItem(t)
    ensures MoreFloats(MoreFloatsThen(vs, t))
         == ([vs[0]] + MoreFloats(MoreFloatsThen(vs[1..], t)).0, MoreFloats(MoreFloatsThen(vs[1..], t)).1)
  {
    MoreFloatsStep(vs[0], MoreFloatsThen(vs[1..], t));
  }

  lemma {:induction false} MoreFloatsRoundTrip(vs: seq<Literal>, t: string)
    requires forall i :: 0 <= i < |vs| ==> ValidLiteral(vs[i])
    requires EndsList(t)
    ensures MoreFloats(MoreFloatsThen(vs, t)) == (vs, t)
    decreases |vs|
  {
    if |vs| == 0 {
      MoreFloatsEnd(t);
    } else {
      EndsListEndsItem(t);
      MoreFloatsCons(vs, t);
      MoreFloatsRoundTrip(vs[1..], t);
      assert [vs[0]] + vs[1..] == vs;
    }
  }

  /** The number list of a clause reads back a written, non-empty list. */
  lemma {:induction false} FloatListRoundTrip(vs: seq<Literal>, t: string)
    requires |vs| > 0 && forall i :: 0 <= i < |vs| ==> ValidLiteral(vs[i])
    requires EndsList(t)
    ensures FloatList(FloatsThen(vs, t)) == (vs, t)
  {
    EndsListEndsItem(t);
    FloatRoundTrip(vs[0], MoreFloatsThen(vs[1..], t));
    MoreFloatsRoundTrip(vs[1..], t);
    assert [vs[0]] + vs[1..] == vs;
  }

  lemma {:induction false} HeaderRoundTrip(param: string, y: string)
    requires param in ParamNames
    ensures ParamFuncHeader("@" + (param + y)) == Some((param, y))
  {
    ParamNamesPrefixFree();
    FirstTagFindsWrittenTag(ParamNames, param, y);
  }

  /** No function name is empty or starts with a space. */
  lemma {:induction false} FuncNameStart(func: string, x: string)
    requires func in FuncNames
    ensures |func + x| > 0 && (func + x)[0] != ' '
  {
  }

  lemma {:induction false} ColonReads(y: string)
    requires |y| > 0 && y[0] != ' '
    ensures Tag(":", Spaces0(": " + y)) == Some(" " + y)
    ensures Spaces0(" " + y) == y
  {
    assert ": " + y == ":" + (" " + y);
    Spaces0Stays(":" + (" " + y));
    Spaces0Space(y);
    Spaces0Stays(y);
  }

  /** `param_func` reads back `@param: func`. */
  lemma {:induction false} ParamFuncRoundTrip(param: string, func: string, x: string)
    requires param in ParamNames && func in FuncNames
    ensures ParamFunc("@" + (param + (": " + (func + x)))) == Some(((param, func), x))
  {
    HeaderRoundTrip(param, ": " + (func + x));
    FuncNameStart(func, x);
    ColonReads(func + x);
    FuncNamesPrefixFree();
    FirstTagFindsWrittenTag(FuncNames, func, x);
  }

  lemma {:induction false} ParamFuncWithValuesReads(s: string, param: string, func: string, v: string)
    requires ParamFunc(s) == Some(((param, func), " >> " + v))
    ensures ParamFuncWithValues(s) == Some((Clause(param, func, FloatList(Spaces0(v)).0), FloatList(Spaces0(v)).1))
  {
    ArrowReads(v);
  }

  /** A written, non-empty list of numbers never starts with a space. */
  lemma {:induction false} FloatsStart(vs: seq<Literal>, t: string)
    requires |vs| > 0 && ValidLiteral(vs[0])
    ensures |FloatsThen(vs, t)| > 0 && FloatsThen(vs, t)[0] != ' '
  {
    LiteralStart(vs[0], MoreFloatsThen(vs[1..], t));
  }

  /** `param_func_with_values` reads back a written clause. */
  lemma {:induction false} ClauseRoundTrip(c: Clause, t: string)
    requires ValidClause(c) && EndsList(t)
    ensures ParamFuncWithValues(ClauseThen(c, t)) == Some((c, t))
  {
    var v := FloatsThen(c.values, t);
    ParamFuncRoundTrip(c.param, c.func, " >> " + v);
    ParamFuncWithValuesReads(ClauseThen(c, t), c.param, c.func, v);
    FloatsStart(c.values, t);
    Spaces0Stays(v);
    FloatListRoundTrip(c.values, t);
  }

  /** Written clauses, each preceded by a space, end a list, and the spaces
      in front of them are all that `many0(char(' '))` takes. */
  lemma {:induction false} ClausesEndList(cs: seq<Clause>, t: string)
    requires t == []
    ensures EndsList(MoreClausesThen(cs, t))
    ensures Spaces0(MoreClausesThen(cs, t)) == ClausesThen(cs, t)
  {
    var j := ClausesThen(cs, t);
    if |cs| == 0 {
      Spaces0Stays(t);
    } else {
      assert j[0] == '@';
      Spaces0Space(j);
      Spaces0Stays(j);
    }
  }

  lemma {:induction false} MoreClausesStep(c: Clause, rest: string)
    requires ValidClause(c) && EndsList(rest)
    ensures MoreClauses(" " + ClauseThen(c, rest)) == ([c] + MoreClauses(rest).0, MoreClauses(rest).1)
  {
    ClauseRoundTrip(c, rest);
    SpaceThen(ClauseThen(c, rest));
  }

  lemma {:induction false} MoreClausesCons(cs: seq<Clause>)
    requires |cs| > 0 && ValidClause(cs[0])
    ensures MoreClauses(MoreClausesThen(cs, ""))
         == ([cs[0]] + MoreClauses(MoreClausesThen(cs[1..], "")).0, MoreClauses(MoreClausesThen(cs[1..], "")).1)
  {
    ClausesEndList(cs[1..], "");
    MoreClausesStep(cs[0], MoreClausesThen(cs[1..], ""));
  }

  lemma {:induction false} MoreClausesRoundTrip(cs: seq<Clause>)
    requires forall i :: 0 <= i < |cs| ==> ValidClause(cs[i])
    ensures MoreClauses(MoreClausesThen(cs, "")) == (cs, "")
    decreases |cs|
  {
    if |cs| > 0 {
      MoreClausesCons(cs);
      MoreClausesRoundTrip(cs[1..]);
      assert [cs[0]] + cs[1..] == cs;
    }
  }

  /** The clause list reads back written clauses to the end of the line. */
  lemma {:induction false} ClauseListRoundTrip(cs: seq<Clause>)
    requires forall i :: 0 <= i < |cs| ==> ValidClause(cs[i])
    ensures ClauseList(ClausesThen(cs, "")) == (cs, "")
  {
    if |cs| > 0 {
      ClauseListStep(cs);
      MoreClausesRoundTrip(cs[1..]);
      assert [cs[0]] + cs[1..] == cs;
    }
  }

  lemma {:induction false} ClauseListStep(cs: seq<Clause>)
    requires |cs| > 0 && ValidClause(cs[0])
    ensures ClauseList(ClausesThen(cs, ""))
         == ([cs[0]] + MoreClauses(MoreClausesThen(cs[1..], "")).0, MoreClauses(MoreClausesThen(cs[1..], "")).1)
  {
    ClausesEndList(cs[1..], "");
    ClauseRoundTrip(cs[0], MoreClausesThen(cs[1..], ""));
  }

  lemma {:induction false} PatternFuncReads(p: Pattern, c: string)
    requires p.func in FuncNames
    ensures PatternFunc(PatternThen(p, c))
         == Some((Pattern(p.func, EventPattern(Spaces0(EventsThen(p.events, c))).value.0),
                  EventPattern(Spaces0(EventsThen(p.events, c))).value.1))
  {
    FuncNamesPrefixFree();
    var e := EventsThen(p.events, c);
    FirstTagFindsWrittenTag(FuncNames, p.func, " >> " + e);
    ArrowReads(e);
  }

  lemma {:induction false} EventsAfterArrow(es: seq<Event>, c: string)
    requires |es| > 0 && forall i :: 0 <= i < |es| ==> ValidEvent(es[i])
    requires EndsList(c)
    ensures EventPattern(Spaces0(EventsThen(es, c))) == Some((es, c))
  {
    EventsStart(es, c);
    EventPatternRoundTrip(es, c);
  }

  /** A written, non-empty list of events does not start with a space. */
  lemma {:induction false} EventsStart(es: seq<Event>, c: string)
    requires |es| > 0 && ValidEvent(es[0])
    ensures Spaces0(EventsThen(es, c)) == EventsThen(es, c)
  {
    EventStart(es[0], MoreEventsThen(es[1..], c));
    Spaces0Stays(EventsThen(es, c));
  }

  lemma {:induction false} NoEventsAfterArrow(c: string)
    requires EndsList(c)
    ensures EventPattern(Spaces0(EventsThen([], c))) == Some(([], Spaces0(c)))
  {
    EndsListEndsItem(c);
    NoEventAt(Spaces0(c));
  }

  /** `pattern_func` reads back a written pattern; with no events, the
      spaces after the arrow are consumed with it. */
  lemma {:induction false} PatternFuncRoundTrip(p: Pattern, c: string)
    requires p.func in FuncNames && forall i :: 0 <= i < |p.events| ==> ValidEvent(p.events[i])
    requires EndsList(c)
    ensures PatternFunc(PatternThen(p, c)) == Some((p, if |p.events| > 0 then c else Spaces0(c)))
  {
    PatternFuncReads(p, c);
    if |p.events| > 0 {
      EventsAfterArrow(p.events, c);
    } else {
      NoEventsAfterArrow(c);
    }
  }

  /** `pattern_line` reads back a written line, to its end. */
  lemma {:induction false} LineRoundTrip(l: Line)
    requires ValidLine(l)
    ensures PatternLine(ShowLine(l)) == Some((l, ""))
  {
    var c := MoreClausesThen(l.clauses, "");
    ClausesEndList(l.clauses, "");
    PatternFuncRoundTrip(l.pattern, c);
    LineClauses(l.clauses);
    ClauseListRoundTrip(l.clauses);
  }

  /** Whatever the arrow and `pattern_line` consume, the clauses start right
      after. */
  lemma {:induction false} LineClauses(cs: seq<Clause>)
    ensures Spaces0(Spaces0(MoreClausesThen(cs, ""))) == ClausesThen(cs, "")
  {
    ClausesEndList(cs, "");
    var j := ClausesThen(cs, "");
    assert j == [] || j[0] == '@';
    Spaces0Stays(j);
  }

  /** `variable_definiton` reads back a written definition. */
  lemma {:induction false} VariableRoundTrip(v: Variable, t: string)
    requires ValidVariable(v) && EndsItem(t)
    ensures VariableDefinition(VariableThen(v, t)) == Some((v, t))
  {
    var e := EventThen(v.event, t);
    WordReads(v.name, "=" + e);
    EventRoundTrip(v.event, t);
    VariableReads(v.name, e, v.event, t);
  }

  lemma {:induction false} VariableReads(name: string, x: string, e: Event, t: string)
    requires Alphanumeric1(name + ("=" + x)) == Some((name, "=" + x))
    requires ParseEvent(x) == Some((e, t))
    ensures VariableDefinition("let" + (" " + (name + ("=" + x)))) == Some((Variable(name, e), t))
  {
  }
}
