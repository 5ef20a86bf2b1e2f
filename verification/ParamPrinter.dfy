/** Parsing undoes printing: names and default flags come back in order. */
module ParamPrinter {
  import opened Runs
  import opened Scanner
  import opened ParamList

  // --- what a parameter list looks like ------------------------------------

  /** JavaScript white space and line terminators, by code point. */
  predicate BlankChar(c: char) {
    var u := c as int;
    || 9 <= u <= 13 || u == 32 || u == 0xA0 || u == 0x1680 || 0x2000 <= u <= 0x200A || u == 0x2028 || u == 0x2029
    || u == 0x202F || u == 0x205F || u == 0x3000 || u == 0xFEFF
  }

  predicate Blank(s: string) {
    forall c | c in s :: BlankChar(c)
  }

  /** ASCII letters, underscore and dollar. */
  predicate Letter(c: char) {
    65 <= c as int <= 90 || 97 <= c as int <= 122 || c as int == 95 || c as int == 36
  }

  predicate Identifier(s: string) {
    s != "" && Letter(s[0]) && forall c | c in s :: Letter(c) || 48 <= c as int <= 57
  }

  /** What can stand between two commas. */
  datatype Formal =
    | Named(before: string, name: string, after: string, default: Option<string>)
    | Rest(before: string, rest: string)
    | Other(before: string, text: string)
    | Nothing(before: string)

  function Core(f: Formal): string {
    match f
    case Named(_, name, after, default) => name + (after + if default.Some? then "=" + default.value else "")
    case Rest(_, rest) => "..." + rest
    case Other(_, text) => text
    case Nothing(_) => ""
  }

  function PrintFormal(f: Formal): string {
    f.before + Core(f)
  }

  function PrintTail(fs: seq<Formal>): string {
    if fs == [] then "" else "," + (PrintFormal(fs[0]) + PrintTail(fs[1..]))
  }

  function PrintList(fs: seq<Formal>): string {
    if fs == [] then "" else PrintFormal(fs[0]) + PrintTail(fs[1..])
  }

  function Text(head: string, body: string, tail: string): string {
    head + ("(" + (body + (")" + tail)))
  }

  function Print(head: string, fs: seq<Formal>, tail: string): string {
    Text(head, PrintList(fs), tail)
  }

  /** The names and default flags of the named ones. */
  function Infos(fs: seq<Formal>): seq<ParamInfo> {
    if fs == [] then []
    else (if fs[0].Named? then [ParamInfo(fs[0].name, fs[0].default.Some?)] else []) + Infos(fs[1..])
  }

  /** No answer for a list with a destructuring pattern, or anything else that does
      not start with a letter and is no rest parameter. */
  function Answer(fs: seq<Formal>): Option<seq<ParamInfo>> {
    if exists f :: f in fs && f.Other? then None else Some(Infos(fs))
  }

  predicate Matches(open: char, close: char) {
    (open == '(' && close == ')') || (open == '[' && close == ']') || (open == '{' && close == '}')
  }

  /** Every bracket outside quotes is closed by its own kind, quotes are closed,
      and no comma stands outside all brackets; `stack` holds the open brackets. */
  ghost predicate Nested(lex: Lex, stack: seq<char>, s: string)
    decreases s
  {
    if s == "" then lex == Code && stack == []
    else
      match lex
      case Escaped(q) => Nested(Quoted(q), stack, s[1..])
      case Quoted(q) =>
        Nested(if s[0] == '\\' then Escaped(q) else if s[0] == q then Code else Quoted(q), stack, s[1..])
      case Code =>
        if s[0] == '"' || s[0] == '\'' || s[0] == '`' then Nested(Quoted(s[0]), stack, s[1..])
        else if s[0] == '(' || s[0] == '[' || s[0] == '{' then Nested(Code, stack + [s[0]], s[1..])
        else if s[0] == ')' || s[0] == ']' || s[0] == '}' then
          stack != [] && Matches(stack[|stack| - 1], s[0]) && Nested(Code, stack[..|stack| - 1], s[1..])
        else !(s[0] == ',' && stack == []) && Nested(Code, stack, s[1..])
  }

  ghost predicate Printable(f: Formal) {
    && Blank(f.before)
    && match f
       case Named(_, name, after, default) =>
         Identifier(name) && Blank(after) && (default.Some? ==> Nested(Code, [], default.value))
       case Rest(_, rest) => Nested(Code, [], rest)
       case Other(_, text) =>
         && text != "" && !BlankChar(text[0]) && !Letter(text[0]) && !("..." <= text)
         && Nested(Code, [], text)
       case Nothing(_) => true
  }

  // --- pieces of text the scanner passes through ---------------------------

  /** The parenthesis depth stays positive all along. */
  ghost predicate Inside(st: Scan, s: string)
    decreases s
  {
    st.depth >= 1 && (s == "" || Inside(Advance(ROUND, st, s[0]), s[1..]))
  }

  ghost predicate Contained(s: string) {
    Inside(Scan(Code, 1), s) && Read(ROUND, Scan(Code, 1), s) == Scan(Code, 1)
  }

  ghost predicate Whole(s: string) {
    Parts(START, s) == [s] && Read(ALL, START, s) == START
  }

  ghost predicate Quiet(s: string) {
    Contained(s) && Whole(s)
  }

  lemma {:induction false} InsideConcat(st: Scan, s: string, t: string)
    requires Inside(st, s) && Inside(Read(ROUND, st, s), t)
    ensures Inside(st, s + t)
    decreases s
  {
    if s == "" {
      assert s + t == t;
    } else {
      assert (s + t)[1..] == s[1..] + t;
      InsideConcat(Advance(ROUND, st, s[0]), s[1..], t);
    }
  }

  lemma ContainedConcat(s: string, t: string)
    requires Contained(s) && Contained(t)
    ensures Contained(s + t)
  {
    InsideConcat(Scan(Code, 1), s, t);
    ReadConcat(ROUND, Scan(Code, 1), s, t);
  }

  lemma QuietConcat(s: string, t: string)
    requires Quiet(s) && Quiet(t)
    ensures Quiet(s + t)
  {
    ContainedConcat(s, t);
    PartsAppend(START, s, t);
    ReadConcat(ALL, START, s, t);
  }

  predicate PlainChar(c: char) {
    !IsQuote(c) && !Opens(ALL, c) && !ClosesOne(ALL, c) && c != ','
  }

  lemma {:induction false} PlainQuiet(s: string)
    requires forall c | c in s :: PlainChar(c)
    ensures Quiet(s)
  {
    if s != "" {
      PlainQuiet(s[1..]);
      assert s[0] in s;
      assert s == s[..1] + s[1..];
    }
  }

  function Rounds(stack: seq<char>): nat {
    if stack == [] then 0
    else Rounds(stack[..|stack| - 1]) + if stack[|stack| - 1] == '(' then 1 else 0
  }

  /** Only round brackets move the parenthesis depth. */
  lemma RoundsPush(stack: seq<char>, c: char)
    ensures Rounds(stack + [c]) == Rounds(stack) + if c == '(' then 1 else 0
  {
    assert (stack + [c])[..|stack|] == stack;
  }

  /** The scanner follows a nested text one character on. */
  lemma NestedStep(lex: Lex, stack: seq<char>, s: string) returns (lex': Lex, stack': seq<char>)
    requires s != "" && Nested(lex, stack, s)
    ensures Nested(lex', stack', s[1..])
    ensures Advance(ALL, Scan(lex, |stack|), s[0]) == Scan(lex', |stack'|)
    ensures Advance(ROUND, Scan(lex, 1 + Rounds(stack)), s[0]) == Scan(lex', 1 + Rounds(stack'))
    ensures !(Scan(lex, |stack|) == START && s[0] == ',')
  {
    lex', stack' := Advance(ALL, Scan(lex, 0), s[0]).lex, stack;
    if lex == Code && s[0] in {'(', '[', '{'} {
      RoundsPush(stack, s[0]);
      stack' := stack + [s[0]];
    } else if lex == Code && s[0] in {')', ']', '}'} {
      stack' := stack[..|stack| - 1];
    }
  }

  lemma OnePartStep(st: Scan, s: string)
    requires s != "" && !(st == START && s[0] == ',')
    requires Parts(Advance(ALL, st, s[0]), s[1..]) == [s[1..]]
    ensures Parts(st, s) == [s]
  {
    assert s == s[..1] + s[1..];
  }

  lemma {:induction false} NestedIsOnePart(lex: Lex, stack: seq<char>, s: string)
    requires Nested(lex, stack, s)
    ensures Parts(Scan(lex, |stack|), s) == [s] && Read(ALL, Scan(lex, |stack|), s) == START
    decreases s
  {
    if s != "" {
      var lex', stack' := NestedStep(lex, stack, s);
      NestedIsOnePart(lex', stack', s[1..]);
      OnePartStep(Scan(lex, |stack|), s);
    }
  }

  lemma InsideStep(st: Scan, s: string)
    requires s != "" && st.depth >= 1 && Inside(Advance(ROUND, st, s[0]), s[1..])
    requires Read(ROUND, Advance(ROUND, st, s[0]), s[1..]) == Scan(Code, 1)
    ensures Inside(st, s) && Read(ROUND, st, s) == Scan(Code, 1)
  {
  }

  lemma {:induction false} NestedStaysInside(lex: Lex, stack: seq<char>, s: string)
    requires Nested(lex, stack, s)
    ensures Inside(Scan(lex, 1 + Rounds(stack)), s)
    ensures Read(ROUND, Scan(lex, 1 + Rounds(stack)), s) == Scan(Code, 1)
    decreases s
  {
    if s != "" {
      var lex', stack' := NestedStep(lex, stack, s);
      NestedStaysInside(lex', stack', s[1..]);
      InsideStep(Scan(lex, 1 + Rounds(stack)), s);
    }
  }

  lemma NestedContained(s: string)
    requires Nested(Code, [], s)
    ensures Contained(s)
  {
    NestedStaysInside(Code, [], s);
    assert Scan(Code, 1 + Rounds([])) == Scan(Code, 1);
  }

  lemma NestedWhole(s: string)
    requires Nested(Code, [], s)
    ensures Whole(s)
  {
    NestedIsOnePart(Code, [], s);
  }

  lemma NestedQuiet(s: string)
    requires Nested(Code, [], s)
    ensures Quiet(s)
  {
    NestedContained(s);
    NestedWhole(s);
  }

  lemma BlankQuiet(s: string)
    requires Blank(s)
    ensures Quiet(s)
  {
    PlainQuiet(s);
  }

  lemma NameQuiet(name: string, after: string, default: Option<string>)
    requires Identifier(name) && Blank(after) && (default.Some? ==> Nested(Code, [], default.value))
    ensures Quiet(name + (after + if default.Some? then "=" + default.value else ""))
  {
    var init := if default.Some? then "=" + default.value else "";
    PlainQuiet("=");
    if default.Some? {
      NestedQuiet(default.value);
      QuietConcat("=", default.value);
    } else {
      PlainQuiet("");
    }
    BlankQuiet(after);
    PlainQuiet(name);
    QuietConcat(after, init);
    QuietConcat(name, after + init);
  }

  lemma FormalQuiet(f: Formal)
    requires Printable(f)
    ensures Quiet(PrintFormal(f))
  {
    BlankQuiet(f.before);
    match f {
      case Named(_, name, after, default) => NameQuiet(name, after, default);
      case Rest(_, rest) =>
        NestedQuiet(rest);
        PlainQuiet("...");
        QuietConcat("...", rest);
      case Other(_, text) => NestedQuiet(text);
      case Nothing(_) => PlainQuiet("");
    }
    QuietConcat(f.before, Core(f));
  }

  // --- the closing parenthesis ---------------------------------------------

  lemma {:induction false} TailContained(fs: seq<Formal>)
    requires forall f | f in fs :: Printable(f)
    ensures Contained(PrintTail(fs))
  {
    if fs != [] {
      TailContained(fs[1..]);
      FormalQuiet(fs[0]);
      ContainedConcat(PrintFormal(fs[0]), PrintTail(fs[1..]));
      assert Inside(Scan(Code, 1), ",") && Read(ROUND, Scan(Code, 1), ",") == Read(ROUND, Scan(Code, 1), "");
      ContainedConcat(",", PrintFormal(fs[0]) + PrintTail(fs[1..]));
    }
  }

  lemma ListContained(fs: seq<Formal>)
    requires forall f | f in fs :: Printable(f)
    ensures Contained(PrintList(fs))
  {
    if fs != [] {
      FormalQuiet(fs[0]);
      TailContained(fs[1..]);
      ContainedConcat(PrintFormal(fs[0]), PrintTail(fs[1..]));
    }
  }

  lemma {:induction false} ClosesAfter(st: Scan, s: string, tail: string)
    requires Inside(st, s) && Read(ROUND, st, s) == Scan(Code, 1)
    ensures FirstZero(st, s + (")" + tail)) == |s|
    decreases s
  {
    var t := ")" + tail;
    if s == "" {
      assert s + t == t;
    } else {
      assert (s + t)[1..] == s[1..] + t;
      ClosesAfter(Advance(ROUND, st, s[0]), s[1..], tail);
    }
  }

  // --- one part ------------------------------------------------------------

  lemma {:induction false} TrimRightKeeps(s: string, t: string)
    requires s != "" && !IsSpace(s[|s| - 1])
    ensures TrimRight(s + t) == s + TrimRight(t)
    decreases |t|
  {
    if t == "" {
      assert s + t == s;
    } else if IsSpace(t[|t| - 1]) {
      assert (s + t)[..|s + t| - 1] == s + t[..|t| - 1];
      TrimRightKeeps(s, t[..|t| - 1]);
    }
  }

  lemma {:induction false} FirstEquals(name: string, rest: string)
    requires forall c | c in name :: PlainChar(c) && c != '='
    ensures TopLevelIndex(START, name + rest, '=')
         == (var k := TopLevelIndex(START, rest, '='); if k < 0 then -1 else |name| + k)
  {
    if name == "" {
      assert name + rest == rest;
    } else {
      assert name[0] in name;
      assert (name + rest)[1..] == name[1..] + rest;
      FirstEquals(name[1..], rest);
    }
  }

  lemma SpacesAreBlanks(c: char)
    ensures IsSpace(c) <==> BlankChar(c)
  {
  }

  lemma {:induction false} TrimLeftBlank(b: string, t: string)
    requires Blank(b)
    ensures TrimLeft(b + t) == TrimLeft(t)
  {
    if b == "" {
      assert b + t == t;
    } else {
      assert b[0] in b;
      SpacesAreBlanks(b[0]);
      assert (b + t)[1..] == b[1..] + t;
      TrimLeftBlank(b[1..], t);
    }
  }

  lemma {:induction false} TrimRightBlank(b: string)
    requires Blank(b)
    ensures TrimRight(b) == ""
  {
    if b != "" {
      assert b[|b| - 1] in b;
      SpacesAreBlanks(b[|b| - 1]);
      TrimRightBlank(b[..|b| - 1]);
    }
  }

  /** Trimming takes away exactly the blanks around. */
  lemma TrimsBlanks(before: string, t: string, after: string)
    requires Blank(before) && Blank(after)
    requires t != "" && !BlankChar(t[0]) && !BlankChar(t[|t| - 1])
    ensures Trim(before + (t + after)) == t
  {
    SpacesAreBlanks(t[0]);
    SpacesAreBlanks(t[|t| - 1]);
    TrimLeftBlank(before, t + after);
    TrimRightKeeps(t, after);
    TrimRightBlank(after);
    assert t + "" == t;
  }

  /** What follows a first piece that does not end in a blank keeps that piece. */
  lemma TrimsTo(before: string, t: string, rest: string)
    requires Blank(before) && t != "" && !BlankChar(t[0]) && !BlankChar(t[|t| - 1])
    ensures Trim(before + (t + rest)) == t + TrimRight(rest)
  {
    SpacesAreBlanks(t[0]);
    SpacesAreBlanks(t[|t| - 1]);
    TrimLeftBlank(before, t + rest);
    TrimRightKeeps(t, rest);
  }

  lemma IdentifiersAre(s: string)
    ensures IsIdent(s) <==> Identifier(s)
  {
    if IsIdent(s) {
      forall c | c in s ensures Letter(c) || 48 <= c as int <= 57 {
        var i :| 0 <= i < |s| && s[i] == c;
        assert IsIdentPart(s[i]);
      }
    }
    if Identifier(s) {
      assert forall i | 0 <= i < |s| :: s[i] in s;
    }
  }

  lemma IdentifierEnds(name: string)
    requires Identifier(name)
    ensures !BlankChar(name[0]) && !BlankChar(name[|name| - 1]) && name[0] !in "{[."
  {
    assert name[|name| - 1] in name;
  }

  lemma NoEqualsBefore(name: string, after: string)
    requires Identifier(name) && Blank(after)
    ensures forall c | c in name + after :: PlainChar(c) && c != '='
  {
  }

  lemma JudgeName(name: string)
    requires Identifier(name)
    ensures JudgeTrimmed(name) == Param(ParamInfo(name, false))
  {
    NoEqualsBefore(name, "");
    FirstEquals(name, "");
    assert name + "" == name;
    IdentifierEnds(name);
    IdentifiersAre(name);
    TrimsBlanks("", name, "");
    assert "" + (name + "") == name;
  }

  lemma EqualsAt(name: string, after: string, x: string)
    requires Identifier(name) && Blank(after)
    ensures TopLevelIndex(START, name + after + ("=" + x), '=') == |name + after|
    ensures (name + after + ("=" + x))[..|name + after|] == name + after
  {
    NoEqualsBefore(name, after);
    FirstEquals(name + after, "=" + x);
  }

  lemma JudgeDefault(name: string, after: string, x: string)
    requires Identifier(name) && Blank(after)
    ensures JudgeTrimmed(name + after + ("=" + x)) == Param(ParamInfo(name, true))
  {
    EqualsAt(name, after, x);
    IdentifierEnds(name);
    IdentifiersAre(name);
    TrimsBlanks("", name, after);
    assert "" + (name + after) == name + after;
    assert (name + after + ("=" + x))[0] == name[0];
  }

  lemma JudgeBare(before: string, name: string, after: string)
    requires Blank(before) && Identifier(name) && Blank(after)
    ensures Judge(before + (name + after)) == Param(ParamInfo(name, false))
  {
    IdentifierEnds(name);
    TrimsBlanks(before, name, after);
    JudgeName(name);
  }

  lemma JudgeWithDefault(before: string, name: string, after: string, d: string)
    requires Blank(before) && Identifier(name) && Blank(after)
    ensures Judge(before + (name + after + "=" + d)) == Param(ParamInfo(name, true))
  {
    IdentifierEnds(name);
    TrimsTo(before, name + after + "=", d);
    assert name + after + "=" + TrimRight(d) == name + after + ("=" + TrimRight(d));
    JudgeDefault(name, after, TrimRight(d));
  }

  lemma JudgeNamed(f: Formal)
    requires Printable(f) && f.Named?
    ensures Judge(PrintFormal(f)) == Param(ParamInfo(f.name, f.default.Some?))
  {
    if f.default.Some? {
      assert f.name + (f.after + ("=" + f.default.value)) == f.name + f.after + "=" + f.default.value;
      JudgeWithDefault(f.before, f.name, f.after, f.default.value);
    } else {
      assert f.after + "" == f.after;
      JudgeBare(f.before, f.name, f.after);
    }
  }

  lemma JudgeRest(f: Formal)
    requires Printable(f) && f.Rest?
    ensures Judge(PrintFormal(f)) == Skip
  {
    TrimsTo(f.before, "...", f.rest);
  }

  lemma {:induction false} TrimRightIsPrefix(s: string)
    ensures TrimRight(s) <= s
    decreases |s|
  {
    if s != "" && IsSpace(s[|s| - 1]) {
      TrimRightIsPrefix(s[..|s| - 1]);
    }
  }

  /** What does not start with a letter is no identifier, however it is cut and trimmed. */
  lemma NoName(t: string, n: nat)
    requires t != "" && !BlankChar(t[0]) && !Letter(t[0]) && n <= |t|
    ensures !IsIdent(Trim(t[..n]))
  {
    SpacesAreBlanks(t[0]);
    TrimRightIsPrefix(t[..n]);
    IdentifiersAre(Trim(t[..n]));
  }

  lemma JudgeNoName(t: string)
    requires t != "" && !BlankChar(t[0]) && !Letter(t[0]) && !("..." <= t)
    ensures JudgeTrimmed(t) == Refuse
  {
    var eq := TopLevelIndex(START, t, '=');
    NoName(t, if eq >= 0 then eq else |t|);
    assert t[..|t|] == t;
  }

  lemma JudgeOther(f: Formal)
    requires Printable(f) && f.Other?
    ensures Judge(PrintFormal(f)) == Refuse
  {
    var first, rest := f.text[..1], f.text[1..];
    assert first + rest == f.text;
    TrimsTo(f.before, first, rest);
    TrimRightIsPrefix(rest);
    assert first + TrimRight(rest) <= f.text;
    JudgeNoName(first + TrimRight(rest));
  }

  lemma JudgeNothing(f: Formal)
    requires Printable(f) && f.Nothing?
    ensures Judge(PrintFormal(f)) == Skip
  {
    TrimLeftBlank(f.before, "");
  }

  /** How each kind of parameter is read. */
  function Reading(f: Formal): Verdict {
    match f
    case Named(_, name, _, default) => Param(ParamInfo(name, default.Some?))
    case Other(_, _) => Refuse
    case _ => Skip
  }

  lemma JudgeFormal(f: Formal)
    requires Printable(f)
    ensures Judge(PrintFormal(f)) == Reading(f)
  {
    match f {
      case Named(_, _, _, _) => JudgeNamed(f);
      case Rest(_, _) => JudgeRest(f);
      case Other(_, _) => JudgeOther(f);
      case Nothing(_) => JudgeNothing(f);
    }
  }

  // --- the list ------------------------------------------------------------

  lemma PartsAtComma(p: string, x: string)
    requires Whole(p)
    ensures Parts(START, p + ("," + x)) == [p] + Parts(START, x)
  {
    PartsAppend(START, p, "," + x);
    assert ("," + x)[1..] == x;
    assert p + "" == p;
    assert Prepend(p, [""] + Parts(START, x)) == [p] + Parts(START, x);
  }

  /** The answer for a first parameter and the rest, after what was found before. */
  function AnswerFrom(found: seq<ParamInfo>, f: Formal, fs: seq<Formal>): Option<seq<ParamInfo>> {
    match Answer([f] + fs)
    case None => None
    case Some(infos) => Some(found + infos)
  }

  lemma AnswerStep(found: seq<ParamInfo>, f: Formal, fs: seq<Formal>)
    requires fs != []
    ensures var more := if f.Named? then [ParamInfo(f.name, f.default.Some?)] else [];
      AnswerFrom(found, f, fs) == if f.Other? then None else AnswerFrom(found + more, fs[0], fs[1..])
  {
    assert ([f] + fs)[1..] == fs && [fs[0]] + fs[1..] == fs;
    var more := if f.Named? then [ParamInfo(f.name, f.default.Some?)] else [];
    assert found + (more + Infos(fs)) == found + more + Infos(fs);
  }

  lemma AnswerLast(found: seq<ParamInfo>, f: Formal)
    ensures var more := if f.Named? then [ParamInfo(f.name, f.default.Some?)] else [];
      AnswerFrom(found, f, []) == if f.Other? then None else Some(found + more)
  {
    var more := if f.Named? then [ParamInfo(f.name, f.default.Some?)] else [];
    var one := [f] + [];
    assert one == [f] && f in one && one[1..] == [];
    assert Infos(one) == more + Infos(one[1..]) && more + [] == more;
  }

  /** One parameter after the other. */
  lemma {:induction false} CollectPrinted(found: seq<ParamInfo>, f: Formal, fs: seq<Formal>)
    requires Printable(f) && forall g | g in fs :: Printable(g)
    ensures Collect(found, Parts(START, PrintFormal(f) + PrintTail(fs))) == AnswerFrom(found, f, fs)
    decreases |fs|
  {
    var p := PrintFormal(f);
    FormalQuiet(f);
    JudgeFormal(f);
    if fs == [] {
      assert p + "" == p;
      assert [p][1..] == [];
      AnswerLast(found, f);
    } else {
      var rest := PrintFormal(fs[0]) + PrintTail(fs[1..]);
      PartsAtComma(p, rest);
      assert ([p] + Parts(START, rest))[1..] == Parts(START, rest);
      AnswerStep(found, f, fs);
      var more := if f.Named? then [ParamInfo(f.name, f.default.Some?)] else [];
      assert found + [] == found;
      CollectPrinted(found + more, fs[0], fs[1..]);
    }
  }

  lemma CollectNothing()
    ensures Collect([], Parts(START, "")) == Some([])
  {
    assert Trim("") == "";
    assert [""][1..] == [];
  }

  lemma CollectList(fs: seq<Formal>)
    requires forall f | f in fs :: Printable(f)
    ensures Collect([], Parts(START, PrintList(fs))) == Answer(fs)
  {
    if fs == [] {
      CollectNothing();
    } else {
      CollectPrinted([], fs[0], fs[1..]);
      assert [fs[0]] + fs[1..] == fs;
      assert [] + Infos(fs) == Infos(fs);
    }
  }

  lemma OpenAt(head: string, rest: string)
    requires '(' !in head
    ensures ParamList.IndexOf(head + ("(" + rest), "(", 0) == |head|
  {
    var src := head + ("(" + rest);
    assert src[|head|..|head| + 1] == "(";
    assert Occurs(src, "(", |head|);
    forall k: nat | k < |head| ensures !Occurs(src, "(", k) {
      assert src[k] == head[k];
      OccursHead(src, "(", k);
    }
  }

  lemma CloseAt(head: string, body: string, tail: string)
    requires Contained(body)
    ensures MatchingParen(Text(head, body, tail), |head|) == |head| + 1 + |body|
  {
    var s := Text(head, body, tail)[|head|..];
    assert s[0] == '(' && s[1..] == body + (")" + tail);
    ClosesAfter(Scan(Code, 1), body, tail);
  }

  lemma BodyAt(head: string, body: string, tail: string)
    ensures Text(head, body, tail)[|head| + 1..|head| + 1 + |body|] == body
  {
  }

  lemma ListAt(src: string, open: nat, close: nat, body: string)
    requires open < close < |src| && ParamList.IndexOf(src, "(", 0) == open && MatchingParen(src, open) == close
    requires body == src[open + 1..close]
    ensures ParsedSource(src) == Collect([], Parts(START, body))
  {
  }

  /** For every list of parameters - identifiers with optional properly nested
      defaults that have no top-level comma, rest parameters, empty places,
      patterns or other texts that start no name, with any blanks around them -
      exactly the names and default flags of the identifiers come back in order,
      or no answer if there is one of the last kind. */
  lemma SourceUndoesPrint(head: string, fs: seq<Formal>, tail: string)
    requires '(' !in head && (forall f | f in fs :: Printable(f))
    ensures ParsedSource(Print(head, fs, tail)) == Answer(fs)
  {
    var body := PrintList(fs);
    ListContained(fs);
    OpenAt(head, body + (")" + tail));
    CloseAt(head, body, tail);
    BodyAt(head, body, tail);
    CollectList(fs);
    ListAt(Print(head, fs, tail), |head|, |head| + 1 + |body|, body);
  }

  // --- comments ------------------------------------------------------------

  ghost predicate NoMark(s: string, mark: string) {
    forall k: nat :: !Occurs(s, mark, k)
  }

  /** A text, a comment and what follows. */
  function OneComment(x: string, c: string, rest: string): string {
    x + ("/*" + (c + ("*/" + rest)))
  }

  /** Texts, each followed by a comment, and a last text. */
  function Commented(notes: seq<(string, string)>, last: string): string {
    if notes == [] then last
    else OneComment(notes[0].0, notes[0].1, Commented(notes[1..], last))
  }

  function Uncommented(notes: seq<(string, string)>, last: string): string {
    if notes == [] then last else notes[0].0 + Uncommented(notes[1..], last)
  }

  lemma OccursHead(s: string, mark: string, k: nat)
    ensures mark != "" && Occurs(s, mark, k) ==> s[k] == mark[0]
  {
    if mark != "" && Occurs(s, mark, k) {
      assert s[k..k + |mark|][0] == s[k];
    }
  }

  lemma OccursBehind(pre: string, s: string, mark: string, k: nat)
    ensures Occurs(pre + s, mark, |pre| + k) <==> Occurs(s, mark, k)
  {
    if k + |mark| <= |s| {
      assert (pre + s)[|pre| + k..|pre| + k + |mark|] == s[k..k + |mark|];
    }
  }

  /** A mark that the text does not contain is not found in it. */
  lemma NoMarkFrom(pre: string, s: string, mark: string)
    requires NoMark(s, mark)
    ensures ParamList.IndexOf(pre + s, mark, |pre|) == -1
  {
    var i := ParamList.IndexOf(pre + s, mark, |pre|);
    if i >= 0 {
      OccursBehind(pre, s, mark, i - |pre|);
    }
  }

  lemma NoMarkAcross(x: string, mark: string, rest: string, k: nat)
    requires |mark| == 2 && mark[0] != mark[1] && NoMark(x, mark) && k < |x|
    ensures !Occurs(x + (mark + rest), mark, k)
  {
    var s := x + (mark + rest);
    if k + 2 <= |x| {
      assert s[k..k + 2] == x[k..k + 2];
      assert !Occurs(x, mark, k);
    } else {
      assert s[k + 1] == mark[0];
      assert s[k..k + 2][1] == s[k + 1];
    }
  }

  /** A mark of two different characters is first found where it stands. */
  lemma MarkFrom(pre: string, x: string, mark: string, rest: string)
    requires |mark| == 2 && mark[0] != mark[1] && NoMark(x, mark)
    ensures ParamList.IndexOf(pre + (x + (mark + rest)), mark, |pre|) == |pre| + |x|
  {
    var s := x + (mark + rest);
    assert Occurs(s, mark, |x|);
    OccursBehind(pre, s, mark, |x|);
    var i := ParamList.IndexOf(pre + s, mark, |pre|);
    OccursBehind(pre, s, mark, i - |pre|);
    if i - |pre| < |x| {
      NoMarkAcross(x, mark, rest, i - |pre|);
    }
  }

  lemma MarkAt(x: string, mark: string, rest: string)
    requires |mark| == 2 && mark[0] != mark[1] && NoMark(x, mark)
    ensures ParamList.IndexOf(x + (mark + rest), mark, 0) == |x|
  {
    MarkFrom("", x, mark, rest);
    assert "" + (x + (mark + rest)) == x + (mark + rest);
  }

  lemma CommentCut(x: string, c: string, rest: string)
    ensures OneComment(x, c, rest)[..|x|] == x && OneComment(x, c, rest)[|x| + 2 + |c| + 2..] == rest
  {
  }

  lemma OpenerAt(x: string, c: string, rest: string)
    requires NoMark(x, "/*")
    ensures ParamList.IndexOf(OneComment(x, c, rest), "/*", 0) == |x|
  {
    MarkAt(x, "/*", c + ("*/" + rest));
  }

  lemma Regroup(x: string, y: string, z: string)
    ensures x + (y + z) == x + y + z && |x + y| == |x| + |y|
  {
  }

  lemma CloserAt(x: string, c: string, rest: string)
    requires NoMark(c, "*/")
    ensures ParamList.IndexOf(OneComment(x, c, rest), "*/", |x| + 2) == |x| + 2 + |c|
  {
    var pre, after := x + "/*", c + ("*/" + rest);
    MarkFrom(pre, c, "*/", rest);
    Regroup(x, "/*", after);
  }

  lemma StripAt(s: string, x: string, rest: string, open: nat, close: nat)
    requires ParamList.IndexOf(s, "/*", 0) == open && ParamList.IndexOf(s, "*/", open + 2) == close
    requires s[..open] == x && s[close + 2..] == rest
    ensures StripComments(s) == x + StripComments(rest)
  {
  }

  /** Stripping takes the first comment away, from its opener to its end mark. */
  lemma StripFirst(x: string, c: string, rest: string)
    requires NoMark(x, "/*") && NoMark(c, "*/")
    ensures StripComments(OneComment(x, c, rest)) == x + StripComments(rest)
  {
    CommentCut(x, c, rest);
    OpenerAt(x, c, rest);
    CloserAt(x, c, rest);
    StripAt(OneComment(x, c, rest), x, rest, |x|, |x| + 2 + |c|);
  }

  /** An opener that is never closed leaves the text as it is. */
  lemma UnclosedStays(x: string, rest: string)
    requires NoMark(x, "/*") && NoMark(rest, "*/")
    ensures StripComments(x + ("/*" + rest)) == x + ("/*" + rest)
  {
    MarkAt(x, "/*", rest);
    assert x + ("/*" + rest) == x + "/*" + rest;
    NoMarkFrom(x + "/*", rest, "*/");
  }

  lemma {:induction false} StripRemovesComments(notes: seq<(string, string)>, last: string)
    requires NoMark(last, "/*") && forall n | n in notes :: NoMark(n.0, "/*") && NoMark(n.1, "*/")
    ensures StripComments(Commented(notes, last)) == Uncommented(notes, last)
  {
    if notes != [] {
      StripFirst(notes[0].0, notes[0].1, Commented(notes[1..], last));
      StripRemovesComments(notes[1..], last);
    }
  }

  /** The same for a source with comments anywhere in it. */
  lemma ParseUndoesCommentedPrint(
      head: string, fs: seq<Formal>, tail: string, notes: seq<(string, string)>, last: string)
    requires '(' !in head && (forall f | f in fs :: Printable(f))
    requires NoMark(last, "/*") && forall n | n in notes :: NoMark(n.0, "/*") && NoMark(n.1, "*/")
    requires Uncommented(notes, last) == Print(head, fs, tail)
    ensures Parsed(Commented(notes, last)) == Answer(fs)
  {
    StripRemovesComments(notes, last);
    SourceUndoesPrint(head, fs, tail);
  }

  /** And for one with no comment opener. */
  lemma ParseUndoesPrint(head: string, fs: seq<Formal>, tail: string)
    requires '(' !in head && (forall f | f in fs :: Printable(f))
    requires NoMark(Print(head, fs, tail), "/*")
    ensures Parsed(Print(head, fs, tail)) == Answer(fs)
  {
    ParseUndoesCommentedPrint(head, fs, tail, [], Print(head, fs, tail));
  }

  // --- other sources -------------------------------------------------------

  lemma NoListAt(src: string)
    requires '(' !in src
    ensures ParamList.IndexOf(src, "(", 0) == -1
  {
    OccursHead(src, "(", if ParamList.IndexOf(src, "(", 0) >= 0 then ParamList.IndexOf(src, "(", 0) else 0);
  }

  lemma ArrowAt(x: string, body: string)
    requires '=' !in x
    ensures ParamList.IndexOf(x + ("=>" + body), "=>", 0) == |x|
  {
    forall k: nat ensures !Occurs(x, "=>", k) {
      OccursHead(x, "=>", k);
    }
    MarkAt(x, "=>", body);
  }

  /** Without a parenthesis: the name before the arrow, if there is one. */
  lemma ArrowUndoesPrint(before: string, name: string, after: string, body: string)
    requires Blank(before) && Identifier(name) && Blank(after) && '(' !in body
    ensures ParsedSource(before + (name + after) + ("=>" + body)) == Some([ParamInfo(name, false)])
  {
    var x := before + (name + after);
    NoListAt(x + ("=>" + body));
    ArrowAt(x, body);
    IdentifierEnds(name);
    TrimsBlanks(before, name, after);
    IdentifiersAre(name);
    assert (x + ("=>" + body))[..|x|] == x;
  }

  lemma NoArrowIsRefused(src: string)
    requires '(' !in src && NoMark(src, "=>")
    ensures ParsedSource(src) == None
  {
    NoListAt(src);
  }

  lemma {:induction false} NeverCloses(st: Scan, s: string)
    requires Inside(st, s)
    ensures FirstZero(st, s) == -1
    decreases s
  {
    if s != "" {
      NeverCloses(Advance(ROUND, st, s[0]), s[1..]);
    }
  }

  /** A list that is never closed gives no answer. */
  lemma UnclosedIsRefused(head: string, body: string)
    requires '(' !in head && Inside(Scan(Code, 1), body)
    ensures ParsedSource(head + ("(" + body)) == None
  {
    var src := head + ("(" + body);
    OpenAt(head, body);
    assert src[|head|..][0] == '(' && src[|head|..][1..] == body;
    NeverCloses(Scan(Code, 1), body);
  }

  lemma {:induction false} CollectedAreIdentifiers(found: seq<ParamInfo>, parts: seq<string>)
    requires forall p | p in found :: Identifier(p.name)
    ensures match Collect(found, parts)
            case None => true
            case Some(params) => forall p | p in params :: Identifier(p.name)
    decreases |parts|
  {
    if parts != [] {
      match Judge(parts[0])
      case Refuse =>
      case Skip => CollectedAreIdentifiers(found, parts[1..]);
      case Param(info) =>
        IdentifiersAre(info.name);
        CollectedAreIdentifiers(found + [info], parts[1..]);
    }
  }

  /** Whatever the text: every name in the answer is an identifier. */
  lemma OnlyIdentifiersAreNames(text: string)
    ensures Parsed(text).Some? ==> forall p | p in Parsed(text).value :: Identifier(p.name)
  {
    var src := StripComments(text);
    var open := ParamList.IndexOf(src, "(", 0);
    if open >= 0 {
      var close := MatchingParen(src, open);
      if close > open {
        CollectedAreIdentifiers([], Parts(START, src[open + 1..close]));
      }
    } else {
      var arrow := ParamList.IndexOf(src, "=>", 0);
      if arrow >= 0 {
        IdentifiersAre(Trim(src[..arrow]));
      }
    }
  }
}
