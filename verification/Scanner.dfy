/**
  Reading the parameter list of a JavaScript function from its source text
  (schema.ts): a scanner that knows quotes, escapes and brackets.
 */
module Scanner {
  import opened Runs

  // --- the scanner as a state machine --------------------------------------

  datatype Lex = Code | Quoted(quote: char) | Escaped(quote: char)

  /** Which characters count as brackets. */
  datatype Brackets = ROUND | ALL

  predicate Opens(b: Brackets, c: char) {
    c == '(' || (b == ALL && (c == '[' || c == '{'))
  }

  predicate ClosesOne(b: Brackets, c: char) {
    c == ')' || (b == ALL && (c == ']' || c == '}'))
  }

  datatype Scan = Scan(lex: Lex, depth: int)

  const START := Scan(Code, 0)

  predicate IsQuote(c: char) {
    c == '"' || c == '\'' || c == '`'
  }

  function Advance(b: Brackets, st: Scan, c: char): Scan {
    match st.lex
    case Quoted(q) => if c == '\\' then st.(lex := Escaped(q)) else if c == q then st.(lex := Code) else st
    case Escaped(q) => st.(lex := Quoted(q))
    case Code =>
      if IsQuote(c) then st.(lex := Quoted(c))
      else if Opens(b, c) then st.(depth := st.depth + 1)
      else if ClosesOne(b, c) then st.(depth := st.depth - 1)
      else st
  }

  /** What the loops below keep in their `quote` variable. */
  function LexOf(quote: Option<char>): Lex {
    if quote.Some? then Quoted(quote.value) else Code
  }

  function Read(b: Brackets, st: Scan, s: string): Scan
    decreases s
  {
    if s == "" then st else Read(b, Advance(b, st, s[0]), s[1..])
  }

  /** The state before position `i`. */
  function Before(b: Brackets, st: Scan, s: string, i: nat): Scan
    requires i <= |s|
  {
    Read(b, st, s[..i])
  }

  lemma BeforeFront(b: Brackets, st: Scan, s: string, i: nat)
    requires 0 < i <= |s|
    ensures Before(b, st, s, i) == Before(b, Advance(b, st, s[0]), s[1..], i - 1)
  {
    assert s[..i][1..] == s[1..][..i - 1];
  }

  lemma BeforeStep(b: Brackets, st: Scan, s: string, i: nat)
    requires i < |s|
    ensures Before(b, st, s, i + 1) == Advance(b, Before(b, st, s, i), s[i])
  {
    assert s[..i + 1] == s[..i] + [s[i]];
    ReadConcat(b, st, s[..i], [s[i]]);
    var mid := Read(b, st, s[..i]);
    assert Read(b, mid, [s[i]]) == Read(b, Advance(b, mid, s[i]), []);
  }

  lemma {:induction false} ReadConcat(b: Brackets, st: Scan, s: string, t: string)
    decreases s
    ensures Read(b, st, s + t) == Read(b, Read(b, st, s), t)
  {
    if s == "" {
      assert s + t == t;
    } else {
      assert (s + t)[1..] == s[1..] + t;
      ReadConcat(b, Advance(b, st, s[0]), s[1..], t);
    }
  }

  // --- the matching parenthesis --------------------------------------------

  /** The first closing parenthesis in code after which the depth is zero, or -1. */
  function FirstZero(st: Scan, s: string): (k: int)
    ensures -1 <= k < |s|
    decreases s
  {
    if s == "" then -1
    else
      var next := Advance(ROUND, st, s[0]);
      if st.lex == Code && s[0] == ')' && next.depth == 0 then 0
      else
        var k := FirstZero(next, s[1..]);
        if k < 0 then -1 else k + 1
  }

  function MatchingParen(src: string, open: nat): int
    requires open <= |src|
  {
    var k := FirstZero(START, src[open..]);
    if k < 0 then -1 else open + k
  }

  /** Position `i` holds a closing parenthesis in code that brings the depth to zero. */
  predicate Closes(st: Scan, s: string, i: nat)
    requires i < |s|
  {
    Before(ROUND, st, s, i).lex == Code && s[i] == ')' && Before(ROUND, st, s, i + 1).depth == 0
  }

  lemma {:induction false} FirstZeroIsFirst(st: Scan, s: string)
    ensures var k := FirstZero(st, s);
      && (k >= 0 ==> Closes(st, s, k))
      && forall i | 0 <= i < (if k < 0 then |s| else k) :: !Closes(st, s, i)
    decreases s
  {
    if s != "" {
      var next := Advance(ROUND, st, s[0]);
      FirstZeroIsFirst(next, s[1..]);
      assert Before(ROUND, st, s, 0) == st && Before(ROUND, next, s[1..], 0) == next;
      BeforeFront(ROUND, st, s, 1);
      forall i | 1 <= i < |s| ensures Closes(st, s, i) == Closes(next, s[1..], i - 1) {
        BeforeFront(ROUND, st, s, i);
        BeforeFront(ROUND, st, s, i + 1);
      }
    }
  }

  /** From an opening parenthesis: the result is the first position after which
      the unquoted parenthesis depth is back at zero; -1 iff there is none. */
  lemma MatchingParenIsFirst(src: string, open: nat)
    requires open < |src| && src[open] == '('
    ensures var r, s := MatchingParen(src, open), src[open..];
      && (r == -1 || open < r < |src|)
      && (r >= 0 ==> src[r] == ')' && Before(ROUND, START, s, r - open + 1) == START)
      && forall i | 1 <= i <= (if r < 0 then |s| else r - open) :: Before(ROUND, START, s, i).depth > 0
  {
    var s, r := src[open..], MatchingParen(src, open);
    FirstZeroIsFirst(START, s);
    PositiveUntilClosed(s, if r < 0 then |s| else r - open);
    if r >= 0 {
      BeforeStep(ROUND, START, s, r - open);
    }
  }

  /** The depth stays positive as long as nothing closes. */
  lemma {:induction false} PositiveUntilClosed(s: string, n: nat)
    requires 0 < |s| && s[0] == '(' && n <= |s|
    requires forall i | 0 <= i < n :: !Closes(START, s, i)
    ensures forall i | 1 <= i <= n :: Before(ROUND, START, s, i).depth > 0
  {
    if n > 0 {
      PositiveUntilClosed(s, n - 1);
      BeforeStep(ROUND, START, s, n - 1);
      assert !Closes(START, s, n - 1);
    }
  }

  /** The same search by position. */
  ghost function CloseFrom(st: Scan, src: string, i: nat): int
    decreases |src| - i
  {
    if i >= |src| then -1
    else
      var next := Advance(ROUND, st, src[i]);
      if st.lex == Code && src[i] == ')' && next.depth == 0 then i else CloseFrom(next, src, i + 1)
  }

  lemma {:induction false} CloseFromIsFirstZero(st: Scan, src: string, i: nat)
    requires i <= |src|
    ensures CloseFrom(st, src, i) == (var k := FirstZero(st, src[i..]); if k < 0 then -1 else i + k)
    decreases |src| - i
  {
    if i < |src| {
      assert src[i..][1..] == src[i + 1..];
      CloseFromIsFirstZero(Advance(ROUND, st, src[i]), src, i + 1);
    }
  }

  lemma CloseFromOpen(src: string, open: nat) returns (close: int)
    requires open <= |src|
    ensures close == CloseFrom(START, src, open) == MatchingParen(src, open)
  {
    CloseFromIsFirstZero(START, src, open);
    close := CloseFrom(START, src, open);
  }

  /** Quote and depth are the loop's own variables; an escape skips a character. */
  method FindMatchingParen(src: string, open: nat) returns (r: int)
    requires open <= |src|
    ensures r == MatchingParen(src, open)
  {
    ghost var close := CloseFromOpen(src, open);
    var depth := 0;
    var quote: Option<char> := None;
    var i := open;
    while i < |src|
      invariant open <= i
      invariant close == CloseFrom(Scan(LexOf(quote), depth), src, i)
    {
      var ch := src[i];
      ghost var next := Advance(ROUND, Scan(LexOf(quote), depth), ch);
      if quote.Some? {
        if ch == '\\' {
          i := i + 1;
          assert CloseFrom(next, src, i) == CloseFrom(Scan(LexOf(quote), depth), src, i + 1);
        } else if ch == quote.value {
          quote := None;
        }
        i := i + 1;
        continue;
      }
      if IsQuote(ch) {
        quote := Some(ch);
      } else if ch == '(' {
        depth := depth + 1;
      } else if ch == ')' {
        depth := depth - 1;
        if depth == 0 {
          return i;
        }
      }
      assert next == Scan(LexOf(quote), depth);
      i := i + 1;
    }
    return -1;
  }

  // --- top-level commas ----------------------------------------------------

  /** Puts `head` in front of the first part. */
  function Prepend(head: string, parts: seq<string>): seq<string>
    requires parts != []
  {
    [head + parts[0]] + parts[1..]
  }

  function Parts(st: Scan, s: string): (parts: seq<string>)
    ensures parts != []
    decreases s
  {
    if s == "" then [""]
    else if st == START && s[0] == ',' then [""] + Parts(START, s[1..])
    else Prepend(s[..1], Parts(Advance(ALL, st, s[0]), s[1..]))
  }

  function Join(parts: seq<string>, separator: string): string
    requires parts != []
  {
    if |parts| == 1 then parts[0] else parts[0] + separator + Join(parts[1..], separator)
  }

  lemma JoinPrepend(head: string, parts: seq<string>)
    requires parts != []
    ensures Join(Prepend(head, parts), ",") == head + Join(parts, ",")
  {
    if |parts| > 1 {
      assert Prepend(head, parts)[1..] == parts[1..];
      assert head + parts[0] + "," + Join(parts[1..], ",") == head + (parts[0] + "," + Join(parts[1..], ","));
    }
  }

  /** Joining the parts with commas gives the text back. */
  lemma {:induction false} JoinUndoesSplit(st: Scan, s: string)
    ensures Join(Parts(st, s), ",") == s
    decreases s
  {
    if s != "" {
      if st == START && s[0] == ',' {
        JoinUndoesSplit(START, s[1..]);
        assert Parts(st, s)[1..] == Parts(START, s[1..]);
        assert s == "" + "," + s[1..];
      } else {
        JoinUndoesSplit(Advance(ALL, st, s[0]), s[1..]);
        JoinPrepend(s[..1], Parts(Advance(ALL, st, s[0]), s[1..]));
        assert s == s[..1] + s[1..];
      }
    }
  }

  /** Splitting a part again gives just that part. */
  lemma {:induction false} PartsAreWhole(st: Scan, s: string, i: nat)
    requires i < |Parts(st, s)|
    ensures var p := Parts(st, s)[i]; Parts(if i == 0 then st else START, p) == [p]
    decreases s
  {
    if s != "" {
      if st == START && s[0] == ',' {
        if i > 0 { PartsAreWhole(START, s[1..], i - 1); }
      } else {
        var next := Advance(ALL, st, s[0]);
        PartsAreWhole(next, s[1..], i);
        if i == 0 {
          var p := Parts(next, s[1..])[0];
          assert (s[..1] + p)[0] == s[0] && (s[..1] + p)[1..] == p && (s[..1] + p)[..1] == s[..1];
        }
      }
    }
  }

  /** Text after a whole part continues its last part. */
  lemma {:induction false} PartsAppend(st: Scan, s: string, t: string)
    requires Parts(st, s) == [s]
    ensures Parts(st, s + t) == Prepend(s, Parts(Read(ALL, st, s), t))
    decreases s
  {
    if s == "" {
      assert s + t == t;
      PrependNothing(Parts(st, t));
    } else {
      var next := Advance(ALL, st, s[0]);
      assert (s + t)[1..] == s[1..] + t && (s + t)[..1] == s[..1];
      var rest := Parts(next, s[1..]);
      if st == START && s[0] == ',' {
        assert false;
      }
      assert Prepend(s[..1], rest)[0] == [s][0] && |Prepend(s[..1], rest)| == 1;
      assert s[..1] + rest[0] == s;
      assert rest[0] == s[1..] && rest == [s[1..]];
      PartsAppend(next, s[1..], t);
      var tail := Parts(Read(ALL, next, s[1..]), t);
      assert s[..1] + (s[1..] + tail[0]) == s + tail[0];
    }
  }

  lemma PrependNothing(parts: seq<string>)
    requires parts != []
    ensures Prepend("", parts) == parts
  {
    assert "" + parts[0] == parts[0];
  }

  lemma PrependTwice(head: string, next: string, parts: seq<string>)
    requires parts != []
    ensures Prepend(head, Prepend(next, parts)) == Prepend(head + next, parts)
  {
    assert head + (next + parts[0]) == head + next + parts[0];
  }

  /** The parts still to come, by position; `body[start..i]` is read already. */
  ghost function Rest(st: Scan, body: string, start: nat, i: nat): seq<string>
    requires start <= |body| && start <= i
    decreases |body| - i
  {
    if i >= |body| then [body[start..]]
    else if st == START && body[i] == ',' then [body[start..i]] + Rest(START, body, i + 1, i + 1)
    else Rest(Advance(ALL, st, body[i]), body, start, i + 1)
  }

  lemma {:induction false} RestIsParts(st: Scan, body: string, start: nat, i: nat)
    requires start <= i <= |body|
    ensures Rest(st, body, start, i) == Prepend(body[start..i], Parts(st, body[i..]))
    decreases |body| - i
  {
    var head := body[start..i];
    assert head + "" == head;
    if i < |body| {
      var s := body[i..];
      assert s[1..] == body[i + 1..] && s[..1] == [body[i]];
      if st == START && body[i] == ',' {
        RestIsParts(START, body, i + 1, i + 1);
        assert body[i + 1..i + 1] == "";
        PrependNothing(Parts(START, s[1..]));
      } else {
        var next := Advance(ALL, st, body[i]);
        RestIsParts(next, body, start, i + 1);
        assert head + [body[i]] == body[start..i + 1];
        PrependTwice(head, [body[i]], Parts(next, s[1..]));
      }
    } else {
      assert head == body[start..];
    }
  }

  lemma RestFromStart(body: string) returns (rest: seq<string>)
    ensures rest == Rest(START, body, 0, 0) == Parts(START, body)
  {
    RestIsParts(START, body, 0, 0);
    PrependNothing(Parts(START, body));
    assert body[0..0] == "" && body[0..] == body;
    rest := Rest(START, body, 0, 0);
  }

  method SplitTopLevel(body: string) returns (parts: seq<string>)
    ensures parts == Parts(START, body)
  {
    ghost var rest := RestFromStart(body);
    parts := [];
    var depth := 0;
    var quote: Option<char> := None;
    var start, i := 0, 0;
    while i < |body|
      invariant 0 <= start <= |body| && start <= i
      invariant Parts(START, body) == parts + rest
      invariant rest == Rest(Scan(LexOf(quote), depth), body, start, i)
    {
      var ch := body[i];
      ghost var next := Advance(ALL, Scan(LexOf(quote), depth), ch);
      if quote.Some? {
        if ch == '\\' {
          i := i + 1;
          assert Rest(next, body, start, i) == Rest(Scan(LexOf(quote), depth), body, start, i + 1);
        } else if ch == quote.value {
          quote := None;
        }
        i := i + 1;
        continue;
      }
      if IsQuote(ch) {
        quote := Some(ch);
      } else if ch == '(' || ch == '[' || ch == '{' {
        depth := depth + 1;
      } else if ch == ')' || ch == ']' || ch == '}' {
        depth := depth - 1;
      } else if ch == ',' && depth == 0 {
        parts := parts + [body[start..i]];
        rest := rest[1..];
        start := i + 1;
      }
      assert next == Scan(LexOf(quote), depth);
      i := i + 1;
    }
    parts := parts + [body[start..]];
  }

  // --- a character at top level --------------------------------------------

  /** The first `target` outside quotes and brackets, or -1. */
  function TopLevelIndex(st: Scan, s: string, target: char): (k: int)
    ensures -1 <= k < |s|
    ensures k >= 0 ==> s[k] == target
    decreases s
  {
    if s == "" then -1
    else if st == START && s[0] == target && Advance(ALL, st, s[0]) == START then 0
    else
      var k := TopLevelIndex(Advance(ALL, st, s[0]), s[1..], target);
      if k < 0 then -1 else k + 1
  }

  /** The same search by position. */
  ghost function FindFrom(st: Scan, s: string, target: char, i: nat): int
    decreases |s| - i
  {
    if i >= |s| then -1
    else if st == START && s[i] == target && Advance(ALL, st, s[i]) == START then i
    else FindFrom(Advance(ALL, st, s[i]), s, target, i + 1)
  }

  lemma {:induction false} FindFromIsIndex(st: Scan, s: string, target: char, i: nat)
    requires i <= |s|
    ensures FindFrom(st, s, target, i) == (var k := TopLevelIndex(st, s[i..], target); if k < 0 then -1 else i + k)
    decreases |s| - i
  {
    if i < |s| {
      assert s[i..][1..] == s[i + 1..];
      FindFromIsIndex(Advance(ALL, st, s[i]), s, target, i + 1);
    }
  }

  lemma FindFromStart(s: string, target: char) returns (first: int)
    ensures first == FindFrom(START, s, target, 0) == TopLevelIndex(START, s, target)
  {
    FindFromIsIndex(START, s, target, 0);
    assert s[0..] == s;
    first := FindFrom(START, s, target, 0);
  }

  method FindTopLevelChar(s: string, target: char) returns (r: int)
    ensures r == TopLevelIndex(START, s, target)
  {
    ghost var first := FindFromStart(s, target);
    var depth := 0;
    var quote: Option<char> := None;
    var i := 0;
    while i < |s|
      invariant 0 <= i
      invariant first == FindFrom(Scan(LexOf(quote), depth), s, target, i)
    {
      var ch := s[i];
      ghost var next := Advance(ALL, Scan(LexOf(quote), depth), ch);
      if quote.Some? {
        if ch == '\\' {
          i := i + 1;
          assert FindFrom(next, s, target, i) == FindFrom(Scan(LexOf(quote), depth), s, target, i + 1);
        } else if ch == quote.value {
          quote := None;
        }
        i := i + 1;
        continue;
      }
      if IsQuote(ch) {
        quote := Some(ch);
      } else if ch == '(' || ch == '[' || ch == '{' {
        depth := depth + 1;
      } else if ch == ')' || ch == ']' || ch == '}' {
        depth := depth - 1;
      } else if ch == target && depth == 0 {
        return i;
      }
      assert next == Scan(LexOf(quote), depth);
      i := i + 1;
    }
    return -1;
  }

  /** Position `i` holds the target outside quotes and brackets. */
  predicate StandsOutside(st: Scan, s: string, target: char, i: nat)
    requires i < |s|
  {
    s[i] == target && Before(ALL, st, s, i) == START
  }

  /** For a character that is no quote and no bracket: the first position outside
      quotes and brackets where it stands; -1 iff there is none. */
  lemma {:induction false} TopLevelIndexIsFirst(st: Scan, s: string, target: char)
    requires target !in "\"'`()[]{}"
    ensures var k := TopLevelIndex(st, s, target);
      && (k >= 0 ==> StandsOutside(st, s, target, k))
      && forall i | 0 <= i < (if k < 0 then |s| else k) :: !StandsOutside(st, s, target, i)
    decreases s
  {
    if s != "" {
      var next := Advance(ALL, st, s[0]);
      TopLevelIndexIsFirst(next, s[1..], target);
      assert Before(ALL, st, s, 0) == st;
      forall i | 1 <= i < |s| ensures StandsOutside(st, s, target, i) == StandsOutside(next, s[1..], target, i - 1) {
        BeforeFront(ALL, st, s, i);
      }
    }
  }
}
