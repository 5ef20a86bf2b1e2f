/** Parameter names and default flags from a function's source text (schema.ts). */
module ParamList {
  import opened Runs
  import opened Scanner

  datatype ParamInfo = ParamInfo(name: string, hasDefault: bool)

  /** JavaScript white space and line terminators. */
  predicate IsSpace(c: char) {
    || c in "\t\n\U{0B}\U{0C}\r \U{A0}\U{1680}\U{2028}\U{2029}\U{202F}\U{205F}\U{3000}\U{FEFF}"
    || '\U{2000}' <= c <= '\U{200A}'
  }

  function TrimLeft(s: string): string {
    if s != "" && IsSpace(s[0]) then TrimLeft(s[1..]) else s
  }

  function TrimRight(s: string): string {
    if s != "" && IsSpace(s[|s| - 1]) then TrimRight(s[..|s| - 1]) else s
  }

  function Trim(s: string): string {
    TrimRight(TrimLeft(s))
  }

  predicate IsIdentStart(c: char) {
    'a' <= c <= 'z' || 'A' <= c <= 'Z' || c == '_' || c == '$'
  }

  predicate IsIdentPart(c: char) {
    IsIdentStart(c) || '0' <= c <= '9'
  }

  predicate IsIdent(s: string) {
    s != "" && IsIdentStart(s[0]) && forall i | 0 <= i < |s| :: IsIdentPart(s[i])
  }

  predicate Occurs(s: string, pattern: string, k: nat) {
    k + |pattern| <= |s| && s[k..k + |pattern|] == pattern
  }

  /** The first occurrence of `pattern` at or after `from`, or -1. */
  function IndexOf(s: string, pattern: string, from: nat): (i: int)
    ensures i == -1 || (from <= i && Occurs(s, pattern, i))
    ensures forall k: nat | from <= k && Occurs(s, pattern, k) :: 0 <= i <= k
    decreases |s| - from
  {
    if from + |pattern| > |s| then -1
    else if Occurs(s, pattern, from) then from
    else if from == |s| then -1
    else IndexOf(s, pattern, from + 1)
  }

  /** Block comments removed, each up to its first end mark. */
  function StripComments(s: string): string {
    var open := IndexOf(s, "/*", 0);
    if open < 0 then s
    else
      var close := IndexOf(s, "*/", open + 2);
      if close < 0 then s else s[..open] + StripComments(s[close + 2..])
  }

  datatype Verdict = Skip | Refuse | Param(info: ParamInfo)

  function Judge(part: string): Verdict {
    JudgeTrimmed(Trim(part))
  }

  function JudgeTrimmed(trimmed: string): Verdict {
    if trimmed == "" || "..." <= trimmed then Skip
    else if "{" <= trimmed || "[" <= trimmed then Refuse
    else
      var eq := TopLevelIndex(START, trimmed, '=');
      var name := Trim(if eq >= 0 then trimmed[..eq] else trimmed);
      if IsIdent(name) then Param(ParamInfo(name, eq >= 0)) else Refuse
  }

  /** The parameters of the parts that are not skipped, after those in `found`;
      none at all if one part is refused. */
  function Collect(found: seq<ParamInfo>, parts: seq<string>): Option<seq<ParamInfo>>
    decreases |parts|
  {
    if parts == [] then Some(found)
    else
      match Judge(parts[0])
      case Refuse => None
      case Skip => Collect(found, parts[1..])
      case Param(info) => Collect(found + [info], parts[1..])
  }

  function ParsedArrow(src: string): Option<seq<ParamInfo>> {
    var arrow := IndexOf(src, "=>", 0);
    if arrow < 0 then None
    else
      var name := Trim(src[..arrow]);
      if IsIdent(name) then Some([ParamInfo(name, false)]) else None
  }

  /** The list whose opening parenthesis stands at `open`. */
  function ParsedList(src: string, open: nat): Option<seq<ParamInfo>>
    requires open < |src|
  {
    var close := MatchingParen(src, open);
    if close <= open then None else Collect([], Parts(START, src[open + 1..close]))
  }

  function ParsedSource(src: string): Option<seq<ParamInfo>> {
    var open := IndexOf(src, "(", 0);
    if open < 0 then ParsedArrow(src) else ParsedList(src, open)
  }

  function Parsed(text: string): Option<seq<ParamInfo>> {
    ParsedSource(StripComments(text))
  }

  method ParseParams(text: string) returns (params: Option<seq<ParamInfo>>)
    ensures params == Parsed(text)
  {
    var src := StripComments(text);
    var open := IndexOf(src, "(", 0);
    if open < 0 {
      return ParsedArrow(src);
    }
    var close := FindMatchingParen(src, open);
    MatchingParenIsFirst(src, open);
    if close < 0 {
      return None;
    }
    var parts := SplitTopLevel(src[open + 1..close]);
    params := CollectParams(parts);
  }

  method CollectParams(parts: seq<string>) returns (params: Option<seq<ParamInfo>>)
    ensures params == Collect([], parts)
  {
    var found: seq<ParamInfo> := [];
    assert parts[0..] == parts;
    for i := 0 to |parts|
      invariant Collect([], parts) == Collect(found, parts[i..])
    {
      var trimmed := Trim(parts[i]);
      assert parts[i..][1..] == parts[i + 1..] && parts[i..][0] == parts[i];
      if trimmed == "" || "..." <= trimmed {
        continue;
      }
      if "{" <= trimmed || "[" <= trimmed {
        return None;
      }
      var eq := FindTopLevelChar(trimmed, '=');
      var name := Trim(if eq >= 0 then trimmed[..eq] else trimmed);
      if !IsIdent(name) {
        return None;
      }
      found := found + [ParamInfo(name, eq >= 0)];
    }
    return Some(found);
  }
}
