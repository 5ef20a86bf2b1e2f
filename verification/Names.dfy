/** App ids, tool names and the names that join them (registry.go). */
module Names {
  import opened Runs

  const MAX_APP_ID := 48
  const MAX_TOOL_NAME := 78

  predicate IsAppIDChar(c: char) {
    'a' <= c <= 'z' || '0' <= c <= '9' || c == '-'
  }

  predicate IsToolNameChar(c: char) {
    IsAppIDChar(c) || 'A' <= c <= 'Z' || c == '_'
  }

  predicate IsAppID(s: string) {
    1 <= |s| <= MAX_APP_ID && forall i | 0 <= i < |s| :: IsAppIDChar(s[i])
  }

  predicate IsToolName(s: string) {
    1 <= |s| <= MAX_TOOL_NAME && forall i | 0 <= i < |s| :: IsToolNameChar(s[i])
  }

  /** The first position of `c`, or -1. */
  function IndexOf(s: string, c: char): (i: int)
    ensures -1 <= i < |s|
    ensures i < 0 ==> c !in s
    ensures i >= 0 ==> s[i] == c && c !in s[..i]
  {
    if s == "" then -1
    else if s[0] == c then 0
    else
      var i := IndexOf(s[1..], c);
      assert i >= 0 ==> s[..i + 1] == [s[0]] + s[1..][..i];
      if i < 0 then -1 else i + 1
  }

  function JoinToolName(appID: string, toolName: string): string {
    appID + "_" + toolName
  }

  /** Splits at the first underscore; both parts must be non-empty. */
  function SplitToolName(name: string): Option<(string, string)> {
    var i := IndexOf(name, '_');
    if i <= 0 || i == |name| - 1 then None else Some((name[..i], name[i + 1..]))
  }

  /** Splitting undoes joining for every app id without underscore, and a
      joined valid name is at most 127 long. */
  lemma SplitUndoesJoin(appID: string, toolName: string)
    requires appID != "" && toolName != "" && '_' !in appID
    ensures SplitToolName(JoinToolName(appID, toolName)) == Some((appID, toolName))
    ensures IsAppID(appID) && IsToolName(toolName) ==> |JoinToolName(appID, toolName)| <= 127
  {
    var name := JoinToolName(appID, toolName);
    var i := IndexOf(name, '_');
    assert name[|appID|] == '_';
    assert forall k | 0 <= k < |appID| :: name[k] == appID[k];
    assert forall k | 0 <= k < i :: name[k] in name[..i];
    assert name[..i] == appID && name[i + 1..] == toolName;
  }

  /** Joining undoes splitting, whatever the name. */
  lemma JoinUndoesSplit(name: string)
    ensures SplitToolName(name).Some? ==>
      var (appID, toolName) := SplitToolName(name).value;
      JoinToolName(appID, toolName) == name && appID != "" && toolName != "" && '_' !in appID
  {
    var i := IndexOf(name, '_');
    if i > 0 {
      assert name == name[..i] + [name[i]] + name[i + 1..];
    }
  }

  /** Hence two valid pairs with the same joined name are the same pair. */
  lemma JoinIsInjective(appID: string, toolName: string, appID': string, toolName': string)
    requires IsAppID(appID) && IsToolName(toolName) && IsAppID(appID') && IsToolName(toolName')
    requires JoinToolName(appID, toolName) == JoinToolName(appID', toolName')
    ensures appID == appID' && toolName == toolName'
  {
    SplitUndoesJoin(appID, toolName);
    SplitUndoesJoin(appID', toolName');
  }
}
