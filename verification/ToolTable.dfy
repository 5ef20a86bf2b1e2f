/** The MCP tool table rebuilt from the online and the stored apps (mcpbridge.go). */
module ToolTable {
  import opened Runs
  import opened Names

  datatype Tool = Tool(name: string, description: string, pageKey: string)

  datatype App = App(appID: string, appName: string, tools: seq<Tool>)

  datatype ServerTool = ServerTool(name: string, description: string, builtin: bool)

  const OFFLINE_ANNOTATION := "[未运行] "

  const SHADOWED: seq<string> := ["list", "launch", "search", "adopt"]

  const BUILTINS: seq<ServerTool> := [
    ServerTool("app_list", "", true), ServerTool("app_launch", "", true),
    ServerTool("app_search", "", true), ServerTool("app_adopt", "", true)]

  predicate IsBridgeTool(appID: string, toolName: string) {
    appID == "app" && toolName in SHADOWED
  }

  function DescribeTool(appName: string, t: Tool): string {
    if t.pageKey == "" then "[" + appName + "] " + t.description
    else "[" + appName + "|" + t.pageKey + "] " + t.description
  }

  function Row(app: App, t: Tool, offline: bool): ServerTool {
    ServerTool(JoinToolName(app.appID, t.name),
               (if offline then OFFLINE_ANNOTATION else "") + DescribeTool(app.appName, t), false)
  }

  // --- specification -------------------------------------------------------

  function AppRows(app: App, tools: seq<Tool>, offline: bool): seq<ServerTool> {
    if tools == [] then []
    else AppRows(app, tools[..|tools| - 1], offline)
         + (var t := tools[|tools| - 1]; if IsBridgeTool(app.appID, t.name) then [] else [Row(app, t, offline)])
  }

  function Rows(apps: seq<App>, skip: set<string>, offline: bool): seq<ServerTool> {
    if apps == [] then []
    else Rows(apps[..|apps| - 1], skip, offline)
         + (var a := apps[|apps| - 1]; if a.appID in skip then [] else AppRows(a, a.tools, offline))
  }

  function IDs(apps: seq<App>): set<string> {
    set a | a in apps :: a.appID
  }

  function Table(online: seq<App>, stored: seq<App>): seq<ServerTool> {
    Rows(online, {}, false) + Rows(stored, IDs(online), true) + BUILTINS
  }

  // --- the loops -----------------------------------------------------------

  method AppendRows(tools: seq<ServerTool>, app: App, offline: bool) returns (more: seq<ServerTool>)
    ensures more == tools + AppRows(app, app.tools, offline)
  {
    more := tools;
    for j := 0 to |app.tools|
      invariant more == tools + AppRows(app, app.tools[..j], offline)
    {
      assert app.tools[..j + 1][..j] == app.tools[..j];
      if IsBridgeTool(app.appID, app.tools[j].name) {
        continue;
      }
      more := more + [Row(app, app.tools[j], offline)];
    }
    assert app.tools[..|app.tools|] == app.tools;
  }

  method OnlineTools(online: seq<App>) returns (tools: seq<ServerTool>, ids: set<string>)
    ensures tools == Rows(online, {}, false) && ids == IDs(online)
  {
    tools, ids := [], {};
    for i := 0 to |online|
      invariant ids == IDs(online[..i])
      invariant tools == Rows(online[..i], {}, false)
    {
      assert online[..i + 1] == online[..i] + [online[i]];
      ids := ids + {online[i].appID};
      tools := AppendRows(tools, online[i], false);
    }
    assert online[..|online|] == online;
  }

  method OfflineTools(stored: seq<App>, online: set<string>) returns (tools: seq<ServerTool>)
    ensures tools == Rows(stored, online, true)
  {
    tools := [];
    for i := 0 to |stored|
      invariant tools == Rows(stored[..i], online, true)
    {
      assert stored[..i + 1] == stored[..i] + [stored[i]];
      if stored[i].appID in online {
        continue;
      }
      tools := AppendRows(tools, stored[i], true);
    }
    assert stored[..|stored|] == stored;
  }

  method RebuildTools(online: seq<App>, stored: seq<App>) returns (tools: seq<ServerTool>)
    ensures tools == Table(online, stored)
  {
    var first, ids := OnlineTools(online);
    var second := OfflineTools(stored, ids);
    tools := first + second + BUILTINS;
  }

  // --- what the table lists ------------------------------------------------

  ghost predicate ValidApp(a: App) {
    && IsAppID(a.appID)
    && (forall t | t in a.tools :: IsToolName(t.name))
    && (forall i, j | 0 <= i < j < |a.tools| :: a.tools[i].name != a.tools[j].name)
  }

  ghost predicate ValidApps(apps: seq<App>) {
    && (forall a | a in apps :: ValidApp(a))
    && (forall i, j | 0 <= i < j < |apps| :: apps[i].appID != apps[j].appID)
  }

  ghost predicate Distinct(rows: seq<ServerTool>) {
    forall i, j | 0 <= i < j < |rows| :: rows[i].name != rows[j].name
  }

  /** `row` is the row of a tool of `a` that no built-in shadows. */
  ghost predicate RowOf(row: ServerTool, a: App, tools: seq<Tool>, offline: bool) {
    exists t | t in tools :: !IsBridgeTool(a.appID, t.name) && row == Row(a, t, offline)
  }

  lemma {:induction false} AppRowsListed(a: App, tools: seq<Tool>, offline: bool, row: ServerTool)
    ensures row in AppRows(a, tools, offline) <==> RowOf(row, a, tools, offline)
  {
    if tools != [] {
      var init, t := tools[..|tools| - 1], tools[|tools| - 1];
      AppRowsListed(a, init, offline, row);
      assert tools == init + [t];
    }
  }

  lemma {:induction false} RowsListed(apps: seq<App>, skip: set<string>, offline: bool, row: ServerTool)
    ensures row in Rows(apps, skip, offline)
       <==> exists a | a in apps && a.appID !in skip :: RowOf(row, a, a.tools, offline)
  {
    if apps != [] {
      var init, a := apps[..|apps| - 1], apps[|apps| - 1];
      RowsListed(init, skip, offline, row);
      AppRowsListed(a, a.tools, offline, row);
      assert apps == init + [a];
    }
  }

  /** A row's name says whose tool it is. */
  lemma RowNames(row: ServerTool, a: App, offline: bool)
    requires ValidApp(a) && RowOf(row, a, a.tools, offline)
    ensures SplitToolName(row.name).Some?
    ensures SplitToolName(row.name).value.0 == a.appID
    ensures exists t | t in a.tools :: t.name == SplitToolName(row.name).value.1
    ensures !IsBridgeTool(a.appID, SplitToolName(row.name).value.1)
    ensures |row.name| <= 127 && !row.builtin
  {
    var t :| t in a.tools && !IsBridgeTool(a.appID, t.name) && row == Row(a, t, offline);
    SplitUndoesJoin(a.appID, t.name);
  }

  lemma DistinctConcat(xs: seq<ServerTool>, ys: seq<ServerTool>)
    requires Distinct(xs) && Distinct(ys)
    requires forall x, y | x in xs && y in ys :: x.name != y.name
    ensures Distinct(xs + ys)
  {
  }

  lemma JoinSuffix(appID: string, toolName: string)
    ensures JoinToolName(appID, toolName)[|appID| + 1..] == toolName
  {
  }

  lemma {:induction false} AppRowsDistinct(a: App, tools: seq<Tool>, offline: bool)
    requires forall i, j | 0 <= i < j < |tools| :: tools[i].name != tools[j].name
    ensures Distinct(AppRows(a, tools, offline))
  {
    if tools != [] {
      var init, t := tools[..|tools| - 1], tools[|tools| - 1];
      AppRowsDistinct(a, init, offline);
      forall x | x in AppRows(a, init, offline) ensures x.name != JoinToolName(a.appID, t.name) {
        AppRowsListed(a, init, offline, x);
        var u :| u in init && x == Row(a, u, offline);
        JoinSuffix(a.appID, u.name);
        JoinSuffix(a.appID, t.name);
      }
    }
  }

  lemma {:induction false} RowsDistinct(apps: seq<App>, skip: set<string>, offline: bool)
    requires ValidApps(apps)
    ensures Distinct(Rows(apps, skip, offline))
  {
    if apps != [] {
      var init, a := apps[..|apps| - 1], apps[|apps| - 1];
      assert apps == init + [a];
      RowsDistinct(init, skip, offline);
      assert ValidApp(a);
      AppRowsDistinct(a, a.tools, offline);
      forall x, y | x in Rows(init, skip, offline) && y in AppRows(a, a.tools, offline) ensures x.name != y.name {
        RowsListed(init, skip, offline, x);
        AppRowsListed(a, a.tools, offline, y);
        var b :| b in init && RowOf(x, b, b.tools, offline);
        RowNames(x, b, offline);
        RowNames(y, a, offline);
      }
      DistinctConcat(Rows(init, skip, offline), AppRows(a, a.tools, offline));
    }
  }

  /** The app shown for an id: the online one, else the stored one. */
  ghost predicate Shown(online: seq<App>, stored: seq<App>, a: App, offline: bool) {
    if offline then a in stored && a.appID !in IDs(online) else a in online
  }

  /** The table lists exactly the unshadowed tools of the shown apps and the built-ins. */
  lemma TableLists(online: seq<App>, stored: seq<App>, row: ServerTool)
    ensures row in Table(online, stored) <==>
      row in BUILTINS || exists a, offline :: Shown(online, stored, a, offline) && RowOf(row, a, a.tools, offline)
  {
    RowsListed(online, {}, false, row);
    RowsListed(stored, IDs(online), true, row);
    if row in Rows(online, {}, false) {
      var a :| a in online && RowOf(row, a, a.tools, false);
      assert Shown(online, stored, a, false);
    }
    if row in Rows(stored, IDs(online), true) {
      var a :| a in stored && a.appID !in IDs(online) && RowOf(row, a, a.tools, true);
      assert Shown(online, stored, a, true);
    }
  }

  lemma BuiltinName(toolName: string)
    requires toolName in SHADOWED
    ensures SplitToolName("app_" + toolName) == Some(("app", toolName))
  {
    assert "app_" + toolName == JoinToolName("app", toolName);
    SplitUndoesJoin("app", toolName);
  }

  /** One case for each built-in. */
  lemma BuiltinNames(row: ServerTool)
    requires row in BUILTINS
    ensures SplitToolName(row.name).Some? && SplitToolName(row.name).value.0 == "app"
    ensures SplitToolName(row.name).value.1 in SHADOWED && row.builtin
  {
    var k :| 0 <= k < |BUILTINS| && BUILTINS[k] == row;
    assert row.name == "app_" + SHADOWED[k];
    BuiltinName(SHADOWED[k]);
  }

  /** Where a row that is not a built-in comes from. */
  ghost predicate Origin(online: seq<App>, stored: seq<App>, row: ServerTool, a: App, offline: bool) {
    Shown(online, stored, a, offline) && ValidApp(a) && RowOf(row, a, a.tools, offline)
  }

  lemma HasOrigin(online: seq<App>, stored: seq<App>, row: ServerTool) returns (a: App, offline: bool)
    requires ValidApps(online) && ValidApps(stored)
    requires row in Rows(online, {}, false) || row in Rows(stored, IDs(online), true)
    ensures Origin(online, stored, row, a, offline)
    ensures offline <==> row !in Rows(online, {}, false)
  {
    RowsListed(online, {}, false, row);
    RowsListed(stored, IDs(online), true, row);
    if row in Rows(online, {}, false) {
      offline := false;
      a :| a in online && RowOf(row, a, a.tools, false);
    } else {
      offline := true;
      a :| a in stored && a.appID !in IDs(online) && RowOf(row, a, a.tools, true);
    }
  }

  lemma OnlineAndStoredApart(online: seq<App>, stored: seq<App>, x: ServerTool, y: ServerTool)
    requires ValidApps(online) && ValidApps(stored)
    requires x in Rows(online, {}, false) && y in Rows(stored, IDs(online), true)
    ensures x.name != y.name
  {
    var a, _ := HasOrigin(online, stored, x);
    RowNames(x, a, false);
    RowsListed(stored, IDs(online), true, y);
    var b :| b in stored && b.appID !in IDs(online) && RowOf(y, b, b.tools, true);
    RowNames(y, b, true);
  }

  lemma BuiltinsApart(online: seq<App>, stored: seq<App>, x: ServerTool, y: ServerTool)
    requires ValidApps(online) && ValidApps(stored)
    requires x in Rows(online, {}, false) || x in Rows(stored, IDs(online), true)
    requires y in BUILTINS
    ensures x.name != y.name
  {
    var a, offline := HasOrigin(online, stored, x);
    RowNames(x, a, offline);
    BuiltinNames(y);
  }

  lemma BuiltinsDistinct()
    ensures Distinct(BUILTINS)
  {
  }

  /** No name occurs twice. */
  lemma TableNamesDistinct(online: seq<App>, stored: seq<App>)
    requires ValidApps(online) && ValidApps(stored)
    ensures Distinct(Table(online, stored))
  {
    var first, second := Rows(online, {}, false), Rows(stored, IDs(online), true);
    RowsDistinct(online, {}, false);
    RowsDistinct(stored, IDs(online), true);
    forall x, y | x in first && y in second ensures x.name != y.name {
      OnlineAndStoredApart(online, stored, x, y);
    }
    DistinctConcat(first, second);
    forall x, y | x in first + second && y in BUILTINS ensures x.name != y.name {
      BuiltinsApart(online, stored, x, y);
    }
    BuiltinsDistinct();
    DistinctConcat(first + second, BUILTINS);
  }

  /** The app, or the app and its page. */
  function Owner(appName: string, pageKey: string): string {
    if pageKey == "" then appName else appName + "|" + pageKey
  }

  /** A row tells the owner in brackets before the tool's own description, and
      first of all whether the app is offline. */
  lemma RowTells(a: App, t: Tool, offline: bool)
    ensures Row(a, t, offline).description
         == (if offline then "[未运行] " else "") + ("[" + Owner(a.appName, t.pageKey) + "] " + t.description)
  {
    if t.pageKey != "" {
      assert "[" + (a.appName + "|" + t.pageKey) + "] " == "[" + a.appName + "|" + t.pageKey + "] ";
    }
  }

  /** Splitting the name of an app's row gives back a shown app and one of its
      own tools, the one the row describes; the name is at most 127 long. */
  lemma TableNamesSplit(online: seq<App>, stored: seq<App>, row: ServerTool) returns (a: App, t: Tool, offline: bool)
    requires ValidApps(online) && ValidApps(stored)
    requires row in Table(online, stored) && !row.builtin
    ensures Shown(online, stored, a, offline) && t in a.tools && row == Row(a, t, offline)
    ensures SplitToolName(row.name) == Some((a.appID, t.name)) && |row.name| <= 127
    ensures row.description
         == (if offline then "[未运行] " else "") + ("[" + Owner(a.appName, t.pageKey) + "] " + t.description)
  {
    a, offline := HasOrigin(online, stored, row);
    t :| t in a.tools && row == Row(a, t, offline);
    SplitUndoesJoin(a.appID, t.name);
    RowTells(a, t, offline);
  }

  /** The four built-in names are always listed, and no tool of an app has one of them. */
  lemma BuiltinsAlwaysListed(online: seq<App>, stored: seq<App>, name: string)
    requires ValidApps(online) && ValidApps(stored)
    requires name in {"app_list", "app_launch", "app_search", "app_adopt"}
    ensures ServerTool(name, "", true) in Table(online, stored)
    ensures forall row | row in Table(online, stored) && row.name == name :: row.builtin
  {
    var b := ServerTool(name, "", true);
    assert b == BUILTINS[0] || b == BUILTINS[1] || b == BUILTINS[2] || b == BUILTINS[3];
    TableNamesDistinct(online, stored);
  }

  /** Nothing else is built in. */
  lemma OnlyBuiltins(online: seq<App>, stored: seq<App>, row: ServerTool)
    requires ValidApps(online) && ValidApps(stored) && row in Table(online, stored) && row.builtin
    ensures row.name in {"app_list", "app_launch", "app_search", "app_adopt"}
  {
    TableLists(online, stored, row);
  }

  /** Every tool of a shown app has its row, unless it is one of these four. */
  lemma EveryToolListed(online: seq<App>, stored: seq<App>, a: App, t: Tool, offline: bool)
    requires Shown(online, stored, a, offline) && t in a.tools
    requires a.appID + "_" + t.name !in {"app_list", "app_launch", "app_search", "app_adopt"}
    ensures exists row :: row in Table(online, stored) && row.name == a.appID + "_" + t.name && !row.builtin
  {
    var row := Row(a, t, offline);
    assert "app" + "_" + "list" == "app_list" && "app" + "_" + "launch" == "app_launch";
    assert "app" + "_" + "search" == "app_search" && "app" + "_" + "adopt" == "app_adopt";
    assert RowOf(row, a, a.tools, offline);
    TableLists(online, stored, row);
  }
}
