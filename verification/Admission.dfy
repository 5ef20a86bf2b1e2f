/** Who gets in: connections, registrations and the ids that follow from them (hub.go). */
module Admission {
  import opened Runs
  import opened Names
  import opened Hub
  import opened HubProofs
  import ToolTable

  // --- what registration accepts -------------------------------------------

  /** ASCII lower-case letters, digits and the dash, by code point. */
  predicate IDChar(c: char) {
    97 <= c as int <= 122 || 48 <= c as int <= 57 || c as int == 45
  }

  /** Those, upper-case letters and the underscore. */
  predicate NameChar(c: char) {
    IDChar(c) || 65 <= c as int <= 90 || c as int == 95
  }

  predicate GoodID(s: string) {
    1 <= |s| <= 48 && forall c | c in s :: IDChar(c)
  }

  predicate GoodName(s: string) {
    1 <= |s| <= 78 && forall c | c in s :: NameChar(c)
  }

  /** Version 1, with or without a minor part. */
  predicate GoodVersion(version: string) {
    version == "1" || "1." <= version
  }

  ghost predicate GoodTools(tools: seq<string>) {
    && (forall t | t in tools :: GoodName(t))
    && (forall i, j | 0 <= i < j < |tools| :: tools[i] != tools[j])
  }

  lemma GoodIDs(s: string)
    ensures IsAppID(s) <==> GoodID(s)
  {
    assert forall i | 0 <= i < |s| :: s[i] in s;
    assert forall c | c in s :: IsAppIDChar(c) <==> IDChar(c);
  }

  lemma GoodNames(s: string)
    ensures IsToolName(s) <==> GoodName(s)
  {
    assert forall i | 0 <= i < |s| :: s[i] in s;
    assert forall c | c in s :: IsToolNameChar(c) <==> NameChar(c);
  }

  /** The major part is what stands before the first dot, or everything. */
  lemma MajorOf(a: string, b: string)
    requires '.' !in a
    ensures Major(a) == a && Major(a + ("." + b)) == a
  {
    var v := a + ("." + b);
    assert v[|a|] == '.';
    var i := IndexOf(v, '.');
    assert forall k | 0 <= k < |a| :: v[k] == a[k];
    assert forall k | 0 <= k < i :: v[k] in v[..i];
    assert v[..|a|] == a;
  }

  lemma GoodVersions(version: string)
    ensures Major(version) == Major(SUPPORTED_VERSION) <==> GoodVersion(version)
  {
    MajorOf("1", "0");
    assert SUPPORTED_VERSION == "1" + ("." + "0");
    var i := IndexOf(version, '.');
    if i >= 0 {
      assert version == version[..i] + ("." + version[i + 1..]);
    }
    if "1." <= version {
      assert version == "1" + ("." + version[2..]);
      MajorOf("1", version[2..]);
    }
  }

  lemma GoodToolLists(tools: seq<string>)
    ensures ToolsValid(tools) <==> GoodTools(tools)
  {
    forall t | t in tools ensures IsToolName(t) <==> GoodName(t) {
      GoodNames(t);
    }
  }

  /** The first objection to a payload, before its token is looked at. */
  ghost function Objection(p: Payload): Option<ErrorCode> {
    if !GoodVersion(p.protocolVersion) then Some(UnsupportedVersion)
    else if !GoodID(p.appID) then Some(InvalidAppID)
    else if !GoodTools(p.tools) then Some(InvalidTool)
    else None
  }

  /** A registration is admitted iff its version is 1, its id and its tool names
      are good, no tool name is repeated, and it presents the app's token, or the
      app has none and a new one can be issued and saved. It is told that token.
      Otherwise it is refused with the code of the first objection, or for its token. */
  lemma AdmittedIff(tokens: map<string, string>, p: Payload, issued: Option<string>, saved: bool)
    ensures var verdict := Judge(tokens, p, issued, saved);
      && (verdict.Admitted? <==>
            && GoodVersion(p.protocolVersion) && GoodID(p.appID) && GoodTools(p.tools)
            && (if p.appID in tokens then p.authToken == tokens[p.appID] else issued.Some? && saved))
      && (verdict.Admitted? ==> Some(verdict.token) == if p.appID in tokens then Some(tokens[p.appID]) else issued)
      && (verdict.Refused? ==> Some(verdict.code) == if Objection(p).Some? then Objection(p) else Some(AuthFailed))
  {
    GoodVersions(p.protocolVersion);
    GoodIDs(p.appID);
    GoodToolLists(p.tools);
  }

  // --- in every run --------------------------------------------------------

  /** Every registered app, and every app a handler holds, has a good id. */
  ghost predicate IDsGood(s: State) {
    && (forall a | a in s.apps :: GoodID(a))
    && (forall c | c in s.handlers && s.handlers[c].Some? :: GoodID(s.handlers[c].value))
  }

  lemma IDsStayGood(s: State, a: Step)
    requires IDsGood(s) && Enabled(s, a)
    ensures IDsGood(Apply(s, a))
  {
    if a.Register? {
      AdmittedIff(s.tokens, a.p, a.issued, a.saved);
    }
  }

  lemma RegisteredIDsAreGood(r: Run<State, Step>, i: nat)
    requires IsHubRun(r) && i < |r.states|
    ensures forall a | a in r.states[i].apps :: GoodID(a)
    ensures forall c | c in r.states[i].handlers && r.states[i].handlers[c].Some? ::
              GoodID(r.states[i].handlers[c].value)
  {
    forall s | Init(s) ensures IDsGood(s) {}
    forall s, a, t | IDsGood(s) && Next(s, a, t) ensures IDsGood(t) { IDsStayGood(s, a); }
    Invariant(Init, Next, IDsGood, r);
  }

  /** Step `k` admits the registration of this app with these tools. */
  ghost predicate AdmitsApp(r: Run<State, Step>, k: nat, app: ToolTable.App) {
    && k < |r.steps| < |r.states| && r.steps[k].Register?
    && Judge(r.states[k].tokens, r.steps[k].p, r.steps[k].issued, r.steps[k].saved).Admitted?
    && r.steps[k].p.appID == app.appID && r.steps[k].p.tools == ToolNames(app.tools)
  }

  function ToolNames(tools: seq<ToolTable.Tool>): (names: seq<string>)
    ensures |names| == |tools| && forall i | 0 <= i < |tools| :: names[i] == tools[i].name
  {
    seq(|tools|, i requires 0 <= i < |tools| => tools[i].name)
  }

  lemma AdmittedAppIsValid(r: Run<State, Step>, k: nat, app: ToolTable.App)
    requires AdmitsApp(r, k, app)
    ensures ToolTable.ValidApp(app)
  {
    var a := r.steps[k];
    AdmittedIff(r.states[k].tokens, a.p, a.issued, a.saved);
    GoodIDs(app.appID);
    GoodToolLists(a.p.tools);
    forall t | t in app.tools ensures IsToolName(t.name) {
      var i :| 0 <= i < |app.tools| && app.tools[i] == t;
      assert a.p.tools[i] == t.name;
    }
    forall i, j | 0 <= i < j < |app.tools| ensures app.tools[i].name != app.tools[j].name {
      assert a.p.tools[i] != a.p.tools[j];
    }
  }

  /** So the tool table of apps that registered in a hub run, one entry for each
      id, has pairwise distinct names. */
  lemma RegisteredAppsGiveDistinctNames(r: Run<State, Step>, online: seq<ToolTable.App>, stored: seq<ToolTable.App>)
    requires forall a | a in online || a in stored :: exists k :: AdmitsApp(r, k, a)
    requires forall i, j | 0 <= i < j < |online| :: online[i].appID != online[j].appID
    requires forall i, j | 0 <= i < j < |stored| :: stored[i].appID != stored[j].appID
    ensures ToolTable.Distinct(ToolTable.Table(online, stored))
  {
    forall a | a in online || a in stored ensures ToolTable.ValidApp(a) {
      var k :| AdmitsApp(r, k, a);
      AdmittedAppIsValid(r, k, a);
    }
    ToolTable.TableNamesDistinct(online, stored);
  }

  /** A new connection is taken iff the hub has not stopped and there is room. */
  lemma ConnectedIffRoom(r: Run<State, Step>, i: nat, conn: nat)
    requires IsHubRun(r) && i < |r.steps| && r.steps[i] == Connect(conn)
    ensures var s, t := r.states[i], r.states[i + 1];
      && (conn in t.handlers <==> !s.stopped && |s.handlers| < (if s.configured > 0 then s.configured else 100))
      && t.handlers - {conn} == s.handlers && (conn in t.handlers ==> t.handlers[conn] == None)
  {
    Reachable(r, i);
    assert Next(r.states[i], r.steps[i], r.states[i + 1]);
  }

  /** After a shutdown nobody new comes in. */
  lemma NobodyAfterShutdown(r: Run<State, Step>, i: nat, j: nat)
    requires IsHubRun(r) && i < j < |r.states| && r.steps[i].Shutdown?
    ensures r.states[j].handlers.Keys <= r.states[i].handlers.Keys
  {
    assert Next(r.states[i], r.steps[i], r.states[i + 1]);
    var before := r.states[i].handlers.Keys;
    var fact := (s: State) => s.stopped && s.handlers.Keys <= before;
    forall s, a, t | fact(s) && Next(s, a, t) ensures fact(t) { StoppedStays(s, a); }
    Lasts(Init, Next, (a: Step) => true, fact, r, i + 1, j);
  }

  lemma StoppedStays(s: State, a: Step)
    requires s.stopped && Enabled(s, a)
    ensures Apply(s, a).stopped && Apply(s, a).handlers.Keys <= s.handlers.Keys
  {
  }

  /** Step `k` is the first admissible payload of an app for which a token is issued. */
  ghost predicate Issues(r: Run<State, Step>, k: nat, appID: string) {
    && k < |r.steps| < |r.states| && r.steps[k].Register? && r.steps[k].p.appID == appID
    && Objection(r.steps[k].p).None? && r.steps[k].issued.Some?
  }

  lemma NoTokenStep(s: State, a: Step, appID: string)
    requires Enabled(s, a) && appID !in s.tokens && appID in Apply(s, a).tokens
    ensures a.Register? && a.p.appID == appID && Objection(a.p).None? && a.issued.Some?
    ensures Apply(s, a).tokens[appID] == a.issued.value
  {
    if a.Register? {
      GoodVersions(a.p.protocolVersion);
      GoodIDs(a.p.appID);
      GoodToolLists(a.p.tools);
    }
  }

  /** An app has a token only from its own well-formed registration. */
  lemma {:induction false} TokenWasIssued(r: Run<State, Step>, i: nat, j: nat, appID: string) returns (k: nat)
    requires IsHubRun(r) && i <= j < |r.states|
    requires appID !in r.states[i].tokens && appID in r.states[j].tokens
    ensures i <= k < j && Issues(r, k, appID)
  {
    assert Next(r.states[j - 1], r.steps[j - 1], r.states[j]);
    if appID in r.states[j - 1].tokens {
      k := TokenWasIssued(r, i, j - 1, appID);
    } else {
      k := j - 1;
      NoTokenStep(r.states[k], r.steps[k], appID);
    }
  }
}
