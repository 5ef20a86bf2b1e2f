/** What every run of the hub keeps. */
module HubProofs {
  import opened Runs
  import opened Messages
  import opened Hub
  import Dispatch
  import DispatchProofs

  /** The counter is the number of running handlers and stays within the limit. */
  ghost predicate ConnsInv(s: State) {
    s.conns == |s.handlers| <= MaxConnections(s.configured)
  }

  /** A registry entry belongs to a running handler that holds its app, exactly
      unless its register_ack could not be sent. */
  ghost predicate OwnerInv(s: State) {
    && s.handlers.Keys <= s.used && s.unacked <= s.used && s.unacked !! s.handlers.Keys
    && forall a | a in s.apps ::
         var c := s.apps[a];
         if c in s.unacked then c !in s.handlers else c in s.handlers && s.handlers[c] == Some(a)
  }

  ghost predicate Inv(s: State) {
    ConnsInv(s) && OwnerInv(s) && DispatchProofs.Inv(s.calls)
  }

  lemma HandlerCount(handlers: map<nat, Option<string>>, conn: nat, held: Option<string>)
    ensures |handlers - {conn}| == |handlers| - if conn in handlers then 1 else 0
    ensures |handlers[conn := held]| == |handlers| + if conn in handlers then 0 else 1
  {
    assert (handlers - {conn}).Keys == handlers.Keys - {conn};
    assert |handlers - {conn}| == |(handlers - {conn}).Keys|;
    assert handlers[conn := held].Keys == handlers.Keys + {conn};
    assert |handlers[conn := held]| == |handlers[conn := held].Keys|;
  }

  lemma ClosedCount(s: State, conn: nat)
    requires ConnsInv(s) && conn in s.handlers
    ensures ConnsInv(Closed(s, conn))
  {
    HandlerCount(s.handlers, conn, None);
  }

  lemma RegisteredCount(s: State, conn: nat, p: Payload, issued: Option<string>, saved: bool, acked: bool)
    requires ConnsInv(s) && conn in s.handlers
    ensures ConnsInv(Registered(s, conn, p, issued, saved, acked))
  {
    var t := s.(tokens := TokensAfter(s.tokens, p, issued));
    var u := Replaced(t, p.appID);
    var v := u.(apps := u.apps[p.appID := conn], unacked := u.unacked + {conn});
    assert ConnsInv(v);
    ClosedCount(t, conn);
    ClosedCount(v, conn);
    HandlerCount(s.handlers, conn, Some(p.appID));
  }

  lemma ConnsKept(s: State, a: Step)
    requires ConnsInv(s) && OwnerInv(s) && Enabled(s, a)
    ensures ConnsInv(Apply(s, a))
  {
    match a
    case Connect(conn) => HandlerCount(s.handlers, conn, None);
    case Close(conn) => ClosedCount(s, conn);
    case Register(conn, p, issued, saved, acked) => RegisteredCount(s, conn, p, issued, saved, acked);
    case _ =>
  }

  lemma ClosedOwner(s: State, conn: nat)
    requires OwnerInv(s) && conn in s.handlers
    ensures OwnerInv(Closed(s, conn))
  {
  }

  lemma RegisteredOwner(s: State, conn: nat, p: Payload, issued: Option<string>, saved: bool, acked: bool)
    requires OwnerInv(s) && conn in s.handlers
    ensures OwnerInv(Registered(s, conn, p, issued, saved, acked))
  {
    var t := s.(tokens := TokensAfter(s.tokens, p, issued));
    ClosedOwner(t, conn);
    if s.handlers[conn].None? && Judge(s.tokens, p, issued, saved).Admitted? {
      EntryOwner(t, conn, p.appID, acked);
    }
  }

  /** Replacing the entry of `appID`; without the acknowledgement the connection ends. */
  lemma EntryOwner(s: State, conn: nat, appID: string, acked: bool)
    requires OwnerInv(s) && conn in s.handlers && s.handlers[conn].None?
    ensures OwnerInv(Entered(s, conn, appID, acked))
  {
  }

  lemma OwnerKept(s: State, a: Step)
    requires OwnerInv(s) && Enabled(s, a)
    ensures OwnerInv(Apply(s, a))
  {
    match a
    case Close(conn) => ClosedOwner(s, conn);
    case Register(conn, p, issued, saved, acked) => RegisteredOwner(s, conn, p, issued, saved, acked);
    case _ =>
  }

  /** What a hub step does to the tool calls: its own call step, the failure of
      the app whose entry goes, or nothing. */
  ghost function CallOf(s: State, a: Step): Option<Dispatch.Step>
    requires Enabled(s, a)
  {
    match a
    case Call(call) => Some(call)
    case Close(conn) =>
      (match s.handlers[conn]
       case None => None
       case Some(appID) =>
         if appID in s.apps && s.apps[appID] == conn then Some(Dispatch.FailAll(appID, CONNECTION_LOST, "")) else None)
    case Register(conn, p, issued, saved, acked) =>
      if s.handlers[conn].None? && Judge(s.tokens, p, issued, saved).Admitted? && p.appID in s.apps
      then Some(Dispatch.FailAll(p.appID, APP_REPLACED, "")) else None
    case _ => None
  }

  /** A hub step is at most one step of the tool-call protocol. */
  lemma CallsStep(s: State, a: Step)
    requires Enabled(s, a)
    ensures match CallOf(s, a)
            case None => Apply(s, a).calls == s.calls
            case Some(call) => Dispatch.Next(s.calls, call, Apply(s, a).calls)
  {
  }

  lemma StepKeeps(s: State, a: Step, t: State)
    requires Inv(s) && Next(s, a, t)
    ensures Inv(t)
  {
    ConnsKept(s, a);
    OwnerKept(s, a);
    CallsStep(s, a);
    if CallOf(s, a).Some? {
      DispatchProofs.StepKeeps(s.calls, CallOf(s, a).value, t.calls);
    }
  }

  ghost predicate IsHubRun(r: Run<State, Step>) {
    IsRun(Init, Next, r)
  }

  lemma Reachable(r: Run<State, Step>, i: nat)
    requires IsHubRun(r) && i < |r.states|
    ensures Inv(r.states[i])
  {
    forall s | Init(s) ensures Inv(s) {}
    forall s, a, t | Inv(s) && Next(s, a, t) ensures Inv(t) { StepKeeps(s, a, t); }
    Invariant(Init, Next, Inv, r);
  }

  // --- registration and teardown -------------------------------------------

  /** Step `i` registers `appID` on `conn` and acknowledges `token`. */
  ghost predicate Acknowledges(r: Run<State, Step>, i: nat, conn: nat, appID: string, token: string) {
    && i < |r.steps| < |r.states|
    && r.steps[i].Register? && r.steps[i].conn == conn && r.steps[i].p.appID == appID && r.steps[i].acked
    && conn in r.states[i].handlers && r.states[i].handlers[conn].None?
    && Judge(r.states[i].tokens, r.steps[i].p, r.steps[i].issued, r.steps[i].saved) == Admitted(token)
  }

  /** At every moment: the connection counter counts the running handlers and is
      within the limit, and a registry entry belongs to a running handler that
      holds its app iff its acknowledgement could be sent. */
  lemma EntriesAreOwned(r: Run<State, Step>, i: nat)
    requires IsHubRun(r) && i < |r.states|
    ensures var s := r.states[i];
      && s.conns == |s.handlers| <= (if s.configured > 0 then s.configured else 100)
      && forall a | a in s.apps ::
           s.apps[a] in s.handlers && s.handlers[s.apps[a]] == Some(a) <==> s.apps[a] !in s.unacked
  {
    Reachable(r, i);
  }

  /** A registered connection keeps its entry until it closes or the app is
      registered anew, whatever the connections it replaced do. */
  lemma SuccessorSurvives(r: Run<State, Step>, i: nat, j: nat, conn: nat, appID: string, token: string)
    requires IsHubRun(r) && i < j < |r.states|
    requires Acknowledges(r, i, conn, appID, token)
    requires forall k | i < k < j :: r.steps[k] != Close(conn)
    requires forall k | i < k < j :: r.steps[k].Register? ==> r.steps[k].p.appID != appID
    ensures appID in r.states[j].apps && r.states[j].apps[appID] == conn
    ensures conn in r.states[j].handlers && r.states[j].handlers[conn] == Some(appID)
  {
    Reachable(r, i);
    assert Next(r.states[i], r.steps[i], r.states[i + 1]);
    var allowed := (a: Step) => a != Close(conn) && (a.Register? ==> a.p.appID != appID);
    var fact := (s: State) => Owns(s, conn, appID);
    forall s, a, t | fact(s) && Next(s, a, t) && allowed(a) ensures fact(t) {
      EntryKept(s, a, conn, appID);
    }
    Lasts(Init, Next, allowed, fact, r, i + 1, j);
  }

  /** The connection holds the app and owns its entry. */
  ghost predicate Owns(s: State, conn: nat, appID: string) {
    && appID in s.apps && s.apps[appID] == conn && conn in s.used
    && conn in s.handlers && s.handlers[conn] == Some(appID)
  }

  lemma ClosedKeepsOwner(s: State, other: nat, conn: nat, appID: string)
    requires Owns(s, conn, appID) && other in s.handlers && other != conn
    ensures Owns(Closed(s, other), conn, appID)
  {
  }

  lemma EnteredKeepsOwner(s: State, other: nat, otherApp: string, acked: bool, conn: nat, appID: string)
    requires Owns(s, conn, appID) && other in s.handlers && s.handlers[other].None? && otherApp != appID
    ensures Owns(Entered(s, other, otherApp, acked), conn, appID)
  {
  }

  lemma EntryKept(s: State, a: Step, conn: nat, appID: string)
    requires Enabled(s, a) && Owns(s, conn, appID)
    requires a != Close(conn) && (a.Register? ==> a.p.appID != appID)
    ensures Owns(Apply(s, a), conn, appID)
  {
    match a
    case Close(other) => ClosedKeepsOwner(s, other, conn, appID);
    case Register(other, p, issued, _, acked) =>
      if s.handlers[other].None? {
        var t := s.(tokens := TokensAfter(s.tokens, p, issued));
        ClosedKeepsOwner(t, other, conn, appID);
        EnteredKeepsOwner(t, other, p.appID, acked, conn, appID);
      }
    case _ =>
  }

  /** Step `i` registers `appID`, replacing its entry, whether the acknowledgement
      can be sent or not. */
  ghost predicate Replaces(r: Run<State, Step>, i: nat, appID: string) {
    && i < |r.steps| < |r.states|
    && r.steps[i].Register? && r.steps[i].p.appID == appID && appID in r.states[i].apps
    && r.steps[i].conn in r.states[i].handlers && r.states[i].handlers[r.steps[i].conn].None?
    && Judge(r.states[i].tokens, r.steps[i].p, r.steps[i].issued, r.steps[i].saved).Admitted?
  }

  /** How a failed call is told what happened. */
  function TeardownCode(a: Step): (code: string)
    ensures a.Close? ==> code == "CONNECTION_LOST"
    ensures !a.Close? ==> code == "APP_REPLACED"
  {
    if a.Close? then CONNECTION_LOST else APP_REPLACED
  }

  /** When a connection that holds an entry closes, or is replaced, the entry
      goes, every pending request of its app leaves the table with a value to
      read, and every other request is left as it was. */
  lemma TeardownWakesItsCalls(r: Run<State, Step>, i: nat, appID: string, id: string)
    requires IsHubRun(r) && i < |r.steps|
    requires id in r.states[i].calls.requests && appID in r.states[i].apps
    requires r.steps[i] == Close(r.states[i].apps[appID]) || Replaces(r, i, appID)
    ensures var s, t := r.states[i].calls, r.states[i + 1].calls;
      && id in t.requests
      && (if id in s.pending && s.requests[id].app == appID
          then
            && id !in t.pending
            && t.requests[id].response
               == (if s.requests[id].response.Some? then s.requests[id].response
                   else Some(ResultMessage(id, false, "", Some(ErrorInfo(TeardownCode(r.steps[i]), "")))))
          else t.requests[id] == s.requests[id] && (id in t.pending <==> id in s.pending))
    ensures appID !in r.states[i + 1].apps || r.states[i + 1].apps[appID] != r.states[i].apps[appID]
  {
    Reachable(r, i);
    assert Next(r.states[i], r.steps[i], r.states[i + 1]);
    var s := r.states[i];
    assert r.states[i + 1].calls
        == FailCalls(s.calls, appID, if r.steps[i].Close? then CONNECTION_LOST else APP_REPLACED);
  }

  /** The end of a connection removes exactly the entries that name it, and with
      none it changes no request either. */
  lemma CloseRemovesOwnEntry(r: Run<State, Step>, i: nat)
    requires IsHubRun(r) && i < |r.steps| && r.steps[i].Close?
    ensures var s, t, conn := r.states[i], r.states[i + 1], r.steps[i].conn;
      && t.apps == (map a | a in s.apps && s.apps[a] != conn :: s.apps[a])
      && ((forall a | a in s.apps :: s.apps[a] != conn) ==> t.calls == s.calls)
  {
    Reachable(r, i);
    assert Next(r.states[i], r.steps[i], r.states[i + 1]);
  }

  /** The end of a connection that was replaced changes neither the registry nor
      any request, whoever registered in the meantime. */
  lemma ReplacedCloseIsHarmless(r: Run<State, Step>, i: nat, k: nat, j: nat, conn: nat, appID: string, token: string)
    requires IsHubRun(r) && i < k < j < |r.steps|
    requires Acknowledges(r, i, conn, appID, token)
    requires Replaces(r, k, appID) && r.steps[k].conn != conn && r.steps[j] == Close(conn)
    ensures r.states[j + 1].apps == r.states[j].apps && r.states[j + 1].calls == r.states[j].calls
    ensures r.states[j + 1].handlers == r.states[j].handlers - {conn}
  {
    Reachable(r, i);
    assert Next(r.states[i], r.steps[i], r.states[i + 1]);
    var any := (a: Step) => true;
    var holds := (s: State) => Holds(s, conn, appID);
    forall s, a, t | holds(s) && Next(s, a, t) ensures holds(t) { HoldsOn(s, a, conn, appID); }
    Lasts(Init, Next, any, holds, r, i + 1, k);
    assert Next(r.states[k], r.steps[k], r.states[k + 1]);
    var superseded := (s: State) => Superseded(s, conn, appID);
    forall s, a, t | superseded(s) && Next(s, a, t) ensures superseded(t) { SupersededForGood(s, a, conn, appID); }
    Lasts(Init, Next, any, superseded, r, k + 1, j);
    Reachable(r, j);
    assert Next(r.states[j], r.steps[j], r.states[j + 1]);
  }

  /** If it still runs, the connection holds the app. */
  ghost predicate Holds(s: State, conn: nat, appID: string) {
    conn in s.used && (conn in s.handlers ==> s.handlers[conn] == Some(appID))
  }

  ghost predicate Superseded(s: State, conn: nat, appID: string) {
    Holds(s, conn, appID) && (appID in s.apps ==> s.apps[appID] != conn)
  }

  lemma HoldsOn(s: State, a: Step, conn: nat, appID: string)
    requires Holds(s, conn, appID) && Enabled(s, a)
    ensures Holds(Apply(s, a), conn, appID)
  {
  }

  lemma SupersededForGood(s: State, a: Step, conn: nat, appID: string)
    requires Superseded(s, conn, appID) && Enabled(s, a)
    ensures Superseded(Apply(s, a), conn, appID)
  {
    HoldsOn(s, a, conn, appID);
  }

  lemma RefusedEffect(s: State, conn: nat, p: Payload, issued: Option<string>, saved: bool, acked: bool)
    requires conn in s.handlers && s.handlers[conn].None? && Judge(s.tokens, p, issued, saved).Refused?
    ensures var t := Registered(s, conn, p, issued, saved, acked);
      && t.apps == s.apps && t.calls == s.calls && t.unacked == s.unacked
      && t.handlers == s.handlers - {conn} && t.conns == s.conns - 1
      && (saved ==> t.tokens == s.tokens)
  {
  }

  lemma AdmittedEffect(s: State, conn: nat, p: Payload, issued: Option<string>, saved: bool, acked: bool)
    requires conn in s.handlers && s.handlers[conn].None? && Judge(s.tokens, p, issued, saved).Admitted?
    ensures var t := Registered(s, conn, p, issued, saved, acked);
      p.appID in t.apps && t.apps[p.appID] == conn && t.apps - {p.appID} == s.apps - {p.appID}
  {
    var u := s.(tokens := TokensAfter(s.tokens, p, issued));
    assert Entered(u, conn, p.appID, acked).apps == (s.apps - {p.appID})[p.appID := conn];
  }

  /** A registration on a connection without an app gives it the app's entry iff
      it is admitted; no other app's entry changes. A refused one ends its
      connection and changes no entry, no request and, if tokens can be saved, no token. */
  lemma TakesEffectIffAdmitted(r: Run<State, Step>, i: nat)
    requires IsHubRun(r) && i < |r.steps| && r.steps[i].Register?
    requires r.steps[i].conn in r.states[i].handlers && r.states[i].handlers[r.steps[i].conn].None?
    ensures var s, t, a := r.states[i], r.states[i + 1], r.steps[i];
      && (Judge(s.tokens, a.p, a.issued, a.saved).Admitted? <==> a.p.appID in t.apps && t.apps[a.p.appID] == a.conn)
      && t.apps - {a.p.appID} == s.apps - {a.p.appID}
    ensures var s, t, a := r.states[i], r.states[i + 1], r.steps[i];
      Judge(s.tokens, a.p, a.issued, a.saved).Refused? ==>
        && t.apps == s.apps && t.calls == s.calls && t.unacked == s.unacked
        && t.handlers == s.handlers - {a.conn} && t.conns == s.conns - 1
        && (a.saved ==> t.tokens == s.tokens)
  {
    Reachable(r, i);
    var s, a := r.states[i], r.steps[i];
    assert Next(s, a, r.states[i + 1]);
    if Judge(s.tokens, a.p, a.issued, a.saved).Refused? {
      RefusedEffect(s, a.conn, a.p, a.issued, a.saved, a.acked);
    } else {
      AdmittedEffect(s, a.conn, a.p, a.issued, a.saved, a.acked);
    }
  }

  // --- token pinning -------------------------------------------------------

  lemma TokenKept(s: State, a: Step, appID: string)
    requires Enabled(s, a) && appID in s.tokens
    requires !(a.Rotate? && a.appID == appID)
    ensures appID in Apply(s, a).tokens && Apply(s, a).tokens[appID] == s.tokens[appID]
  {
  }

  /** An app's token changes only when it is rotated. */
  lemma TokenPinned(r: Run<State, Step>, i: nat, j: nat, appID: string)
    requires IsHubRun(r) && i <= j < |r.states|
    requires appID in r.states[i].tokens
    requires forall k | i <= k < j :: !(r.steps[k].Rotate? && r.steps[k].appID == appID)
    ensures appID in r.states[j].tokens && r.states[j].tokens[appID] == r.states[i].tokens[appID]
  {
    var token := r.states[i].tokens[appID];
    var allowed := (a: Step) => !(a.Rotate? && a.appID == appID);
    var fact := (s: State) => appID in s.tokens && s.tokens[appID] == token;
    forall s, a, t | fact(s) && Next(s, a, t) && allowed(a) ensures fact(t) {
      TokenKept(s, a, appID);
    }
    Lasts(Init, Next, allowed, fact, r, i, j);
  }

  /** Once an app was acknowledged a token, and until a rotation: a well-formed
      registration of the app is admitted iff it presents that token, and is
      acknowledged the same token again. */
  lemma AdmittedIffPinnedToken(r: Run<State, Step>, i: nat, j: nat, conn: nat, appID: string, token: string)
    requires IsHubRun(r) && i < j < |r.steps|
    requires Acknowledges(r, i, conn, appID, token)
    requires r.steps[j].Register? && r.steps[j].p.appID == appID && Malformed(r.steps[j].p).None?
    requires forall k | i < k < j :: !(r.steps[k].Rotate? && r.steps[k].appID == appID)
    ensures Judge(r.states[j].tokens, r.steps[j].p, r.steps[j].issued, r.steps[j].saved)
         == if r.steps[j].p.authToken == token then Admitted(token) else Refused(AuthFailed)
  {
    assert Next(r.states[i], r.steps[i], r.states[i + 1]);
    assert r.states[i + 1].tokens == TokensAfter(r.states[i].tokens, r.steps[i].p, r.steps[i].issued);
    TokenPinned(r, i + 1, j, appID);
  }

  /** After a rotation, and until the next one, only the new token is admitted. */
  lemma OnlyRotatedTokenAdmitted(r: Run<State, Step>, i: nat, j: nat)
    requires IsHubRun(r) && i < j < |r.steps|
    requires r.steps[i].Rotate? && r.steps[i].appID in r.states[i].tokens && r.steps[i].issued.Some?
    requires r.steps[j].Register? && r.steps[j].p.appID == r.steps[i].appID && Malformed(r.steps[j].p).None?
    requires forall k | i < k < j :: !(r.steps[k].Rotate? && r.steps[k].appID == r.steps[i].appID)
    ensures var token := r.steps[i].issued.value;
      Judge(r.states[j].tokens, r.steps[j].p, r.steps[j].issued, r.steps[j].saved)
      == if r.steps[j].p.authToken == token then Admitted(token) else Refused(AuthFailed)
  {
    assert Next(r.states[i], r.steps[i], r.states[i + 1]);
    TokenPinned(r, i + 1, j, r.steps[i].appID);
  }

  /** A first registration pins its token even if the token could not be saved or
      acknowledged, so that nobody was told it: until a rotation every later
      well-formed registration is refused unless it presents that very token. */
  lemma UntoldTokenLocksOut(r: Run<State, Step>, i: nat, j: nat, token: string)
    requires IsHubRun(r) && i < j < |r.steps|
    requires r.steps[i].Register? && r.steps[i].issued == Some(token) && !(r.steps[i].saved && r.steps[i].acked)
    requires r.steps[i].conn in r.states[i].handlers && r.states[i].handlers[r.steps[i].conn].None?
    requires Malformed(r.steps[i].p).None? && r.steps[i].p.appID !in r.states[i].tokens
    requires r.steps[j].Register? && r.steps[j].p.appID == r.steps[i].p.appID && Malformed(r.steps[j].p).None?
    requires forall k | i < k < j :: !(r.steps[k].Rotate? && r.steps[k].appID == r.steps[i].p.appID)
    ensures r.steps[i].conn !in r.states[i + 1].handlers
    ensures Judge(r.states[j].tokens, r.steps[j].p, r.steps[j].issued, r.steps[j].saved)
         == if r.steps[j].p.authToken == token then Admitted(token) else Refused(AuthFailed)
  {
    assert Next(r.states[i], r.steps[i], r.states[i + 1]);
    assert r.states[i + 1].tokens == TokensAfter(r.states[i].tokens, r.steps[i].p, r.steps[i].issued);
    TokenPinned(r, i + 1, j, r.steps[i].p.appID);
  }
}
