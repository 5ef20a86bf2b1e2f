/**
  Connections, registration, replacement and teardown (hub.go), with the token
  table and the tool-call protocol they act on. Each connection handler's
  reaction to one message is one step here; tool calls keep their own finer
  steps and interleave with these freely.
 */
module Hub {
  import opened Runs
  import opened Messages
  import opened Names
  import opened Orphans
  import opened Registry
  import Auth
  import Dispatch

  datatype ErrorCode = UnsupportedVersion | InvalidAppID | InvalidTool | AuthFailed

  datatype Payload = Payload(appID: string, protocolVersion: string, authToken: string, tools: seq<string>)

  const SUPPORTED_VERSION := "1.0"

  function Major(version: string): string {
    var i := IndexOf(version, '.');
    if i >= 0 then version[..i] else version
  }

  /** What registration demands of the tool list. */
  ghost predicate ToolsValid(tools: seq<string>) {
    && (forall t | t in tools :: IsToolName(t))
    && (forall i, j | 0 <= i < j < |tools| :: tools[i] != tools[j])
  }

  /** The loop with the `seen` set decides exactly that. */
  method CheckTools(tools: seq<string>) returns (ok: bool)
    ensures ok <==> ToolsValid(tools)
  {
    var seen: set<string> := {};
    for i := 0 to |tools|
      invariant seen == set t | t in tools[..i]
      invariant ToolsValid(tools[..i])
    {
      assert tools[i] in tools;
      if !IsToolName(tools[i]) {
        return false;
      }
      if tools[i] in seen {
        var j :| 0 <= j < i && tools[..i][j] == tools[i];
        return false;
      }
      seen := seen + {tools[i]};
      assert tools[..i + 1] == tools[..i] + [tools[i]];
    }
    assert tools[..|tools|] == tools;
    return true;
  }

  /** Why a payload is refused before its token is looked at. */
  ghost function Malformed(p: Payload): Option<ErrorCode> {
    if Major(p.protocolVersion) != Major(SUPPORTED_VERSION) then Some(UnsupportedVersion)
    else if !IsAppID(p.appID) then Some(InvalidAppID)
    else if !ToolsValid(p.tools) then Some(InvalidTool)
    else None
  }

  datatype Verdict = Refused(code: ErrorCode) | Admitted(token: string)

  /** `issued` is the new token, if the random source gives one. */
  ghost function Judge(tokens: Auth.Tokens, p: Payload, issued: Option<string>, saved: bool): Verdict {
    if Malformed(p).Some? then Refused(Malformed(p).value)
    else if p.appID !in tokens then
      (if issued.Some? && saved then Admitted(issued.value) else Refused(AuthFailed))
    else if p.authToken != tokens[p.appID] then Refused(AuthFailed)
    else Admitted(tokens[p.appID])
  }

  ghost function TokensAfter(tokens: Auth.Tokens, p: Payload, issued: Option<string>): Auth.Tokens {
    if Malformed(p).None? && p.appID !in tokens then Auth.Allocated(tokens, p.appID, issued) else tokens
  }

  // --- the system ----------------------------------------------------------

  /** `handlers` are the running connection loops, each with the app it holds;
      `apps` says which connection each registered application speaks on;
      `unacked` are the connections whose register_ack could not be sent. */
  datatype State = State(
    configured: int, conns: int, stopped: bool, used: set<nat>,
    handlers: map<nat, Option<string>>, apps: map<string, nat>, unacked: set<nat>,
    tokens: Auth.Tokens, calls: Dispatch.State)

  function MaxConnections(configured: int): nat {
    if configured <= 0 then 100 else configured
  }

  datatype Step =
    | Connect(conn: nat)
    | Register(conn: nat, p: Payload, issued: Option<string>, saved: bool, acked: bool)
    | Close(conn: nat)
    | Rotate(appID: string, issued: Option<string>)
    | Shutdown
    | Call(call: Dispatch.Step)

  ghost predicate Enabled(s: State, a: Step) {
    match a
    case Connect(conn) => conn !in s.used
    case Register(conn, _, _, _, _) => conn in s.handlers
    case Close(conn) => conn in s.handlers
    case Rotate(_, _) => true
    case Shutdown => true
    case Call(call) => !call.FailAll? && Dispatch.Enabled(s.calls, call)
  }

  function FailCalls(calls: Dispatch.State, appID: string, code: string): Dispatch.State {
    Dispatch.Apply(calls, Dispatch.FailAll(appID, code, ""))
  }

  /** The connection loop returns; it unregisters its app only if the registry
      still names this connection. */
  function Closed(s: State, conn: nat): State
    requires conn in s.handlers
  {
    var t := s.(handlers := s.handlers - {conn}, conns := s.conns - 1);
    match s.handlers[conn]
    case None => t
    case Some(appID) =>
      if appID in s.apps && s.apps[appID] == conn
      then t.(apps := s.apps - {appID}, calls := FailCalls(s.calls, appID, CONNECTION_LOST))
      else t
  }

  /** The old connection's requests fail and its entry makes way. */
  function Replaced(s: State, appID: string): State {
    if appID in s.apps then s.(apps := s.apps - {appID}, calls := FailCalls(s.calls, appID, APP_REPLACED)) else s
  }

  /** The entry names the connection; without the acknowledgement it ends. */
  function EntryGiven(s: State, conn: nat, appID: string, acked: bool): State
    requires conn in s.handlers
  {
    var v := s.(apps := s.apps[appID := conn]);
    if acked then v.(handlers := v.handlers[conn := Some(appID)])
    else Closed(v.(unacked := v.unacked + {conn}), conn)
  }

  function Entered(s: State, conn: nat, appID: string, acked: bool): State
    requires conn in s.handlers
  {
    EntryGiven(Replaced(s, appID), conn, appID, acked)
  }

  ghost function Registered(s: State, conn: nat, p: Payload, issued: Option<string>, saved: bool, acked: bool): State
    requires conn in s.handlers
  {
    if s.handlers[conn].Some? then s
    else
      var t := s.(tokens := TokensAfter(s.tokens, p, issued));
      if Judge(s.tokens, p, issued, saved).Refused? then Closed(t, conn)
      else Entered(t, conn, p.appID, acked)
  }

  ghost function Apply(s: State, a: Step): State
    requires Enabled(s, a)
  {
    match a
    case Connect(conn) =>
      if s.stopped || s.conns >= MaxConnections(s.configured) then s.(used := s.used + {conn})
      else s.(used := s.used + {conn}, conns := s.conns + 1, handlers := s.handlers[conn := None])
    case Register(conn, p, issued, saved, acked) => Registered(s, conn, p, issued, saved, acked)
    case Close(conn) => Closed(s, conn)
    case Rotate(appID, issued) => s.(tokens := Auth.Rotated(s.tokens, appID, issued))
    case Shutdown => s.(stopped := true)
    case Call(call) => s.(calls := Dispatch.Apply(s.calls, call))
  }

  ghost predicate Init(s: State) {
    && s.conns == 0 && s.handlers == map[] && s.apps == map[] && s.unacked == {}
    && Dispatch.Init(s.calls)
  }

  ghost predicate Next(s: State, a: Step, t: State) {
    Enabled(s, a) && t == Apply(s, a)
  }

  // --- the object ----------------------------------------------------------

  ghost function HandedOver(c: Dispatch.State, conn: nat): Dispatch.State
    requires Dispatch.Enabled(c, Dispatch.Complete(conn))
  {
    Dispatch.Apply(Dispatch.Apply(c, Dispatch.Complete(conn)), Dispatch.Deliver(conn))
  }

  /** A result handler that nobody interrupts. */
  ghost function ResultHandled(c: Dispatch.State, conn: nat, appID: string, res: ResultMessage): Dispatch.State
    requires conn !in c.handlers && c.pending <= c.requests.Keys
  {
    var found := Dispatch.Apply(c, Dispatch.ResultArrives(conn, appID, res));
    if res.requestID !in c.pending then found
    else HandedOver(found, conn)
  }

  ghost function AnswerPassedOn(c: Dispatch.State, conn: nat): Dispatch.State
    requires Dispatch.Enabled(c, Dispatch.CheckPhase(conn))
  {
    var checked := Dispatch.Apply(c, Dispatch.CheckPhase(conn));
    if conn in checked.handlers then Dispatch.Apply(checked, Dispatch.OfferConfirm(conn)) else checked
  }

  /** A confirmation handler that nobody interrupts. */
  ghost function AnswerHandled(c: Dispatch.State, conn: nat, id: string, confirmed: bool): Dispatch.State
    requires conn !in c.handlers && c.pending <= c.requests.Keys
  {
    var found := Dispatch.Apply(c, Dispatch.ConfirmArrives(conn, id, confirmed));
    if id !in c.pending then found
    else AnswerPassedOn(found, conn)
  }

  /** Each method carries out one step, except the two that handle a whole message
      without interruption. The local variable `app` of a connection loop is its
      entry in `handlers`; the tool calls are those of the registry. */
  class Hub {
    const configured: int
    const auth: Auth.Store
    const reg: Registry
    var conns: int
    var stopped: bool
    var apps: map<string, nat>
    ghost var used: set<nat>
    ghost var handlers: map<nat, Option<string>>
    ghost var unacked: set<nat>

    ghost function View(): State
      reads this, auth, reg
    {
      State(configured, conns, stopped, used, handlers, apps, unacked, auth.tokens, reg.calls)
    }

    constructor (configured: int, auth: Auth.Store, reg: Registry)
      requires Dispatch.Init(reg.calls)
      ensures Init(View()) && this.auth == auth && this.reg == reg && this.configured == configured && !stopped
    {
      this.configured, this.auth, this.reg := configured, auth, reg;
      conns, stopped, apps := 0, false, map[];
      used, handlers, unacked := {}, map[], {};
    }

    method ServeWS(conn: nat) returns (admitted: bool)
      requires Enabled(View(), Connect(conn))
      modifies this
      ensures View() == Apply(old(View()), Connect(conn))
      ensures admitted <==> !old(stopped) && old(conns) < MaxConnections(configured)
    {
      used := used + {conn};
      if stopped || conns >= MaxConnections(configured) {
        return false;
      }
      conns := conns + 1;
      handlers := handlers[conn := None];
      return true;
    }

    method Unregister(appID: string)
      requires reg.Valid()
      modifies this`apps, reg`pending, reg`calls, reg.pending.Values`response
      ensures reg.Valid() && apps == old(apps) - {appID}
      ensures reg.calls == FailCalls(old(reg.calls), appID, CONNECTION_LOST)
    {
      apps := apps - {appID};
      reg.FailAllForApp(appID, CONNECTION_LOST, "");
    }

    /** The deferred functions of `serveConn`. */
    method EndConn(conn: nat, held: Option<string>)
      requires reg.Valid() && conn in handlers && handlers[conn] == held
      modifies this`apps, this`conns, this`handlers, reg`pending, reg`calls, reg.pending.Values`response
      ensures reg.Valid() && View() == Closed(old(View()), conn)
    {
      conns, handlers := conns - 1, handlers - {conn};
      if held.Some? && held.value in apps && apps[held.value] == conn {
        Unregister(held.value);
      }
    }

    /** The token the registration is acknowledged with, unless it is refused. */
    method Authenticate(p: Payload, issued: Option<string>, saved: bool) returns (verdict: Verdict)
      modifies auth
      ensures verdict == Judge(old(auth.tokens), p, issued, saved)
      ensures auth.tokens == TokensAfter(old(auth.tokens), p, issued)
    {
      if Major(p.protocolVersion) != Major(SUPPORTED_VERSION) {
        return Refused(UnsupportedVersion);
      }
      if !IsAppID(p.appID) {
        return Refused(InvalidAppID);
      }
      var valid := CheckTools(p.tools);
      if !valid {
        return Refused(InvalidTool);
      }
      var token, known := auth.Token(p.appID);
      if !known {
        var allotted := auth.Allocate(p.appID, issued, saved);
        return if allotted.Some? then Admitted(allotted.value) else Refused(AuthFailed);
      }
      return if p.authToken != token then Refused(AuthFailed) else Admitted(token);
    }

    /** The old connection's requests fail and its entry goes. */
    method ReplaceOld(appID: string)
      requires reg.Valid()
      modifies this`apps, reg`pending, reg`calls, reg.pending.Values`response
      ensures reg.Valid() && View() == Replaced(old(View()), appID)
    {
      if appID in apps {
        reg.FailAllForApp(appID, APP_REPLACED, "");
        apps := apps - {appID};
      }
    }

    method GiveEntry(conn: nat, appID: string, acked: bool)
      requires conn in handlers && handlers[conn] == None
      modifies this
      ensures View() == EntryGiven(old(View()), conn, appID, acked)
      ensures if acked then conn in handlers && handlers[conn] == Some(appID) else conn !in handlers
    {
      apps := apps[appID := conn];
      if acked {
        handlers := handlers[conn := Some(appID)];
      } else {
        unacked := unacked + {conn};
        conns, handlers := conns - 1, handlers - {conn};
      }
    }

    method Enter(conn: nat, appID: string, acked: bool)
      requires reg.Valid() && conn in handlers && handlers[conn] == None
      modifies this, reg`pending, reg`calls, reg.pending.Values`response
      ensures reg.Valid() && View() == Entered(old(View()), conn, appID, acked)
      ensures if acked then conn in handlers && handlers[conn] == Some(appID) else conn !in handlers
    {
      ReplaceOld(appID);
      GiveEntry(conn, appID, acked);
    }

    /** A register message on a connection: on failure the connection ends. */
    method ProcessRegister(
        conn: nat, held: Option<string>, p: Payload, issued: Option<string>, saved: bool, acked: bool)
        returns (now: Option<string>)
      requires reg.Valid() && conn in handlers && handlers[conn] == held
      modifies this, auth, reg`pending, reg`calls, reg.pending.Values`response
      ensures reg.Valid() && View() == Registered(old(View()), conn, p, issued, saved, acked)
      ensures conn in handlers ==> handlers[conn] == now
    {
      now := held;
      if held.Some? {
        return;
      }
      var verdict := Authenticate(p, issued, saved);
      if verdict.Refused? {
        EndConn(conn, None);
      } else {
        Enter(conn, p.appID, acked);
        now := if acked then Some(p.appID) else None;
      }
    }

    method Shutdown()
      modifies this
      ensures View() == Apply(old(View()), Step.Shutdown)
    {
      stopped := true;
    }

    // --- results -----------------------------------------------------------

    /** Looks the request up; a result without one is recorded. */
    method FindResult(conn: nat, appID: string, res: ResultMessage) returns (p: PendingRequest?)
      requires reg.Valid() && Dispatch.Enabled(reg.calls, Dispatch.ResultArrives(conn, appID, res))
      modifies reg`calls, reg.orphans
      ensures reg.Valid() && reg.calls == Dispatch.Apply(old(reg.calls), Dispatch.ResultArrives(conn, appID, res))
      ensures p != null <==> res.requestID in reg.pending
      ensures p != null ==> p == reg.pending[res.requestID] && reg.Knows(p) && p.requestID == res.requestID
      ensures p != null ==> Dispatch.Enabled(reg.calls, Dispatch.Complete(conn)) && unchanged(reg.orphans)
      ensures p != null ==>
        reg.calls.handlers == old(reg.calls.handlers)[conn := Dispatch.ResultFound(res.requestID, res)]
      ensures p != null ==> reg.calls.handlers[conn] == Dispatch.ResultFound(res.requestID, res)
      ensures p == null ==> reg.calls.handlers == old(reg.calls.handlers)
      ensures p == null ==> reg.orphans.added == old(reg.orphans.added) + [OrphanResult(appID, "unknown", res)]
    {
      p := reg.GetPending(res.requestID);
      if p == null {
        reg.AddOrphan(conn, appID, res);
      } else {
        reg.calls := Dispatch.Apply(reg.calls, Dispatch.ResultArrives(conn, appID, res));
      }
    }

    /** Takes the request out of the table. */
    method TakeResult(conn: nat, res: ResultMessage)
      requires reg.Valid() && Dispatch.Enabled(reg.calls, Dispatch.Complete(conn))
      requires reg.calls.handlers[conn] == Dispatch.ResultFound(res.requestID, res)
      modifies reg
      ensures reg.Valid() && reg.calls == Dispatch.Apply(old(reg.calls), Dispatch.Complete(conn))
      ensures reg.pending == old(reg.pending) - {res.requestID} && reg.made == old(reg.made)
      ensures conn in reg.calls.handlers && reg.calls.handlers[conn] == Dispatch.ResultTaken(res.requestID, res)
      ensures Dispatch.Enabled(reg.calls, Dispatch.Deliver(conn))
    {
      var _ := reg.CompletePending(res.requestID, Dispatch.Complete(conn));
    }

    /** Sends to the waiting call, without blocking. */
    method SendResult(conn: nat, p: PendingRequest, res: ResultMessage)
      requires reg.Valid() && reg.Knows(p)
      requires Dispatch.Enabled(reg.calls, Dispatch.Deliver(conn))
      requires reg.calls.handlers[conn] == Dispatch.ResultTaken(p.requestID, res)
      modifies reg`calls, p`response
      ensures reg.Valid() && reg.calls == Dispatch.Apply(old(reg.calls), Dispatch.Deliver(conn))
      ensures p.response == Offer(old(p.response), res)
      ensures reg.calls.handlers == old(reg.calls.handlers) - {conn}
    {
      assert forall id | id in reg.made && id != p.requestID :: reg.made[id] != p;
      var _ := p.OfferResponse(res);
      reg.calls := Dispatch.Apply(reg.calls, Dispatch.Deliver(conn));
    }

    /** Takes the request and sends, with nothing in between. */
    method HandOver(conn: nat, p: PendingRequest, res: ResultMessage)
      requires reg.Valid() && reg.Knows(p) && p.requestID == res.requestID
      requires Dispatch.Enabled(reg.calls, Dispatch.Complete(conn))
      requires reg.calls.handlers[conn] == Dispatch.ResultFound(res.requestID, res)
      modifies reg, p`response
      ensures reg.Valid() && reg.pending == old(reg.pending) - {res.requestID}
      ensures reg.calls == HandedOver(old(reg.calls), conn)
      ensures reg.calls.handlers == old(reg.calls.handlers) - {conn}
      ensures p.response == Offer(old(p.response), res)
    {
      TakeResult(conn, res);
      SendResult(conn, p, res);
    }

    /** A result goes to the one request it names, which leaves the table, or to
        the orphan buffer when the table does not know it. */
    method OnResult(conn: nat, appID: string, res: ResultMessage)
      requires reg.Valid() && conn !in reg.calls.handlers
      modifies reg, reg.orphans, reg.Named(res.requestID)`response
      ensures reg.Valid() && reg.calls == ResultHandled(old(reg.calls), conn, appID, res)
      ensures reg.calls.handlers == old(reg.calls.handlers)
      ensures reg.pending == old(reg.pending) - {res.requestID}
      ensures reg.orphans.added
           == old(reg.orphans.added)
              + if res.requestID in old(reg.pending) then [] else [OrphanResult(appID, "unknown", res)]
      ensures forall p | p in old(reg.Named(res.requestID)) :: p.response == Offer(old(p.response), res)
    {
      var p := FindResult(conn, appID, res);
      if p != null {
        HandOver(conn, p, res);
      }
    }

    // --- confirmations -----------------------------------------------------

    method FindAnswer(conn: nat, id: string, confirmed: bool) returns (p: PendingRequest?)
      requires reg.Valid() && Dispatch.Enabled(reg.calls, Dispatch.ConfirmArrives(conn, id, confirmed))
      modifies reg`calls
      ensures reg.Valid() && reg.calls == Dispatch.Apply(old(reg.calls), Dispatch.ConfirmArrives(conn, id, confirmed))
      ensures p != null <==> id in reg.pending
      ensures p != null ==> p == reg.pending[id] && reg.Knows(p) && p.requestID == id
      ensures p != null ==> Dispatch.Enabled(reg.calls, Dispatch.CheckPhase(conn))
      ensures p != null ==> reg.calls.handlers[conn] == Dispatch.ConfirmFound(id, confirmed)
    {
      p := reg.GetPending(id);
      reg.calls := Dispatch.Apply(reg.calls, Dispatch.ConfirmArrives(conn, id, confirmed));
    }

    method InConfirmPhase(conn: nat, p: PendingRequest) returns (ok: bool)
      requires reg.Valid() && reg.Knows(p)
      requires Dispatch.Enabled(reg.calls, Dispatch.CheckPhase(conn)) && reg.calls.handlers[conn].id == p.requestID
      modifies reg`calls
      ensures reg.Valid() && reg.calls == Dispatch.Apply(old(reg.calls), Dispatch.CheckPhase(conn))
      ensures ok <==> p.phase == Confirm
      ensures ok <==> conn in reg.calls.handlers
      ensures ok ==> Dispatch.Enabled(reg.calls, Dispatch.OfferConfirm(conn))
      ensures ok && old(reg.calls.handlers[conn]).ConfirmFound? ==>
        reg.calls.handlers[conn] == Dispatch.ConfirmChecked(p.requestID, old(reg.calls.handlers[conn].confirmed))
    {
      ok := p.phase == Confirm;
      reg.calls := Dispatch.Apply(reg.calls, Dispatch.CheckPhase(conn));
    }

    method SendAnswer(conn: nat, p: PendingRequest, confirmed: bool)
      requires reg.Valid() && reg.Knows(p)
      requires Dispatch.Enabled(reg.calls, Dispatch.OfferConfirm(conn))
      requires reg.calls.handlers[conn] == Dispatch.ConfirmChecked(p.requestID, confirmed)
      modifies reg`calls, p`confirmation
      ensures reg.Valid() && reg.calls == Dispatch.Apply(old(reg.calls), Dispatch.OfferConfirm(conn))
      ensures p.confirmation == Offer(old(p.confirmation), confirmed)
    {
      assert forall id | id in reg.made && id != p.requestID :: reg.made[id] != p;
      var _ := p.OfferConfirmation(confirmed);
      reg.calls := Dispatch.Apply(reg.calls, Dispatch.OfferConfirm(conn));
    }

    /** Checks the phase and sends, with nothing in between. */
    method PassOn(conn: nat, p: PendingRequest, confirmed: bool)
      requires reg.Valid() && reg.Knows(p) && Dispatch.Enabled(reg.calls, Dispatch.CheckPhase(conn))
      requires reg.calls.handlers[conn] == Dispatch.ConfirmFound(p.requestID, confirmed)
      modifies reg`calls, p`confirmation
      ensures reg.Valid() && reg.calls == AnswerPassedOn(old(reg.calls), conn)
      ensures p.confirmation
           == if p.phase == Confirm then Offer(old(p.confirmation), confirmed) else old(p.confirmation)
    {
      var ok := InConfirmPhase(conn, p);
      if ok {
        SendAnswer(conn, p, confirmed);
      }
    }

    /** A confirmation counts only while its request is in phase confirm. */
    method OnConfirmResult(conn: nat, id: string, confirmed: bool)
      requires reg.Valid() && conn !in reg.calls.handlers
      modifies reg`calls, reg.Named(id)`confirmation
      ensures reg.Valid() && reg.calls == AnswerHandled(old(reg.calls), conn, id, confirmed)
      ensures forall p | p in reg.Named(id) ::
                p.confirmation
                == if p.phase == Confirm then Offer(old(p.confirmation), confirmed) else old(p.confirmation)
    {
      var p := FindAnswer(conn, id, confirmed);
      if p != null {
        PassOn(conn, p, confirmed);
      }
    }
  }

  /** The records of results that find no request. */
  function Unclaimed(appID: string, results: seq<ResultMessage>): seq<OrphanResult> {
    seq(|results|, i requires 0 <= i < |results| => OrphanResult(appID, "unknown", results[i]))
  }

  method OneOrphaned(hub: Hub, conn: nat, appID: string, res: ResultMessage)
    requires hub.reg.Valid() && conn !in hub.reg.calls.handlers && res.requestID !in hub.reg.pending
    modifies hub.reg, hub.reg.orphans
    ensures hub.reg.Valid() && conn !in hub.reg.calls.handlers && hub.reg.pending == old(hub.reg.pending)
    ensures hub.reg.orphans.added == old(hub.reg.orphans.added) + [OrphanResult(appID, "unknown", res)]
  {
    hub.OnResult(conn, appID, res);
  }

  /** After any results that find no request, `Orphans` lists exactly the last
      `max` of them, oldest first. */
  method AllOrphaned(hub: Hub, conn: nat, appID: string, results: seq<ResultMessage>)
      returns (out: seq<OrphanResult>)
    requires hub.reg.Valid() && hub.reg.orphans.added == [] && conn !in hub.reg.calls.handlers
    requires forall res | res in results :: res.requestID !in hub.reg.pending
    modifies hub.reg, hub.reg.orphans
    ensures out == Recent(hub.reg.orphans.max, Unclaimed(appID, results))
  {
    for i := 0 to |results|
      invariant hub.reg.Valid() && hub.reg.pending == old(hub.reg.pending) && conn !in hub.reg.calls.handlers
      invariant hub.reg.orphans.added == Unclaimed(appID, results)[..i]
    {
      OneOrphaned(hub, conn, appID, results[i]);
    }
    assert Unclaimed(appID, results)[..|results|] == Unclaimed(appID, results);
    out := hub.reg.Orphans();
  }
}
