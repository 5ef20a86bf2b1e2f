/** The pending-request table and the late results, updated in place (registry.go). */
module Registry {
  import opened Runs
  import opened Messages
  import opened Orphans
  import Dispatch

  datatype OrphanResult = OrphanResult(appID: string, tool: string, res: ResultMessage)

  class PendingRequest {
    const requestID: string
    const appID: string
    const toolName: string
    var phase: Phase
    var response: Option<ResultMessage>
    var confirmation: Option<bool>

    constructor (requestID: string, appID: string, toolName: string)
      ensures this.requestID == requestID && this.appID == appID && this.toolName == toolName
      ensures phase == Execute && response == None && confirmation == None
    {
      this.requestID, this.appID, this.toolName := requestID, appID, toolName;
      phase, response, confirmation := Execute, None, None;
    }

    method OfferResponse(res: ResultMessage) returns (sent: bool)
      modifies this`response
      ensures response == if old(response).Some? then old(response) else Some(res)
      ensures sent <==> old(response).None?
    {
      sent := response.None?;
      if sent {
        response := Some(res);
      }
    }

    method OfferConfirmation(confirmed: bool) returns (sent: bool)
      modifies this`confirmation
      ensures confirmation == if old(confirmation).Some? then old(confirmation) else Some(confirmed)
      ensures sent <==> old(confirmation).None?
    {
      sent := confirmation.None?;
      if sent {
        confirmation := Some(confirmed);
      }
    }
  }

  /** The table without the requests of one app. */
  function Survivors(pending: map<string, PendingRequest>, appID: string): map<string, PendingRequest> {
    map id | id in pending && pending[id].appID != appID :: pending[id]
  }

  /** How the buffer records the orphans of the protocol. */
  function Recorded(orphaned: seq<Dispatch.Orphan>): (r: seq<OrphanResult>)
    ensures |r| == |orphaned|
  {
    seq(|orphaned|, i requires 0 <= i < |orphaned| => OrphanResult(orphaned[i].app, "unknown", orphaned[i].res))
  }

  /** What the object of a request shows of it. */
  ghost predicate Mirrors(p: PendingRequest, id: string, q: Dispatch.Request)
    reads p
  {
    p.requestID == id && p.appID == q.app && p.phase == q.phase
    && p.response == q.response && p.confirmation == q.confirmation
  }

  /** The step that removes `id` from the table: of a result handler or of the call itself. */
  ghost predicate Removes(calls: Dispatch.State, step: Dispatch.Step, id: string) {
    || (step.Complete? && step.conn in calls.handlers && calls.handlers[step.conn].id == id)
    || step == Dispatch.Dispatcher(id, Dispatch.Leave)
  }

  /** What failing an app shows of each request. */
  lemma FailedShows(calls: Dispatch.State, appID: string, code: string, message: string, id: string)
    requires id in calls.requests
    ensures var q, q' := calls.requests[id],
                         Dispatch.Apply(calls, Dispatch.FailAll(appID, code, message)).requests[id];
      && q'.app == q.app && q'.phase == q.phase && q'.confirmation == q.confirmation
      && q'.response == Failed(q.response, id, id in calls.pending && q.app == appID, code, message)
  {
  }

  /** `calls` is the state of the tool-call protocol the object stands for, and
      `made` holds the object of every request ever opened. Each method is the
      step of the protocol that its contract names. */
  class Registry {
    const orphans: OrphanBuffer<OrphanResult>
    var pending: map<string, PendingRequest>
    ghost var made: map<string, PendingRequest>
    ghost var calls: Dispatch.State

    ghost predicate Valid()
      reads this, orphans, made.Values
    {
      && orphans.Valid() && orphans.added == Recorded(calls.orphaned)
      && made.Keys == calls.requests.Keys
      && (forall id | id in made :: Mirrors(made[id], id, calls.requests[id]))
      && pending.Keys == calls.pending <= made.Keys
      && (forall id | id in pending :: pending[id] == made[id])
    }

    /** The object of a request once opened here. */
    ghost predicate Knows(p: PendingRequest)
      reads this
    {
      p.requestID in made && made[p.requestID] == p
    }

    /** The pending request of that id, if there is one. */
    function Named(id: string): set<PendingRequest>
      reads this
    {
      if id in pending then {pending[id]} else {}
    }

    constructor (orphans: OrphanBuffer<OrphanResult>)
      requires orphans.Valid() && orphans.added == []
      ensures Valid() && this.orphans == orphans && pending == map[] && Dispatch.Init(calls)
    {
      this.orphans := orphans;
      pending, made, calls := map[], map[], Dispatch.State(map[], {}, map[], []);
    }

    method AddPending(p: PendingRequest, ghost confirm: bool)
      requires Valid() && p.requestID !in made
      requires p.phase == Execute && p.response == None && p.confirmation == None
      modifies this
      ensures Valid() && calls == Dispatch.Apply(old(calls), Dispatch.Open(p.requestID, p.appID, confirm))
      ensures pending == old(pending)[p.requestID := p]
    {
      pending := pending[p.requestID := p];
      made := made[p.requestID := p];
      calls := Dispatch.Apply(calls, Dispatch.Open(p.requestID, p.appID, confirm));
    }

    method GetPending(requestID: string) returns (p: PendingRequest?)
      ensures p != null <==> requestID in pending
      ensures p != null ==> p == pending[requestID]
    {
      p := if requestID in pending then pending[requestID] else null;
    }

    /** Idempotent: a second call for the same id changes nothing and returns null. */
    method CompletePending(requestID: string, ghost step: Dispatch.Step) returns (p: PendingRequest?)
      requires Valid() && Removes(calls, step, requestID) && Dispatch.Enabled(calls, step)
      modifies this
      ensures Valid() && calls == Dispatch.Apply(old(calls), step) && made == old(made)
      ensures pending == old(pending) - {requestID}
      ensures p != null <==> requestID in old(pending)
      ensures p != null ==> p == old(pending)[requestID]
    {
      p := if requestID in pending then pending[requestID] else null;
      pending := pending - {requestID};
      calls := Dispatch.Apply(calls, step);
    }

    /** The loop: takes exactly the app's requests out of the table and leaves a
        value in the response slot of each; no other request is touched. */
    method FailEach(appID: string, code: string, message: string)
      modifies this`pending, pending.Values`response
      ensures pending == Survivors(old(pending), appID)
      ensures forall p | p in old(pending.Values) ::
                p.response == Failed(old(p.response), p.requestID, p.appID == appID, code, message)
    {
      var todo := pending.Keys;
      ghost var before := pending;
      ghost var reached: set<PendingRequest> := {};
      while todo != {}
        invariant todo <= before.Keys
        invariant forall id :: id in pending <==> id in before && (id in todo || before[id].appID != appID)
        invariant forall id | id in pending :: pending[id] == before[id]
        invariant forall p | p in reached :: p.appID == appID
        invariant forall id | id in before && before[id].appID == appID :: id in todo || before[id] in reached
        invariant forall p | p in before.Values ::
                    p.response == Failed(old(p.response), p.requestID, p in reached, code, message)
      {
        var id :| id in todo;
        var p := pending[id];
        todo := todo - {id};
        if p.appID == appID {
          pending := pending - {id};
          reached := reached + {p};
          var _ := p.OfferResponse(Failure(p.requestID, code, message));
        }
      }
    }

    /** Failing an app is one step of the protocol: its pending requests are
        answered and leave, in the table as in the calls. */
    method FailAllForApp(appID: string, code: string, message: string)
      requires Valid()
      modifies this`pending, this`calls, pending.Values`response
      ensures Valid() && calls == Dispatch.Apply(old(calls), Dispatch.FailAll(appID, code, message))
      ensures pending == Survivors(old(pending), appID)
      ensures forall p | p in old(pending.Values) ::
                p.response == Failed(old(p.response), p.requestID, p.appID == appID, code, message)
      ensures forall p | p in old(pending.Values) && p.appID == appID ::
                p.response == if old(p.response).Some? then old(p.response)
                              else Some(ResultMessage(p.requestID, false, "", Some(ErrorInfo(code, message))))
      ensures forall p | p in old(pending.Values) && p.appID != appID :: p.response == old(p.response)
    {
      ghost var before, was := pending, calls;
      FailEach(appID, code, message);
      calls := Dispatch.Apply(was, Dispatch.FailAll(appID, code, message));
      forall id | id in made ensures Mirrors(made[id], id, calls.requests[id]) {
        FailedShows(was, appID, code, message, id);
        assert made[id] in before.Values <==> id in before;
      }
      assert pending.Keys == calls.pending;
    }

    /** A result that finds no request. */
    method AddOrphan(ghost conn: nat, appID: string, res: ResultMessage)
      requires Valid() && res.requestID !in pending && conn !in calls.handlers
      modifies this`calls, orphans
      ensures Valid() && calls == Dispatch.Apply(old(calls), Dispatch.ResultArrives(conn, appID, res))
      ensures orphans.added == old(orphans.added) + [OrphanResult(appID, "unknown", res)]
    {
      orphans.Add(OrphanResult(appID, "unknown", res));
      calls := Dispatch.Apply(calls, Dispatch.ResultArrives(conn, appID, res));
      assert orphans.added == Recorded(calls.orphaned);
    }

    method Orphans() returns (out: seq<OrphanResult>)
      requires orphans.Valid()
      ensures out == Recent(orphans.max, orphans.added)
    {
      out := orphans.List();
    }

    // --- what a call does to its own request -------------------------------

    method SetPhase(p: PendingRequest, phase: Phase)
      requires Valid() && Knows(p)
      requires Dispatch.Enabled(calls, Dispatch.Dispatcher(p.requestID, Dispatch.SetPhase))
      requires phase == if calls.requests[p.requestID].pc.ToConfirm? then Confirm else Execute
      modifies this`calls, p`phase
      ensures Valid() && calls == Dispatch.Apply(old(calls), Dispatch.Dispatcher(p.requestID, Dispatch.SetPhase))
    {
      assert forall id | id in made && id != p.requestID :: made[id] != p;
      p.phase := phase;
      calls := Dispatch.Apply(calls, Dispatch.Dispatcher(p.requestID, Dispatch.SetPhase));
    }

    method ReceiveResponse(p: PendingRequest) returns (res: ResultMessage)
      requires Valid() && Knows(p)
      requires Dispatch.Enabled(calls, Dispatch.Dispatcher(p.requestID, Dispatch.TakeResponse))
      modifies this`calls, p`response
      ensures Valid() && calls == Dispatch.Apply(old(calls), Dispatch.Dispatcher(p.requestID, Dispatch.TakeResponse))
      ensures calls.requests[p.requestID].pc == Dispatch.Leaving(Dispatch.Received(res))
    {
      res := p.response.value;
      assert forall id | id in made && id != p.requestID :: made[id] != p;
      p.response := None;
      calls := Dispatch.Apply(calls, Dispatch.Dispatcher(p.requestID, Dispatch.TakeResponse));
    }

    method ReceiveConfirmation(p: PendingRequest) returns (confirmed: bool)
      requires Valid() && Knows(p)
      requires Dispatch.Enabled(calls, Dispatch.Dispatcher(p.requestID, Dispatch.TakeConfirmation))
      modifies this`calls, p`confirmation
      ensures Valid()
      ensures calls == Dispatch.Apply(old(calls), Dispatch.Dispatcher(p.requestID, Dispatch.TakeConfirmation))
      ensures confirmed <==> calls.requests[p.requestID].pc == Dispatch.ToExecute
    {
      confirmed := p.confirmation.value;
      assert forall id | id in made && id != p.requestID :: made[id] != p;
      p.confirmation := None;
      calls := Dispatch.Apply(calls, Dispatch.Dispatcher(p.requestID, Dispatch.TakeConfirmation));
    }
  }
}
