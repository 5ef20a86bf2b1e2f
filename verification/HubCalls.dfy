/** The tool calls of a hub run, without the steps that leave them alone, are a
    run of the tool-call protocol; so its theorems hold for the hub. */
module HubCalls {
  import opened Runs
  import opened Messages
  import opened Hub
  import opened HubProofs
  import Dispatch
  import DispatchProofs

  /** Step `x` of the protocol run `d` is what step `from[x]` of the hub run does to the calls. */
  ghost predicate Matches(r: Run<State, Step>, d: Run<Dispatch.State, Dispatch.Step>, x: nat, k: nat) {
    && k < |r.steps| < |r.states| && x < |d.steps| < |d.states|
    && Enabled(r.states[k], r.steps[k]) && CallOf(r.states[k], r.steps[k]) == Some(d.steps[x])
    && d.states[x] == r.states[k].calls && d.states[x + 1] == r.states[k + 1].calls
  }

  /** `d` is what the hub run does to the calls before state `i`, step by step and in order. */
  ghost predicate Projects(r: Run<State, Step>, i: nat, d: Run<Dispatch.State, Dispatch.Step>, from: seq<nat>) {
    && i < |r.states| && DispatchProofs.IsDispatchRun(d)
    && |from| == |d.steps| && d.states[|d.steps|] == r.states[i].calls
    && (forall x | 0 <= x < |from| :: from[x] < i && Matches(r, d, x, from[x]))
    && (forall x, y | 0 <= x < y < |from| :: from[x] < from[y])
    && (forall k | 0 <= k < i < |r.states| <= |r.steps| + 1
          && Enabled(r.states[k], r.steps[k]) && CallOf(r.states[k], r.steps[k]).Some? :: k in from)
  }

  lemma {:induction false} Projected(r: Run<State, Step>, i: nat)
      returns (d: Run<Dispatch.State, Dispatch.Step>, from: seq<nat>)
    requires IsHubRun(r) && i < |r.states|
    ensures Projects(r, i, d, from)
  {
    if i == 0 {
      d, from := Run([r.states[0].calls], []), [];
    } else {
      var s, a := r.states[i - 1], r.steps[i - 1];
      assert Next(s, a, r.states[i]);
      CallsStep(s, a);
      d, from := Projected(r, i - 1);
      if CallOf(s, a).Some? {
        d, from := ProjectedStep(r, i, d, from);
      }
    }
  }

  lemma MatchesStill(
      r: Run<State, Step>, d: Run<Dispatch.State, Dispatch.Step>, d': Run<Dispatch.State, Dispatch.Step>,
      x: nat, k: nat)
    requires Matches(r, d, x, k) && d.states <= d'.states && d.steps <= d'.steps && |d'.steps| < |d'.states|
    ensures Matches(r, d', x, k)
  {
    assert d'.states[x] == d.states[x] && d'.states[x + 1] == d.states[x + 1] && d'.steps[x] == d.steps[x];
  }

  /** One more step that acts on the calls. */
  lemma ProjectedStep(r: Run<State, Step>, i: nat, d: Run<Dispatch.State, Dispatch.Step>, from: seq<nat>)
      returns (d': Run<Dispatch.State, Dispatch.Step>, from': seq<nat>)
    requires IsHubRun(r) && 0 < i < |r.states| && Projects(r, i - 1, d, from)
    requires Enabled(r.states[i - 1], r.steps[i - 1]) && CallOf(r.states[i - 1], r.steps[i - 1]).Some?
    ensures Projects(r, i, d', from')
  {
    var s, a := r.states[i - 1], r.steps[i - 1];
    assert Next(s, a, r.states[i]);
    CallsStep(s, a);
    var call := CallOf(s, a).value;
    d' := Extended(Dispatch.Init, Dispatch.Next, d, call, r.states[i].calls);
    from' := from + [i - 1];
    forall x | 0 <= x < |from'| ensures from'[x] < i && Matches(r, d', x, from'[x]) {
      if x < |from| {
        MatchesStill(r, d, d', x, from[x]);
      }
    }
    forall k | 0 <= k < i && Enabled(r.states[k], r.steps[k]) && CallOf(r.states[k], r.steps[k]).Some?
      ensures k in from'
    {
      assert k < i - 1 ==> k in from;
      assert from'[|from|] == i - 1;
    }
  }

  /** A step of a call or of a message handler is a `Call` step of the hub. */
  lemma OwnStep(r: Run<State, Step>, d: Run<Dispatch.State, Dispatch.Step>, x: nat, k: nat)
    requires Matches(r, d, x, k) && !d.steps[x].FailAll?
    ensures r.steps[k] == Call(d.steps[x])
  {
  }

  // --- the theorems in the hub ---------------------------------------------

  /** Step `k` of the hub run is this step of the protocol. */
  ghost predicate Does(r: Run<State, Step>, k: nat, call: Dispatch.Step) {
    k < |r.steps| < |r.states| && r.steps[k] == Call(call)
  }

  ghost predicate AtPc(r: Run<State, Step>, k: nat, id: string, pc: Dispatch.Pc) {
    k < |r.states| && id in r.states[k].calls.requests && r.states[k].calls.requests[id].pc == pc
  }

  /** In every hub run an invoke of a call that was opened with confirmation comes after
      the question, and after a yes that arrived and was then accepted in phase confirm. */
  lemma InvokeWasApproved(r: Run<State, Step>, o: nat, i: nat, id: string, app: string)
      returns (asked: nat, arrived: nat, accepted: nat, conn: nat)
    requires IsHubRun(r) && o < i && Does(r, o, Dispatch.Open(id, app, true))
    requires Does(r, i, Dispatch.Dispatcher(id, Dispatch.SendOk)) && AtPc(r, i, id, Dispatch.SendingInvoke)
    ensures asked < i && arrived < accepted < i
    ensures Does(r, asked, Dispatch.Dispatcher(id, Dispatch.SendOk)) && AtPc(r, asked, id, Dispatch.SendingConfirm)
    ensures Does(r, arrived, Dispatch.ConfirmArrives(conn, id, true)) && id in r.states[arrived].calls.pending
    ensures Does(r, accepted, Dispatch.OfferConfirm(conn)) && id in r.states[accepted].calls.requests
    ensures conn in r.states[accepted].calls.handlers
    ensures r.states[accepted].calls.handlers[conn] == Dispatch.ConfirmChecked(id, true)
    ensures r.states[accepted].calls.requests[id].phase == Confirm
  {
    var d, from := Projected(r, i + 1);
    assert Next(r.states[i], r.steps[i], r.states[i + 1]);
    var x :| 0 <= x < |from| && from[x] == i;
    assert Matches(r, d, x, i);
    assert Next(r.states[o], r.steps[o], r.states[o + 1]);
    var y :| 0 <= y < |from| && from[y] == o;
    assert Matches(r, d, y, o);
    assert y < x;
    var a, b, c;
    a, b, c, conn := DispatchProofs.InvokeWasApproved(d, y, x, id, app);
    asked, arrived, accepted := from[a], from[b], from[c];
    OwnStep(r, d, a, asked);
    OwnStep(r, d, b, arrived);
    OwnStep(r, d, c, accepted);
  }

  /** A call that waits in a hub run and has left the table can read its response,
      now or after a step of the hub that nothing can block. */
  lemma WaiterIsWoken(r: Run<State, Step>, i: nat, id: string)
    requires IsHubRun(r) && i < |r.states|
    requires DispatchProofs.Waiting(r.states[i].calls, id) && id !in r.states[i].calls.pending
    ensures var s := r.states[i];
      || Dispatch.CanAct(s.calls.requests[id], Dispatch.TakeResponse)
      || exists conn ::
           && Enabled(s, Call(Dispatch.Deliver(conn)))
           && Dispatch.CanAct(Apply(s, Call(Dispatch.Deliver(conn))).calls.requests[id], Dispatch.TakeResponse)
  {
    var d, _ := Projected(r, i);
    DispatchProofs.WaiterIsWoken(d, |d.steps|, id);
    var s := r.states[i];
    if !Dispatch.CanAct(s.calls.requests[id], Dispatch.TakeResponse) {
      var conn :| Dispatch.Enabled(s.calls, Dispatch.Deliver(conn))
               && Dispatch.CanAct(Dispatch.Apply(s.calls, Dispatch.Deliver(conn)).requests[id], Dispatch.TakeResponse);
      assert Enabled(s, Call(Dispatch.Deliver(conn)));
    }
  }

  /** What the end or the replacement of an app's connection does to the calls. */
  lemma TeardownCall(r: Run<State, Step>, i: nat, appID: string)
    requires IsHubRun(r) && i < |r.steps| && appID in r.states[i].apps
    requires r.steps[i] == Close(r.states[i].apps[appID]) || Replaces(r, i, appID)
    ensures Enabled(r.states[i], r.steps[i])
    ensures CallOf(r.states[i], r.steps[i])
         == Some(Dispatch.FailAll(appID, if r.steps[i].Close? then CONNECTION_LOST else APP_REPLACED, ""))
  {
    Reachable(r, i);
    assert Next(r.states[i], r.steps[i], r.states[i + 1]);
  }

  /** A call that had no value when its app's connection ended or was replaced
      returns no response but that failure, in the rest of the hub run. */
  lemma TeardownFailureStands(r: Run<State, Step>, i: nat, j: nat, appID: string, id: string)
    requires IsHubRun(r) && i < j < |r.states| && appID in r.states[i].apps
    requires r.steps[i] == Close(r.states[i].apps[appID]) || Replaces(r, i, appID)
    requires id in r.states[i].calls.pending && id in r.states[i].calls.requests
    requires var q := r.states[i].calls.requests[id]; q.app == appID && !q.Answered() && q.response.None?
    ensures id in r.states[j].calls.requests
    ensures r.states[j].calls.requests[id].Consumed() ==>
      r.states[j].calls.requests[id].pc.outcome.res
      == ResultMessage(id, false, "", Some(ErrorInfo(TeardownCode(r.steps[i]), "")))
  {
    var d, from := Projected(r, j);
    TeardownCall(r, i, appID);
    var x :| 0 <= x < |from| && from[x] == i;
    assert Matches(r, d, x, i);
    DispatchProofs.FailedCallGetsItsFailure(d, x, |d.steps|, id);
  }
}
