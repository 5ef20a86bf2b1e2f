/** What every interleaving of the tool-call protocol keeps. */
module DispatchProofs {
  import opened Runs
  import opened Messages
  import opened Dispatch

  const APPROVED := ConfirmAccepted(true, Confirm)
  const REFUSED := ConfirmAccepted(false, Confirm)

  // --- one request ---------------------------------------------------------

  /** The response slot holds the first value put, until the call takes it. */
  ghost predicate SlotInv(q: Request) {
    if q.Consumed() then FirstPut(q.trace) == Some(q.pc.outcome.res) else q.response == FirstPut(q.trace)
  }

  ghost predicate ReturnInv(q: Request) {
    && Returns(q.trace) == (if q.pc.Returned? then 1 else 0)
    && (q.pc.Returned? ==> Finished(q.pc.outcome) in q.trace)
  }

  /** A call that needs confirmation reaches the execute phase only after it
      asked and was told yes. */
  ghost predicate ConfirmInv(q: Request) {
    && (q.pc.ToConfirm? ==> q.phase == Execute && q.confirmation.None?)
    && (q.pc.SendingInvoke? || q.pc.AwaitingResult? ==> q.phase == Execute)
    && (q.confirm ==>
      && (q.pc.SendingConfirm? || q.pc.AwaitingConfirm? ==> q.phase == Confirm)
      && (q.pc.AwaitingConfirm? ==> ConfirmSent in q.trace)
      && ((q.pc.SendingConfirm? || q.pc.AwaitingConfirm?) && q.confirmation == Some(true) ==>
            APPROVED in q.trace)
      && (q.pc.ToExecute? || q.pc.SendingInvoke? || q.pc.AwaitingResult? ==>
            ConfirmSent in q.trace && APPROVED in q.trace))
  }

  /** Nothing was invoked before the execute phase, and a refusal was given in
      phase confirm. */
  ghost predicate ProgressInv(q: Request) {
    && (q.pc.ToConfirm? || q.pc.SendingConfirm? || q.pc.AwaitingConfirm? ==>
          q.confirm && (q.confirmation == Some(false) ==> REFUSED in q.trace))
    && (!q.Answered() ==> (InvokeSent in q.trace <==> q.pc.AwaitingResult?))
    && (q.Answered() ==> Told(q, q.pc.outcome))
  }

  /** What each way to end a call says about its past. */
  ghost predicate Told(q: Request, outcome: Outcome) {
    match outcome
    case Received(res) => FirstPut(q.trace) == Some(res)
    case Declined => q.confirm && ConfirmSent in q.trace && REFUSED in q.trace && InvokeSent !in q.trace
    case ConfirmTimedOut => q.confirm && ConfirmSent in q.trace && InvokeSent !in q.trace
    case ExecTimedOut => InvokeSent in q.trace
    case RequestCancelled => ConfirmSent in q.trace || InvokeSent in q.trace
    case SendFailed => InvokeSent !in q.trace
  }

  ghost predicate RequestInv(q: Request) {
    SlotInv(q) && ReturnInv(q) && ConfirmInv(q) && ProgressInv(q)
  }

  lemma SlotKept(q: Request, a: Act)
    requires SlotInv(q) && CanAct(q, a)
    ensures SlotInv(Perform(q, a))
  {
    if a.SendOk? {
      Appended(q.trace, if q.pc.SendingConfirm? then ConfirmSent else InvokeSent);
    } else if a.Leave? {
      Appended(q.trace, Finished(q.pc.outcome));
    }
  }

  lemma ReturnKept(q: Request, a: Act)
    requires ReturnInv(q) && CanAct(q, a)
    ensures ReturnInv(Perform(q, a))
  {
    if a.SendOk? {
      Appended(q.trace, if q.pc.SendingConfirm? then ConfirmSent else InvokeSent);
    } else if a.Leave? {
      Appended(q.trace, Finished(q.pc.outcome));
    }
  }

  lemma ConfirmKept(q: Request, a: Act)
    requires ConfirmInv(q) && CanAct(q, a)
    ensures ConfirmInv(Perform(q, a))
  {
    assert q.trace <= Perform(q, a).trace;
  }

  lemma ProgressKept(q: Request, a: Act)
    requires RequestInv(q) && CanAct(q, a)
    ensures ProgressInv(Perform(q, a))
  {
    if a.SendOk? {
      assert InvokeSent in Perform(q, a).trace <==> q.pc.SendingInvoke?;
    } else if a.Leave? {
      Appended(q.trace, Finished(q.pc.outcome));
    }
  }

  lemma PerformKeeps(q: Request, a: Act)
    requires RequestInv(q) && CanAct(q, a)
    ensures RequestInv(Perform(q, a))
  {
    SlotKept(q, a);
    ReturnKept(q, a);
    ConfirmKept(q, a);
    ProgressKept(q, a);
  }

  lemma PutKeeps(q: Request, res: ResultMessage)
    requires RequestInv(q)
    ensures RequestInv(q.Put(res)) && q.Put(res).response.Some?
  {
    var e := ResponsePut(res);
    Appended(q.trace, e);
  }

  lemma AcceptKeeps(q: Request, confirmed: bool)
    requires RequestInv(q) && !q.pc.ToConfirm?
    ensures RequestInv(q.Accept(confirmed))
  {
    var e := ConfirmAccepted(confirmed, q.phase);
    Appended(q.trace, e);
  }

  // --- the whole state -----------------------------------------------------

  /** Some `onResult` took the id out of the table and is about to send. */
  ghost predicate Coming(s: State, id: string) {
    exists conn | conn in s.handlers :: s.handlers[conn].ResultTaken? && s.handlers[conn].id == id
  }

  ghost predicate TableInv(s: State) {
    && s.pending <= s.requests.Keys
    && (forall id | id in s.requests && s.requests[id].pc.Returned? :: id !in s.pending)
  }

  ghost predicate HandlersInv(s: State) {
    && (forall conn | conn in s.handlers :: s.handlers[conn].id in s.requests)
    && (forall conn | conn in s.handlers && s.handlers[conn].ConfirmChecked? ::
          !s.requests[s.handlers[conn].id].pc.ToConfirm?)
  }

  ghost predicate NoLostWakeup(s: State) {
    forall id | id in s.requests && !s.requests[id].Answered() && id !in s.pending ::
      s.requests[id].response.Some? || Coming(s, id)
  }

  ghost predicate RequestsInv(s: State) {
    forall id | id in s.requests :: RequestInv(s.requests[id])
  }

  ghost predicate Inv(s: State) {
    TableInv(s) && HandlersInv(s) && NoLostWakeup(s) && RequestsInv(s)
  }

  lemma RequestsKept(s: State, a: Step)
    requires Inv(s) && Enabled(s, a)
    ensures RequestsInv(Apply(s, a))
  {
    var t := Apply(s, a);
    forall id | id in t.requests ensures RequestInv(t.requests[id]) {
      if id in s.requests {
        var q := s.requests[id];
        match a
        case Dispatcher(i, act) => if i == id { PerformKeeps(q, act); }
        case Deliver(conn) => PutKeeps(q, s.handlers[conn].res);
        case OfferConfirm(conn) => if s.handlers[conn].id == id { AcceptKeeps(q, s.handlers[conn].confirmed); }
        case FailAll(_, code, message) => PutKeeps(q, Failure(id, code, message));
        case _ =>
      }
    }
  }

  lemma TableKept(s: State, a: Step)
    requires TableInv(s) && HandlersInv(s) && Enabled(s, a)
    ensures TableInv(Apply(s, a))
  {
  }

  /** A call that has not asked yet is still in its first phase. */
  ghost predicate AskedFirst(s: State) {
    forall id | id in s.requests && s.requests[id].pc.ToConfirm? :: s.requests[id].phase == Execute
  }

  lemma HandlersKept(s: State, a: Step)
    requires TableInv(s) && HandlersInv(s) && AskedFirst(s) && Enabled(s, a)
    ensures HandlersInv(Apply(s, a))
  {
    var t := Apply(s, a);
    assert s.requests.Keys <= t.requests.Keys;
    forall id | id in s.requests && t.requests[id].pc.ToConfirm? ensures s.requests[id].pc.ToConfirm? {
      NeverAsksAgain(s, a, id);
    }
  }

  lemma NeverAsksAgain(s: State, a: Step, id: string)
    requires Enabled(s, a) && id in s.requests
    ensures id in Apply(s, a).requests
    ensures Apply(s, a).requests[id].pc.ToConfirm? ==> s.requests[id].pc.ToConfirm?
  {
  }

  /** A result handler that took the id keeps it until it has sent. */
  lemma ComingKept(s: State, a: Step, id: string)
    requires HandlersInv(s) && Enabled(s, a) && id in s.requests && Coming(s, id)
    ensures id in Apply(s, a).requests
    ensures Coming(Apply(s, a), id) || Apply(s, a).requests[id].response.Some?
  {
    var t := Apply(s, a);
    var conn :| conn in s.handlers && s.handlers[conn].ResultTaken? && s.handlers[conn].id == id;
    if a != Deliver(conn) {
      assert conn in t.handlers && t.handlers[conn] == s.handlers[conn];
    }
  }

  /** Whoever takes the id out of the table either puts a value, or will, or is
      the call itself. */
  lemma LeavesAnswered(s: State, a: Step, id: string)
    requires HandlersInv(s) && Enabled(s, a) && id in s.requests && id in s.pending
    requires id !in Apply(s, a).pending
    ensures id in Apply(s, a).requests
    ensures Apply(s, a).requests[id].Answered() || Apply(s, a).requests[id].response.Some? || Coming(Apply(s, a), id)
  {
    if a.Complete? {
      assert a.conn in Apply(s, a).handlers;
    }
  }

  /** A value in the response channel stays there until the call takes it. */
  lemma ValueKept(s: State, a: Step, id: string)
    requires Enabled(s, a) && id in s.requests && s.requests[id].response.Some?
    ensures id in Apply(s, a).requests
    ensures Apply(s, a).requests[id].Answered() || Apply(s, a).requests[id].response.Some?
  {
  }

  lemma AnsweredKept(s: State, a: Step, id: string)
    requires Enabled(s, a) && id in s.requests && s.requests[id].Answered()
    ensures id in Apply(s, a).requests && Apply(s, a).requests[id].Answered()
  {
  }

  lemma WakeupKept(s: State, a: Step)
    requires TableInv(s) && HandlersInv(s) && NoLostWakeup(s) && Enabled(s, a)
    ensures NoLostWakeup(Apply(s, a))
  {
    var t := Apply(s, a);
    forall id | id in t.requests && !t.requests[id].Answered() && id !in t.pending
      ensures t.requests[id].response.Some? || Coming(t, id)
    {
      if id in s.pending {
        LeavesAnswered(s, a, id);
      } else if id in s.requests {
        if s.requests[id].Answered() {
          AnsweredKept(s, a, id);
        } else if s.requests[id].response.Some? {
          ValueKept(s, a, id);
        } else {
          ComingKept(s, a, id);
        }
      }
    }
  }

  lemma StepKeeps(s: State, a: Step, t: State)
    requires Inv(s) && Next(s, a, t)
    ensures Inv(t)
  {
    RequestsKept(s, a);
    TableKept(s, a);
    assert AskedFirst(s) by {
      assert forall id | id in s.requests :: ConfirmInv(s.requests[id]);
    }
    HandlersKept(s, a);
    WakeupKept(s, a);
  }

  ghost predicate IsDispatchRun(r: Run<State, Step>) {
    IsRun(Init, Next, r)
  }

  lemma Reachable(r: Run<State, Step>, i: nat)
    requires IsDispatchRun(r) && i < |r.states|
    ensures Inv(r.states[i])
  {
    forall s, a, t | Inv(s) && Next(s, a, t) ensures Inv(t) { StepKeeps(s, a, t); }
    Invariant(Init, Next, Inv, r);
  }

  // --- main results --------------------------------------------------------

  ghost predicate Waiting(s: State, id: string) {
    id in s.requests && (s.requests[id].pc.AwaitingConfirm? || s.requests[id].pc.AwaitingResult?)
  }

  /** A waiting call whose id has left the table can read its response now, or
      after the pending send of one `onResult`, which nothing can block. */
  lemma WaiterIsWoken(r: Run<State, Step>, i: nat, id: string)
    requires IsDispatchRun(r) && i < |r.states|
    requires Waiting(r.states[i], id) && id !in r.states[i].pending
    ensures var s := r.states[i];
      || CanAct(s.requests[id], TakeResponse)
      || exists conn :: Enabled(s, Deliver(conn)) && CanAct(Apply(s, Deliver(conn)).requests[id], TakeResponse)
  {
    Reachable(r, i);
    var s := r.states[i];
    if s.requests[id].response.None? {
      var conn :| conn in s.handlers && s.handlers[conn].ResultTaken? && s.handlers[conn].id == id;
      PutKeeps(s.requests[id], s.handlers[conn].res);
      assert Enabled(s, Deliver(conn));
    }
  }

  /** A call returns at most once, and a value it returns from its response
      channel is the first one ever put there. */
  lemma ReturnsOnceWithFirstValue(r: Run<State, Step>, i: nat, id: string)
    requires IsDispatchRun(r) && i < |r.states| && id in r.states[i].requests
    ensures var q := r.states[i].requests[id];
      && Returns(q.trace) == (if q.pc.Returned? then 1 else 0)
      && (q.pc.Returned? ==> Finished(q.pc.outcome) in q.trace)
      && (q.Consumed() ==> FirstPut(q.trace) == Some(q.pc.outcome.res))
      && (!q.Consumed() ==> q.response == FirstPut(q.trace))
  {
    Reachable(r, i);
  }

  /** The way a call ends tells what happened: a response was put for it, or the
      user refused it while asked, or it ran out of time before or after its
      invoke; only a call that ended with a response, by the execution timer or
      by cancellation can have been invoked. */
  lemma OutcomeTellsWhatHappened(r: Run<State, Step>, i: nat, id: string)
    requires IsDispatchRun(r) && i < |r.states|
    requires id in r.states[i].requests && r.states[i].requests[id].Answered()
    ensures Told(r.states[i].requests[id], r.states[i].requests[id].pc.outcome)
  {
    Reachable(r, i);
  }

  /** Once an id has left the table it never comes back. */
  lemma IdNeverReturns(r: Run<State, Step>, i: nat, j: nat, id: string)
    requires IsDispatchRun(r) && i <= j < |r.states|
    requires id in r.states[i].requests && id !in r.states[i].pending
    ensures id in r.states[j].requests && id !in r.states[j].pending
  {
    Lasts(Init, Next, (a: Step) => true, (s: State) => id in s.requests && id !in s.pending, r, i, j);
  }

  // --- how a call ends -----------------------------------------------------

  ghost predicate Ended(s: State, id: string, outcome: Outcome) {
    id in s.requests && s.requests[id].Answered() && s.requests[id].pc.outcome == outcome
  }

  lemma EndedStays(s: State, a: Step, id: string, outcome: Outcome)
    requires Ended(s, id, outcome) && Enabled(s, a)
    ensures Ended(Apply(s, a), id, outcome)
  {
  }

  /** In state `s` the step `act` of the call `id` decides this outcome. */
  ghost predicate Decides(s: State, id: string, act: Act, outcome: Outcome) {
    && id in s.requests
    && var q := s.requests[id];
       match outcome
       case Received(res) => act == TakeResponse && q.response == Some(res)
       case Declined => act == TakeConfirmation && q.confirmation == Some(false)
       case ConfirmTimedOut => act == Expire && q.pc == AwaitingConfirm
       case ExecTimedOut => act == Expire && q.pc == AwaitingResult
       case RequestCancelled => act == Cancel
       case SendFailed => act == SendFails
  }

  /** A timer, a refusal, a response, a cancellation or a failed send ends the call
      with that outcome for good: it neither waits nor invokes any more. */
  lemma CallEnds(r: Run<State, Step>, i: nat, j: nat, id: string, act: Act, outcome: Outcome)
    requires IsDispatchRun(r) && i < j < |r.states| && r.steps[i] == Dispatcher(id, act)
    requires Decides(r.states[i], id, act, outcome)
    ensures Ended(r.states[j], id, outcome) && !Waiting(r.states[j], id) && !Invokes(r, j, id)
  {
    assert Next(r.states[i], r.steps[i], r.states[i + 1]);
    var fact := (s: State) => Ended(s, id, outcome);
    forall s, a, t | fact(s) && Next(s, a, t) ensures fact(t) { EndedStays(s, a, id, outcome); }
    Lasts(Init, Next, (a: Step) => true, fact, r, i + 1, j);
  }

  /** And every ended call was ended by such a step of its own. */
  lemma {:induction false} EndedBy(r: Run<State, Step>, j: nat, id: string, outcome: Outcome)
      returns (i: nat, act: Act)
    requires IsDispatchRun(r) && j < |r.states| && Ended(r.states[j], id, outcome)
    ensures i < j && r.steps[i] == Dispatcher(id, act) && Decides(r.states[i], id, act, outcome)
  {
    assert j > 0;
    var s, a := r.states[j - 1], r.steps[j - 1];
    assert Next(s, a, r.states[j]);
    if Ended(s, id, outcome) {
      i, act := EndedBy(r, j - 1, id, outcome);
    } else {
      i, act := j - 1, a.act;
    }
  }

  /** A yes lets the call go on to its execution. */
  lemma YesGoesOn(r: Run<State, Step>, i: nat, id: string)
    requires IsDispatchRun(r) && i < |r.steps| && r.steps[i] == Dispatcher(id, TakeConfirmation)
    ensures id in r.states[i].requests && r.states[i].requests[id].confirmation.Some?
    ensures r.states[i].requests[id].confirmation == Some(true) ==> r.states[i + 1].requests[id].pc == ToExecute
  {
    assert Next(r.states[i], r.steps[i], r.states[i + 1]);
  }

  // --- confirmation --------------------------------------------------------

  /** Step `i` sends the confirm message of `id`. */
  ghost predicate AsksUser(r: Run<State, Step>, i: nat, id: string) {
    && i < |r.steps| < |r.states|
    && r.steps[i] == Dispatcher(id, SendOk)
    && id in r.states[i].requests && r.states[i].requests[id].pc.SendingConfirm?
  }

  /** Step `i` sends the invoke message of `id`. */
  ghost predicate Invokes(r: Run<State, Step>, i: nat, id: string) {
    && i < |r.steps| < |r.states|
    && r.steps[i] == Dispatcher(id, SendOk)
    && id in r.states[i].requests && r.states[i].requests[id].pc.SendingInvoke?
  }

  /** Step `i` is the arrival, on `conn`, of a yes for the pending request `id`. */
  ghost predicate YesArrives(r: Run<State, Step>, i: nat, conn: nat, id: string) {
    && i < |r.steps| < |r.states|
    && r.steps[i] == ConfirmArrives(conn, id, true)
    && id in r.states[i].pending
  }

  /** Step `i` puts a yes in the confirmation channel of `id`, in phase confirm. */
  ghost predicate YesAccepted(r: Run<State, Step>, i: nat, conn: nat, id: string) {
    && i < |r.steps| < |r.states|
    && r.steps[i] == OfferConfirm(conn)
    && conn in r.states[i].handlers && r.states[i].handlers[conn] == ConfirmChecked(id, true)
    && id in r.states[i].requests
    && r.states[i].requests[id].phase == Confirm && r.states[i].requests[id].confirmation.None?
  }

  /** Whatever a trace says happened at an earlier step that wrote it down. */
  lemma {:induction false} Written(r: Run<State, Step>, i: nat, id: string, e: Event) returns (j: nat)
    requires IsDispatchRun(r) && i < |r.states|
    requires id in r.states[i].requests && e in r.states[i].requests[id].trace
    ensures j < i && id in r.states[j].requests && id in r.states[j + 1].requests
    ensures r.states[j + 1].requests[id].trace == r.states[j].requests[id].trace + [e]
  {
    assert i > 0;
    var s, t := r.states[i - 1], r.states[i];
    assert Next(s, r.steps[i - 1], t);
    if id in s.requests && e in s.requests[id].trace {
      j := Written(r, i - 1, id, e);
    } else {
      j := i - 1;
    }
  }

  lemma {:induction false} Arrived(r: Run<State, Step>, i: nat, conn: nat, id: string) returns (j: nat)
    requires IsDispatchRun(r) && i < |r.states|
    requires conn in r.states[i].handlers
    requires r.states[i].handlers[conn] in {ConfirmFound(id, true), ConfirmChecked(id, true)}
    ensures j < i && YesArrives(r, j, conn, id)
  {
    assert i > 0;
    assert Next(r.states[i - 1], r.steps[i - 1], r.states[i]);
    if r.steps[i - 1] == ConfirmArrives(conn, id, true) {
      j := i - 1;
    } else {
      j := Arrived(r, i - 1, conn, id);
    }
  }

  /** Only these two steps write these two events. */
  lemma WhoWrites(s: State, a: Step, id: string, e: Event)
    requires Enabled(s, a) && id in s.requests
    requires Apply(s, a).requests[id].trace == s.requests[id].trace + [e]
    ensures e.ConfirmSent? ==> a == Dispatcher(id, SendOk) && s.requests[id].pc.SendingConfirm?
    ensures e == APPROVED ==>
      && a.OfferConfirm? && s.handlers[a.conn] == ConfirmChecked(id, true)
      && s.requests[id].phase == Confirm && s.requests[id].confirmation.None?
  {
    var q, q' := s.requests[id], Apply(s, a).requests[id];
    assert |q'.trace| == |q.trace| + 1 && q'.trace[|q.trace|] == e;
  }

  lemma AskedBefore(r: Run<State, Step>, i: nat, id: string) returns (asked: nat)
    requires IsDispatchRun(r) && i < |r.states|
    requires id in r.states[i].requests && ConfirmSent in r.states[i].requests[id].trace
    ensures asked < i && AsksUser(r, asked, id)
  {
    asked := Written(r, i, id, ConfirmSent);
    WhoWrites(r.states[asked], r.steps[asked], id, ConfirmSent);
  }

  /** No step changes whose request it is and whether it needs a confirmation. */
  lemma FieldsStay(s: State, a: Step, id: string)
    requires Enabled(s, a) && id in s.requests
    ensures id in Apply(s, a).requests
    ensures Apply(s, a).requests[id].app == s.requests[id].app
    ensures Apply(s, a).requests[id].confirm == s.requests[id].confirm
  {
  }

  /** Step `o` opens the call. */
  ghost predicate Opens(r: Run<State, Step>, o: nat, id: string, app: string, confirm: bool) {
    o < |r.steps| < |r.states| && r.steps[o] == Open(id, app, confirm)
  }

  /** A request stays what its opening said. */
  lemma StaysAsOpened(r: Run<State, Step>, o: nat, i: nat, id: string, app: string, confirm: bool)
    requires IsDispatchRun(r) && Opens(r, o, id, app, confirm) && o < i < |r.states|
    ensures id in r.states[i].requests
    ensures r.states[i].requests[id].app == app && r.states[i].requests[id].confirm == confirm
  {
    assert Next(r.states[o], r.steps[o], r.states[o + 1]);
    var fact := (s: State) => id in s.requests && s.requests[id].app == app && s.requests[id].confirm == confirm;
    forall s, a, t | fact(s) && Next(s, a, t) ensures fact(t) { FieldsStay(s, a, id); }
    Lasts(Init, Next, (a: Step) => true, fact, r, o + 1, i);
  }

  /** Every request in the system was opened before. */
  lemma {:induction false} WasOpened(r: Run<State, Step>, i: nat, id: string)
      returns (o: nat, app: string, confirm: bool)
    requires IsDispatchRun(r) && i < |r.states| && id in r.states[i].requests
    ensures o < i && Opens(r, o, id, app, confirm)
  {
    assert i > 0;
    assert Next(r.states[i - 1], r.steps[i - 1], r.states[i]);
    if id in r.states[i - 1].requests {
      o, app, confirm := WasOpened(r, i - 1, id);
    } else {
      o, app, confirm := i - 1, r.steps[i - 1].app, r.steps[i - 1].confirm;
    }
  }

  /** The user is asked only about calls that were opened with confirmation. */
  lemma OnlyOpenedSoAsks(r: Run<State, Step>, i: nat, id: string) returns (o: nat, app: string)
    requires IsDispatchRun(r) && AsksUser(r, i, id)
    ensures o < i && Opens(r, o, id, app, true)
  {
    Reachable(r, i);
    var confirm;
    o, app, confirm := WasOpened(r, i, id);
    StaysAsOpened(r, o, i, id, app, confirm);
  }

  /** No invoke of a call that was opened with confirmation without the question
      having been sent and a yes for the same request having arrived and been
      accepted in phase confirm. */
  lemma InvokeWasApproved(r: Run<State, Step>, o: nat, i: nat, id: string, app: string)
      returns (asked: nat, arrived: nat, accepted: nat, conn: nat)
    requires IsDispatchRun(r) && Opens(r, o, id, app, true) && o < i && Invokes(r, i, id)
    ensures asked < i && AsksUser(r, asked, id)
    ensures arrived < accepted < i && YesArrives(r, arrived, conn, id) && YesAccepted(r, accepted, conn, id)
  {
    StaysAsOpened(r, o, i, id, app, true);
    asked, arrived, accepted, conn := ApprovedIfNeeded(r, i, id);
  }

  lemma ApprovedIfNeeded(r: Run<State, Step>, i: nat, id: string)
      returns (asked: nat, arrived: nat, accepted: nat, conn: nat)
    requires IsDispatchRun(r)
    requires Invokes(r, i, id) && r.states[i].requests[id].confirm
    ensures asked < i && AsksUser(r, asked, id)
    ensures arrived < accepted < i && YesArrives(r, arrived, conn, id) && YesAccepted(r, accepted, conn, id)
  {
    Reachable(r, i);
    asked := AskedBefore(r, i, id);
    accepted := Written(r, i, id, APPROVED);
    WhoWrites(r.states[accepted], r.steps[accepted], id, APPROVED);
    conn := r.steps[accepted].conn;
    arrived := Arrived(r, accepted, conn, id);
  }

  /** Request ids are random, so whoever answers with one was sent it: the confirm
      or the invoke message that carries it had gone out. */
  ghost predicate IdsLearned(r: Run<State, Step>) {
    forall i | 0 <= i < |r.steps| < |r.states| && r.steps[i].ConfirmArrives? ::
      var id := r.steps[i].id;
      id in r.states[i].pending ==>
        id in r.states[i].requests
        && (ConfirmSent in r.states[i].requests[id].trace || InvokeSent in r.states[i].requests[id].trace)
  }

  lemma NotInvokedBefore(r: Run<State, Step>, j: nat, i: nat, id: string)
    requires IsDispatchRun(r) && j <= i < |r.states|
    requires id in r.states[j].requests && id in r.states[i].requests && r.states[i].requests[id].pc.SendingInvoke?
    ensures InvokeSent !in r.states[j].requests[id].trace
  {
    Reachable(r, i);
    if InvokeSent in r.states[j].requests[id].trace {
      var fact := (s: State) => id in s.requests && InvokeSent in s.requests[id].trace;
      Lasts(Init, Next, (a: Step) => true, fact, r, j, i);
    }
  }

  /** Then the question, the answer, its acceptance and the invoke come in this order. */
  lemma InvokeFollowsQuestionThenYes(r: Run<State, Step>, o: nat, i: nat, id: string, app: string)
      returns (asked: nat, arrived: nat, accepted: nat, conn: nat)
    requires IsDispatchRun(r) && IdsLearned(r)
    requires Opens(r, o, id, app, true) && o < i && Invokes(r, i, id)
    ensures asked < arrived < accepted < i
    ensures AsksUser(r, asked, id) && YesArrives(r, arrived, conn, id) && YesAccepted(r, accepted, conn, id)
  {
    asked, arrived, accepted, conn := InvokeWasApproved(r, o, i, id, app);
    Reachable(r, arrived);
    NotInvokedBefore(r, arrived, i, id);
    asked := AskedBefore(r, arrived, id);
  }

  const EMPTY := State(map[], {}, map[], [])
  const ASKING := Request("a", true, Confirm, None, None, SendingConfirm, [])

  /** A run whose first five steps accept a yes before the question is sent. */
  ghost predicate StartsWithYes(r: Run<State, Step>) {
    && IsDispatchRun(r) && |r.steps| >= 5
    && YesArrives(r, 2, 0, "q") && YesAccepted(r, 4, 0, "q")
    && r.states[2].requests == map["q" := ASKING]
    && r.steps[..5] == [Open("q", "a", true), Dispatcher("q", SetPhase), ConfirmArrives(0, "q", true), CheckPhase(0),
                        OfferConfirm(0)]
  }

  const OPENED := State(map["q" := Fresh("a", true)], {"q"}, map[], [])
  const READY := State(map["q" := ASKING], {"q"}, map[], [])
  const YES_FOUND := READY.(handlers := map[0 := ConfirmFound("q", true)])
  const YES_CHECKED := READY.(handlers := map[0 := ConfirmChecked("q", true)])
  const YES_TAKEN := State(map["q" := ASKING.Accept(true)], {"q"}, map[], [])

  lemma CallOpens()
    ensures Next(EMPTY, Open("q", "a", true), OPENED)
  {
  }

  lemma PhaseIsSet()
    ensures Next(OPENED, Dispatcher("q", SetPhase), READY)
  {
  }

  lemma YesIsFound()
    ensures Next(READY, ConfirmArrives(0, "q", true), YES_FOUND)
  {
  }

  lemma YesIsChecked()
    ensures Next(YES_FOUND, CheckPhase(0), YES_CHECKED)
  {
  }

  lemma YesIsTaken()
    ensures Next(YES_CHECKED, OfferConfirm(0), YES_TAKEN)
  {
  }

  lemma YesBeforeQuestion() returns (r: Run<State, Step>)
    ensures StartsWithYes(r) && |r.steps| == 5 && r.states[5] == YES_TAKEN
  {
    CallOpens();
    PhaseIsSet();
    YesIsFound();
    YesIsChecked();
    YesIsTaken();
    r := Run([EMPTY, OPENED, READY, YES_FOUND, YES_CHECKED, YES_TAKEN],
             [Open("q", "a", true), Dispatcher("q", SetPhase), ConfirmArrives(0, "q", true), CheckPhase(0),
              OfferConfirm(0)]);
  }

  /** One more step of the call `q`, alone in the table. */
  lemma Continued(r: Run<State, Step>, q: Request, act: Act) returns (r': Run<State, Step>)
    requires StartsWithYes(r) && r.states[|r.steps|] == State(map["q" := q], {"q"}, map[], [])
    requires CanAct(q, act) && !act.Leave?
    ensures r' == Run(r.states + [State(map["q" := Perform(q, act)], {"q"}, map[], [])],
                      r.steps + [Dispatcher("q", act)])
    ensures StartsWithYes(r')
  {
    var t := State(map["q" := Perform(q, act)], {"q"}, map[], []);
    assert t == Apply(r.states[|r.steps|], Dispatcher("q", act));
    r' := Extended(Init, Next, r, Dispatcher("q", act), t);
    assert r'.states[2] == r.states[2] && r'.states[4] == r.states[4] && r'.steps[..5] == r.steps[..5];
  }

  /** Otherwise the order can fail: a yes that comes after the phase is set and
      before the question is sent counts, and the invoke needs no other. */
  lemma EarlyYesCounts() returns (r: Run<State, Step>)
    ensures StartsWithYes(r) && |r.steps| == 9
    ensures r.steps[5..] == [Dispatcher("q", SendOk), Dispatcher("q", TakeConfirmation),
                             Dispatcher("q", SetPhase), Dispatcher("q", SendOk)]
    ensures AsksUser(r, 5, "q") && Invokes(r, 8, "q") && r.states[8].requests["q"].confirm
  {
    var r5 := YesBeforeQuestion();
    var q5 := ASKING.Accept(true);
    var r6 := Continued(r5, q5, SendOk);
    var q6 := Perform(q5, SendOk);
    var r7 := Continued(r6, q6, TakeConfirmation);
    var q7 := Perform(q6, TakeConfirmation);
    var r8 := Continued(r7, q7, SetPhase);
    r := Continued(r8, Perform(q7, SetPhase), SendOk);
  }

  lemma EarlyYesUnasked(r: Run<State, Step>)
    requires StartsWithYes(r)
    ensures !IdsLearned(r) && forall k: nat | k < 5 :: !AsksUser(r, k, "q")
  {
    assert r.steps[2] == r.steps[..5][2];
    assert r.steps[2].ConfirmArrives?;
    forall k: nat | k < 5 ensures !AsksUser(r, k, "q") {
      assert r.steps[k] == r.steps[..5][k];
    }
  }

  // --- results and failures ------------------------------------------------

  /** Failing an app answers exactly its pending requests. */
  lemma FailAllAnswersExactly(r: Run<State, Step>, i: nat, id: string)
    requires IsDispatchRun(r) && i < |r.steps| && r.steps[i].FailAll?
    requires id in r.states[i].requests
    ensures var q, q' := r.states[i].requests[id], r.states[i + 1].requests[id];
      if id in r.states[i].pending && q.app == r.steps[i].app
      then
        && id !in r.states[i + 1].pending && q'.pc == q.pc
        && q'.response
           == (if q.response.Some? then q.response
               else Some(ResultMessage(id, false, "", Some(ErrorInfo(r.steps[i].code, r.steps[i].message)))))
      else q' == q && (id in r.states[i + 1].pending <==> id in r.states[i].pending)
  {
    assert Next(r.states[i], r.steps[i], r.states[i + 1]);
  }

  lemma FirstPutStays(s: State, a: Step, id: string)
    requires Enabled(s, a) && id in s.requests && FirstPut(s.requests[id].trace).Some?
    ensures id in Apply(s, a).requests
    ensures FirstPut(Apply(s, a).requests[id].trace) == FirstPut(s.requests[id].trace)
  {
    var before, after := s.requests[id].trace, Apply(s, a).requests[id].trace;
    if after != before {
      assert after == before + [after[|before|]];
      Appended(before, after[|before|]);
    }
  }

  /** A call that was failed before it had a value can take the failure if it is
      waiting, and never returns another response, whatever arrives later. */
  lemma FailedCallGetsItsFailure(r: Run<State, Step>, i: nat, j: nat, id: string)
    requires IsDispatchRun(r) && i < j < |r.states| && r.steps[i].FailAll?
    requires id in r.states[i].pending && id in r.states[i].requests && r.states[i].requests[id].app == r.steps[i].app
    requires !r.states[i].requests[id].Answered() && r.states[i].requests[id].response.None?
    ensures Waiting(r.states[i + 1], id) ==> CanAct(r.states[i + 1].requests[id], TakeResponse)
    ensures id in r.states[j].requests
    ensures r.states[j].requests[id].Consumed() ==>
      r.states[j].requests[id].pc.outcome.res
      == ResultMessage(id, false, "", Some(ErrorInfo(r.steps[i].code, r.steps[i].message)))
  {
    var failure := Failure(id, r.steps[i].code, r.steps[i].message);
    assert Next(r.states[i], r.steps[i], r.states[i + 1]);
    Reachable(r, i + 1);
    var fact := (s: State) => id in s.requests && FirstPut(s.requests[id].trace) == Some(failure);
    forall s, a, t | fact(s) && Next(s, a, t) ensures fact(t) { FirstPutStays(s, a, id); }
    Lasts(Init, Next, (a: Step) => true, fact, r, i + 1, j);
    Reachable(r, j);
  }

  /** The result of a request already answered for is recorded as an orphan, and
      only such results are: a result is an orphan iff its id is not in the
      table when it arrives. */
  lemma LateResultIsOrphan(r: Run<State, Step>, i: nat)
    requires IsDispatchRun(r) && i < |r.steps| && r.steps[i].ResultArrives?
    ensures var s, t, a := r.states[i], r.states[i + 1], r.steps[i];
      && t.requests == s.requests && t.pending == s.pending
      && (a.res.requestID in s.pending <==> t.orphaned == s.orphaned)
      && (a.res.requestID !in s.pending <==> t.orphaned == s.orphaned + [Orphan(a.app, a.res)])
      && (a.res.requestID in s.requests && s.requests[a.res.requestID].pc.Returned? ==> t.orphaned != s.orphaned)
  {
    Reachable(r, i);
    var s, t, a := r.states[i], r.states[i + 1], r.steps[i];
    assert Next(s, a, t);
    assert |s.orphaned + [Orphan(a.app, a.res)]| == |s.orphaned| + 1;
  }

  /** The three steps of a result handler, one after the other. */
  lemma HandlerRuns(s: State, app: string, res: ResultMessage, conn: nat) returns (s1: State, s2: State, s3: State)
    requires res.requestID in s.pending && res.requestID in s.requests && conn !in s.handlers
    ensures Next(s, ResultArrives(conn, app, res), s1) && Next(s1, Complete(conn), s2) && Next(s2, Deliver(conn), s3)
    ensures s3.requests == s.requests[res.requestID := s.requests[res.requestID].Put(res)]
    ensures s3.pending == s.pending - {res.requestID}
    ensures s3.handlers == s.handlers && s3.orphaned == s.orphaned
  {
    s1 := Apply(s, ResultArrives(conn, app, res));
    s2 := Apply(s1, Complete(conn));
    s3 := Apply(s2, Deliver(conn));
    assert s3.handlers == s.handlers;
  }

  /** The three steps of a confirmation handler, one after the other. */
  lemma AnswerRuns(s: State, id: string, conn: nat, yes: bool) returns (s1: State, s2: State, s3: State)
    requires id in s.pending && id in s.requests && s.requests[id].phase == Confirm && conn !in s.handlers
    ensures Next(s, ConfirmArrives(conn, id, yes), s1) && Next(s1, CheckPhase(conn), s2)
    ensures Next(s2, OfferConfirm(conn), s3)
    ensures s3.requests == s.requests[id := s.requests[id].Accept(yes)]
    ensures s3.pending == s.pending && s3.handlers == s.handlers && s3.orphaned == s.orphaned
  {
    s1 := Apply(s, ConfirmArrives(conn, id, yes));
    s2 := Apply(s1, CheckPhase(conn));
    s3 := Apply(s2, OfferConfirm(conn));
    assert s3.handlers == s.handlers;
  }

  ghost predicate AwaitsAnswer(s: State, id: string) {
    && id in s.pending && id in s.requests
    && s.requests[id].pc.AwaitingConfirm? && s.requests[id].confirmation.None?
  }

  /** With a yes in its channel the call goes on to its invoke. */
  lemma GoesOn(s3: State, id: string) returns (s4: State, s5: State, s6: State)
    requires id in s3.requests && s3.requests[id].pc.AwaitingConfirm? && s3.requests[id].confirmation == Some(true)
    ensures Next(s3, Dispatcher(id, TakeConfirmation), s4) && Next(s4, Dispatcher(id, SetPhase), s5)
    ensures Next(s5, Dispatcher(id, SendOk), s6) && id in s5.requests && s5.requests[id].pc.SendingInvoke?
    ensures s6.pending == s3.pending && s6.handlers == s3.handlers
  {
    s4 := Apply(s3, Dispatcher(id, TakeConfirmation));
    s5 := Apply(s4, Dispatcher(id, SetPhase));
    s6 := Apply(s5, Dispatcher(id, SendOk));
  }

  /** From any reachable state, the user's yes can be carried all the way to the invoke. */
  lemma YesGetsThrough(r: Run<State, Step>, i: nat, id: string, conn: nat) returns (rest: Run<State, Step>)
    requires IsDispatchRun(r) && i < |r.states| && AwaitsAnswer(r.states[i], id) && conn !in r.states[i].handlers
    ensures rest.steps == [ConfirmArrives(conn, id, true), CheckPhase(conn), OfferConfirm(conn),
                           Dispatcher(id, TakeConfirmation), Dispatcher(id, SetPhase), Dispatcher(id, SendOk)]
    ensures IsRun((s: State) => s == r.states[i], Next, rest) && Invokes(rest, 5, id)
    ensures id in rest.states[6].pending && rest.states[6].handlers == r.states[i].handlers
  {
    Reachable(r, i);
    var s0 := r.states[i];
    var s1, s2, s3 := AnswerRuns(s0, id, conn, true);
    var s4, s5, s6 := GoesOn(s3, id);
    rest := Run([s0, s1, s2, s3, s4, s5, s6],
                [ConfirmArrives(conn, id, true), CheckPhase(conn), OfferConfirm(conn),
                 Dispatcher(id, TakeConfirmation), Dispatcher(id, SetPhase), Dispatcher(id, SendOk)]);
  }

  /** And the user's no to the return of the call. */
  lemma NoGetsThrough(r: Run<State, Step>, i: nat, id: string, conn: nat) returns (rest: Run<State, Step>)
    requires IsDispatchRun(r) && i < |r.states| && AwaitsAnswer(r.states[i], id) && conn !in r.states[i].handlers
    ensures rest.steps == [ConfirmArrives(conn, id, false), CheckPhase(conn), OfferConfirm(conn),
                           Dispatcher(id, TakeConfirmation), Dispatcher(id, Leave)]
    ensures IsRun((s: State) => s == r.states[i], Next, rest)
    ensures id in rest.states[5].requests && rest.states[5].requests[id].pc == Returned(Declined)
    ensures id !in rest.states[5].pending && rest.states[5].handlers == r.states[i].handlers
  {
    Reachable(r, i);
    var s0 := r.states[i];
    var s1, s2, s3 := AnswerRuns(s0, id, conn, false);
    var s4 := Apply(s3, Dispatcher(id, TakeConfirmation));
    var s5 := Apply(s4, Dispatcher(id, Leave));
    rest := Run([s0, s1, s2, s3, s4, s5],
                [ConfirmArrives(conn, id, false), CheckPhase(conn), OfferConfirm(conn),
                 Dispatcher(id, TakeConfirmation), Dispatcher(id, Leave)]);
  }

  /** An answer that finds its call invoked already is dropped. */
  lemma LateAnswerIgnored(r: Run<State, Step>, i: nat, conn: nat)
    requires IsDispatchRun(r) && i < |r.steps| && r.steps[i] == CheckPhase(conn)
    ensures var s, t := r.states[i], r.states[i + 1];
      && conn in s.handlers && s.handlers[conn].id in s.requests && t.requests == s.requests
      && (s.requests[s.handlers[conn].id].pc.AwaitingResult? ==> conn !in t.handlers)
  {
    Reachable(r, i);
    assert Next(r.states[i], r.steps[i], r.states[i + 1]);
  }

  /** From any reachable state, a result for a waiting call can be carried all
      the way: it is the value returned, and the id is gone. */
  lemma ResultGetsThrough(r: Run<State, Step>, i: nat, app: string, res: ResultMessage, conn: nat)
      returns (rest: Run<State, Step>)
    requires IsDispatchRun(r) && i < |r.states|
    requires Waiting(r.states[i], res.requestID) && res.requestID in r.states[i].pending
    requires r.states[i].requests[res.requestID].response.None? && conn !in r.states[i].handlers
    ensures rest.steps == [ResultArrives(conn, app, res), Complete(conn), Deliver(conn),
                           Dispatcher(res.requestID, TakeResponse), Dispatcher(res.requestID, Leave)]
    ensures IsRun((s: State) => s == r.states[i], Next, rest)
    ensures var t := rest.states[5];
      && res.requestID in t.requests && t.requests[res.requestID].pc == Returned(Received(res))
      && res.requestID !in t.pending
      && t.orphaned == r.states[i].orphaned && t.handlers == r.states[i].handlers
  {
    var id, s0 := res.requestID, r.states[i];
    var s1, s2, s3 := HandlerRuns(s0, app, res, conn);
    var s4 := Apply(s3, Dispatcher(id, TakeResponse));
    var s5 := Apply(s4, Dispatcher(id, Leave));
    rest := Run([s0, s1, s2, s3, s4, s5],
                [ResultArrives(conn, app, res), Complete(conn), Deliver(conn),
                 Dispatcher(id, TakeResponse), Dispatcher(id, Leave)]);
  }
}
