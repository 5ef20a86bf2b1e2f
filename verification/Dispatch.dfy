/**
  The tool-call protocol: any number of `dispatch` calls, result handlers,
  confirmation handlers and application failures interleave, one lock section
  or one channel operation at a time.

  A request object outlives its entry in the pending table, so `requests` keeps
  every object ever made and `pending` the ids the table holds. Each request
  carries the trace of what happened to it.
 */
module Dispatch {
  import opened Runs
  import opened Messages

  datatype Outcome =
    | Received(res: ResultMessage)
    | Declined
    | ConfirmTimedOut
    | ExecTimedOut
    | RequestCancelled
    | SendFailed

  /** Where one `dispatch` call stands. `Leaving` has its answer but has not run
      the deferred removal yet. */
  datatype Pc =
    | ToConfirm
    | SendingConfirm
    | AwaitingConfirm
    | ToExecute
    | SendingInvoke
    | AwaitingResult
    | Leaving(outcome: Outcome)
    | Returned(outcome: Outcome)

  datatype Event =
    | ConfirmSent
    | ConfirmAccepted(confirmed: bool, at: Phase)
    | InvokeSent
    | ResponsePut(res: ResultMessage)
    | Finished(outcome: Outcome)

  datatype Request = Request(
    app: string, confirm: bool, phase: Phase,
    response: Option<ResultMessage>, confirmation: Option<bool>,
    pc: Pc, trace: seq<Event>)
  {
    function Note(e: Event): Request {
      this.(trace := trace + [e])
    }

    /** The response channel's non-blocking send. */
    function Put(res: ResultMessage): Request {
      if response.None? then this.(response := Offer(response, res)).Note(ResponsePut(res)) else this
    }

    /** The confirmation channel's non-blocking send. */
    function Accept(confirmed: bool): Request {
      if confirmation.None?
      then this.(confirmation := Offer(confirmation, confirmed)).Note(ConfirmAccepted(confirmed, phase))
      else this
    }

    predicate Answered() {
      pc.Leaving? || pc.Returned?
    }

    /** The call has taken the value out of its response channel. */
    predicate Consumed() {
      Answered() && pc.outcome.Received?
    }
  }

  function Fresh(app: string, confirm: bool): Request {
    Request(app, confirm, Execute, None, None, if confirm then ToConfirm else ToExecute, [])
  }

  /** What a `dispatch` call does on its own. */
  datatype Act = SetPhase | SendOk | SendFails | TakeConfirmation | TakeResponse | Expire | Cancel | Leave

  predicate CanAct(q: Request, a: Act) {
    match a
    case SetPhase => q.pc.ToConfirm? || q.pc.ToExecute?
    case SendOk => q.pc.SendingConfirm? || q.pc.SendingInvoke?
    case SendFails => q.pc.SendingConfirm? || q.pc.SendingInvoke?
    case TakeConfirmation => q.pc.AwaitingConfirm? && q.confirmation.Some?
    case TakeResponse => (q.pc.AwaitingConfirm? || q.pc.AwaitingResult?) && q.response.Some?
    case Expire => q.pc.AwaitingConfirm? || q.pc.AwaitingResult?
    case Cancel => q.pc.AwaitingConfirm? || q.pc.AwaitingResult?
    case Leave => q.pc.Leaving?
  }

  function Perform(q: Request, a: Act): Request
    requires CanAct(q, a)
  {
    match a
    case SetPhase =>
      if q.pc.ToConfirm? then q.(phase := Confirm, pc := SendingConfirm) else q.(phase := Execute, pc := SendingInvoke)
    case SendOk =>
      if q.pc.SendingConfirm? then q.(pc := AwaitingConfirm).Note(ConfirmSent)
      else q.(pc := AwaitingResult).Note(InvokeSent)
    case SendFails => q.(pc := Leaving(SendFailed))
    case TakeConfirmation =>
      q.(confirmation := None, pc := if q.confirmation.value then ToExecute else Leaving(Declined))
    case TakeResponse => q.(response := None, pc := Leaving(Received(q.response.value)))
    case Expire => q.(pc := Leaving(if q.pc.AwaitingConfirm? then ConfirmTimedOut else ExecTimedOut))
    case Cancel => q.(pc := Leaving(RequestCancelled))
    case Leave => q.(pc := Returned(q.pc.outcome)).Note(Finished(q.pc.outcome))
  }

  /** A connection's goroutine in the middle of `onResult` or `onConfirmResult`. */
  datatype Handler =
    | ResultFound(id: string, res: ResultMessage)
    | ResultTaken(id: string, res: ResultMessage)
    | ConfirmFound(id: string, confirmed: bool)
    | ConfirmChecked(id: string, confirmed: bool)

  datatype Orphan = Orphan(app: string, res: ResultMessage)

  datatype State = State(
    requests: map<string, Request>, pending: set<string>,
    handlers: map<nat, Handler>, orphaned: seq<Orphan>)

  datatype Step =
    | Open(id: string, app: string, confirm: bool)
    | Dispatcher(id: string, act: Act)
    | ResultArrives(conn: nat, app: string, res: ResultMessage)
    | Complete(conn: nat)
    | Deliver(conn: nat)
    | ConfirmArrives(conn: nat, id: string, confirmed: bool)
    | CheckPhase(conn: nat)
    | OfferConfirm(conn: nat)
    | FailAll(app: string, code: string, message: string)

  predicate Enabled(s: State, a: Step) {
    match a
    case Open(id, _, _) => id !in s.requests
    case Dispatcher(id, act) => id in s.requests && CanAct(s.requests[id], act)
    case ResultArrives(conn, _, _) => conn !in s.handlers
    case Complete(conn) => conn in s.handlers && s.handlers[conn].ResultFound? && s.handlers[conn].id in s.requests
    case Deliver(conn) => conn in s.handlers && s.handlers[conn].ResultTaken? && s.handlers[conn].id in s.requests
    case ConfirmArrives(conn, _, _) => conn !in s.handlers
    case CheckPhase(conn) => conn in s.handlers && s.handlers[conn].ConfirmFound? && s.handlers[conn].id in s.requests
    case OfferConfirm(conn) =>
      conn in s.handlers && s.handlers[conn].ConfirmChecked? && s.handlers[conn].id in s.requests
    case FailAll(_, _, _) => true
  }

  /** Every pending request of the app gets a failure; the others stay. */
  function FailRequests(s: State, app: string, code: string, message: string): map<string, Request> {
    map id | id in s.requests ::
      if id in s.pending && s.requests[id].app == app then s.requests[id].Put(Failure(id, code, message))
      else s.requests[id]
  }

  function StillPending(s: State, app: string): set<string> {
    set id | id in s.pending && !(id in s.requests && s.requests[id].app == app)
  }

  function Apply(s: State, a: Step): State
    requires Enabled(s, a)
  {
    match a
    case Open(id, app, confirm) =>
      s.(requests := s.requests[id := Fresh(app, confirm)], pending := s.pending + {id})
    case Dispatcher(id, act) =>
      s.(requests := s.requests[id := Perform(s.requests[id], act)],
         pending := if act.Leave? then s.pending - {id} else s.pending)
    case ResultArrives(conn, app, res) =>
      if res.requestID in s.pending
      then s.(handlers := s.handlers[conn := ResultFound(res.requestID, res)])
      else s.(orphaned := s.orphaned + [Orphan(app, res)])
    case Complete(conn) =>
      var h := s.handlers[conn];
      s.(pending := s.pending - {h.id}, handlers := s.handlers[conn := ResultTaken(h.id, h.res)])
    case Deliver(conn) =>
      var h := s.handlers[conn];
      s.(requests := s.requests[h.id := s.requests[h.id].Put(h.res)], handlers := s.handlers - {conn})
    case ConfirmArrives(conn, id, confirmed) =>
      if id in s.pending then s.(handlers := s.handlers[conn := ConfirmFound(id, confirmed)]) else s
    case CheckPhase(conn) =>
      var h := s.handlers[conn];
      if s.requests[h.id].phase == Confirm
      then s.(handlers := s.handlers[conn := ConfirmChecked(h.id, h.confirmed)])
      else s.(handlers := s.handlers - {conn})
    case OfferConfirm(conn) =>
      var h := s.handlers[conn];
      s.(requests := s.requests[h.id := s.requests[h.id].Accept(h.confirmed)], handlers := s.handlers - {conn})
    case FailAll(app, code, message) =>
      s.(requests := FailRequests(s, app, code, message), pending := StillPending(s, app))
  }

  ghost predicate Init(s: State) {
    s == State(map[], {}, map[], [])
  }

  ghost predicate Next(s: State, a: Step, t: State) {
    Enabled(s, a) && t == Apply(s, a)
  }

  // --- reading a trace -----------------------------------------------------

  /** The first value ever put in the response channel. */
  function FirstPut(trace: seq<Event>): Option<ResultMessage> {
    if trace == [] then None
    else if trace[0].ResponsePut? then Some(trace[0].res)
    else FirstPut(trace[1..])
  }

  /** How often the call returned. */
  function Returns(trace: seq<Event>): nat {
    if trace == [] then 0 else (if trace[0].Finished? then 1 else 0) + Returns(trace[1..])
  }

  lemma {:induction false} Appended(trace: seq<Event>, e: Event)
    ensures FirstPut(trace + [e])
         == if FirstPut(trace).Some? || !e.ResponsePut? then FirstPut(trace) else Some(e.res)
    ensures Returns(trace + [e]) == Returns(trace) + if e.Finished? then 1 else 0
  {
    if trace == [] {
      assert (trace + [e])[1..] == [];
    } else {
      Appended(trace[1..], e);
      assert (trace + [e])[1..] == trace[1..] + [e];
    }
  }
}
