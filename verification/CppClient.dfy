/**
  The C++ client's table of running invokes (AgentQuayClient.cpp): each accepted
  invoke is answered by its worker, by the watchdog, or forgotten when the
  connection ends. All of this runs on the main thread, one event at a time.
 */
module CppClient {
  import opened Runs

  const HEARTBEAT_MISS_INTERVALS := 4

  datatype Answer = Done(data: string) | TimedOut | ToolNotFound

  /** The answers handed to the socket so far, by request id, oldest first. */
  type Answers = map<string, seq<Answer>>

  function Sent(answers: Answers, id: string): seq<Answer> {
    if id in answers then answers[id] else []
  }

  function Send(answers: Answers, id: string, a: Answer): Answers {
    answers[id := Sent(answers, id) + [a]]
  }

  /** `deadlines` is the table; `invoked`, `accepted` and `cleared` are history. */
  datatype Client = Client(
    deadlines: map<string, int>, registered: bool, lastMessageMs: int, heartbeat: int, answers: Answers,
    invoked: set<string>, accepted: set<string>, cleared: set<string>)

  datatype Event =
    | Invoke(id: string, known: bool, timeoutSeconds: int, now: int)
    | WorkerDone(id: string, data: string)
    | Watchdog(now: int)
    | Message(now: int, acknowledged: bool)
    | Disconnected
    | Stop

  function Expired(c: Client, now: int): set<string> {
    set id | id in c.deadlines && now >= c.deadlines[id]
  }

  function TimeOutAll(answers: Answers, ids: set<string>): Answers {
    map id | id in answers.Keys + ids :: Sent(answers, id) + if id in ids then [TimedOut] else []
  }

  lemma TimeOutOneMore(answers: Answers, ids: set<string>, id: string)
    requires id !in ids
    ensures Send(TimeOutAll(answers, ids), id, TimedOut) == TimeOutAll(answers, ids + {id})
  {
    assert Sent(answers, id) + [] == Sent(answers, id);
  }

  lemma TimeOutNone(answers: Answers)
    ensures TimeOutAll(answers, {}) == answers
  {
    assert forall id | id in answers :: Sent(answers, id) + [] == answers[id];
  }

  function Dropped(c: Client): Client {
    c.(deadlines := map[], registered := false, cleared := c.cleared + c.deadlines.Keys)
  }

  function HeartbeatLost(c: Client, now: int): bool {
    c.registered && now - c.lastMessageMs > c.heartbeat * HEARTBEAT_MISS_INTERVALS * 1000
  }

  function React(c: Client, e: Event): Client {
    match e
    case Invoke(id, known, timeoutSeconds, now) =>
      var seen := c.(lastMessageMs := now, invoked := c.invoked + {id});
      if !known then seen.(answers := Send(c.answers, id, ToolNotFound))
      else seen.(deadlines := c.deadlines[id := now + (timeoutSeconds + 5) * 1000], accepted := c.accepted + {id})
    case WorkerDone(id, data) =>
      if id !in c.deadlines then c
      else c.(deadlines := c.deadlines - {id}, answers := Send(c.answers, id, Done(data)))
    case Watchdog(now) =>
      if HeartbeatLost(c, now) then c.(registered := false)
      else
        var expired := Expired(c, now);
        c.(deadlines := c.deadlines - expired, answers := TimeOutAll(c.answers, expired))
    case Message(now, acknowledged) => c.(lastMessageMs := now, registered := c.registered || acknowledged)
    case Disconnected => Dropped(c)
    case Stop => Dropped(c)
  }

  /** The Bridge never uses one request id twice. */
  ghost predicate Next(c: Client, e: Event, d: Client) {
    (e.Invoke? ==> e.id !in c.invoked) && d == React(c, e)
  }

  ghost predicate Init(c: Client) {
    c.deadlines == map[] && c.answers == map[] && c.invoked == {} && c.accepted == {} && c.cleared == {}
  }

  // --- the object ----------------------------------------------------------

  class AgentQuayClient {
    var pending: map<string, int>
    var registered: bool
    var lastMessageMs: int
    const heartbeat: int
    var answers: Answers
    ghost var invoked: set<string>
    ghost var accepted: set<string>
    ghost var cleared: set<string>

    ghost function View(): Client
      reads this
    {
      Client(pending, registered, lastMessageMs, heartbeat, answers, invoked, accepted, cleared)
    }

    constructor (heartbeatInterval: int)
      ensures Init(View()) && heartbeat == if heartbeatInterval > 0 then heartbeatInterval else 30
    {
      pending, registered, lastMessageMs, answers := map[], false, 0, map[];
      heartbeat := if heartbeatInterval > 0 then heartbeatInterval else 30;
      invoked, accepted, cleared := {}, {}, {};
    }

    method SendResult(id: string, a: Answer)
      modifies this`answers
      ensures answers == Send(old(answers), id, a)
    {
      answers := Send(answers, id, a);
    }

    method HandleInvoke(id: string, known: bool, timeoutSeconds: int, now: int)
      modifies this
      ensures View() == React(old(View()), Invoke(id, known, timeoutSeconds, now))
    {
      lastMessageMs := now;
      invoked := invoked + {id};
      if !known {
        SendResult(id, ToolNotFound);
        return;
      }
      pending := pending[id := now + (timeoutSeconds + 5) * 1000];
      accepted := accepted + {id};
    }

    method OnWorkerDone(id: string, data: string)
      modifies this
      ensures View() == React(old(View()), WorkerDone(id, data))
    {
      if id !in pending {
        return;
      }
      pending := pending - {id};
      SendResult(id, Done(data));
    }

    /** Erases the expired entries while it walks the table, in whatever order. */
    method OnWatchdogTick(now: int)
      modifies this
      ensures View() == React(old(View()), Watchdog(now))
    {
      if registered && now - lastMessageMs > heartbeat * HEARTBEAT_MISS_INTERVALS * 1000 {
        registered := false;
        return;
      }
      ghost var before, hit := View(), {};
      TimeOutNone(answers);
      var todo := pending.Keys;
      while todo != {}
        invariant todo <= before.deadlines.Keys
        invariant hit == Expired(before, now) - todo
        invariant pending == before.deadlines - hit
        invariant answers == TimeOutAll(before.answers, hit)
        invariant View() == before.(deadlines := pending, answers := answers)
      {
        var id :| id in todo;
        todo := todo - {id};
        if now >= pending[id] {
          TimeOutOneMore(before.answers, hit, id);
          pending := pending - {id};
          SendResult(id, TimedOut);
          hit := hit + {id};
        }
      }
      assert hit == Expired(before, now);
    }

    method OnDisconnected()
      modifies this
      ensures View() == React(old(View()), Disconnected)
    {
      cleared := cleared + pending.Keys;
      registered, pending := false, map[];
    }

    method StopClient()
      modifies this
      ensures View() == React(old(View()), Stop)
    {
      cleared := cleared + pending.Keys;
      registered, pending := false, map[];
    }
  }

  // --- over every run ------------------------------------------------------

  /** Each accepted invoke is in exactly one of three places: still running,
      cleared, or answered once; nothing else is ever answered twice. */
  ghost predicate Balanced(c: Client) {
    && c.accepted <= c.invoked && c.answers.Keys <= c.invoked
    && c.deadlines.Keys <= c.accepted && c.cleared <= c.accepted
    && c.deadlines.Keys !! c.cleared && c.deadlines.Keys !! c.answers.Keys && c.cleared !! c.answers.Keys
    && c.accepted <= c.deadlines.Keys + c.cleared + c.answers.Keys
    && forall id | id in c.answers :: |c.answers[id]| == 1
  }

  lemma BalanceKept(c: Client, e: Event, d: Client)
    requires Balanced(c) && Next(c, e, d)
    ensures Balanced(d)
  {
  }

  lemma AlwaysBalanced(r: Run<Client, Event>, i: nat)
    requires IsRun(Init, Next, r) && i < |r.states|
    ensures Balanced(r.states[i])
  {
    forall c, e, d | Balanced(c) && Next(c, e, d) ensures Balanced(d) { BalanceKept(c, e, d); }
    Invariant(Init, Next, Balanced, r);
  }

  ghost function Answered(c: Client): set<string> {
    c.answers.Keys * c.accepted
  }

  lemma Count(all: set<string>, x: set<string>, y: set<string>, z: set<string>)
    requires all == x + y + z && x !! y && x !! z && y !! z
    ensures |all| == |x| + |y| + |z|
  {
    assert |x + y| == |x| + |y|;
  }

  lemma Split(c: Client)
    requires Balanced(c)
    ensures c.accepted == Answered(c) + c.cleared + c.deadlines.Keys
    ensures Answered(c) !! c.cleared && Answered(c) !! c.deadlines.Keys && c.cleared !! c.deadlines.Keys
  {
  }

  /** In every run: at most one answer per request, and the accepted invokes are
      those answered plus those cleared plus those still pending. */
  lemma EveryInvokeAccountedFor(r: Run<Client, Event>, i: nat)
    requires IsRun(Init, Next, r) && i < |r.states|
    ensures forall id | id in r.states[i].answers :: |r.states[i].answers[id]| == 1
    ensures r.states[i].accepted == Answered(r.states[i]) + r.states[i].cleared + r.states[i].deadlines.Keys
    ensures |r.states[i].accepted|
         == |Answered(r.states[i])| + |r.states[i].cleared| + |r.states[i].deadlines.Keys|
  {
    AlwaysBalanced(r, i);
    Split(r.states[i]);
    Count(r.states[i].accepted, Answered(r.states[i]), r.states[i].cleared, r.states[i].deadlines.Keys);
  }

  /** A request that left the table, by timeout, by its answer or because the
      connection ended, stays out: a worker finishing later sends nothing. */
  lemma LateWorkerSendsNothing(r: Run<Client, Event>, i: nat, j: nat)
    requires IsRun(Init, Next, r) && i <= j < |r.steps| && r.steps[j].WorkerDone?
    requires r.steps[j].id in r.states[i].invoked && r.steps[j].id !in r.states[i].deadlines
    ensures r.states[j + 1] == r.states[j]
  {
    var id := r.steps[j].id;
    Lasts(Init, Next, (e: Event) => true, (c: Client) => id in c.invoked && id !in c.deadlines, r, i, j);
    assert Next(r.states[j], r.steps[j], r.states[j + 1]);
  }

  /** The watchdog answers exactly the requests past their deadline. */
  lemma WatchdogAnswersExpired(r: Run<Client, Event>, i: nat, id: string)
    requires IsRun(Init, Next, r) && i < |r.steps| && r.steps[i].Watchdog?
    requires id in r.states[i].deadlines && !HeartbeatLost(r.states[i], r.steps[i].now)
    ensures var c, d := r.states[i], r.states[i + 1];
      if r.steps[i].now >= c.deadlines[id] then id !in d.deadlines && Sent(d.answers, id) == [TimedOut]
      else id in d.deadlines && d.deadlines[id] == c.deadlines[id] && id !in d.answers
  {
    AlwaysBalanced(r, i);
    assert Next(r.states[i], r.steps[i], r.states[i + 1]);
  }

  /** A worker that finishes while its request is pending has its data sent, and
      an invoke of an unknown tool is answered so at once. */
  lemma OthersAnswered(r: Run<Client, Event>, i: nat)
    requires IsRun(Init, Next, r) && i < |r.steps|
    ensures var c, d, e := r.states[i], r.states[i + 1], r.steps[i];
      && (e.WorkerDone? && e.id in c.deadlines ==> e.id !in d.deadlines && Sent(d.answers, e.id) == [Done(e.data)])
      && (e.Invoke? && !e.known ==> e.id !in d.deadlines && Sent(d.answers, e.id) == [ToolNotFound])
      && (e.Invoke? && e.known ==> e.id in d.deadlines && Sent(d.answers, e.id) == [])
  {
    AlwaysBalanced(r, i);
    assert Next(r.states[i], r.steps[i], r.states[i + 1]);
  }

  /** The first answer is the only one: it never changes. */
  lemma AnswerIsFinal(r: Run<Client, Event>, i: nat, j: nat, id: string)
    requires IsRun(Init, Next, r) && i <= j < |r.states| && id in r.states[i].answers
    ensures id in r.states[j].answers && r.states[j].answers[id] == r.states[i].answers[id]
  {
    AlwaysBalanced(r, i);
    var answer := r.states[i].answers[id];
    var fact := (c: Client) => Balanced(c) && id in c.answers && c.answers[id] == answer;
    forall c, e, d | fact(c) && Next(c, e, d) ensures fact(d) { BalanceKept(c, e, d); }
    Lasts(Init, Next, (e: Event) => true, fact, r, i, j);
  }

  // --- the timers ----------------------------------------------------------

  /** Step `i` accepts an invoke at `now` with this timeout. */
  ghost predicate Accepts(r: Run<Client, Event>, i: nat, id: string, timeoutSeconds: int, now: int) {
    i < |r.steps| < |r.states| && r.steps[i] == Invoke(id, true, timeoutSeconds, now)
  }

  lemma DeadlineStays(c: Client, e: Event, d: Client, id: string, deadline: int)
    requires Next(c, e, d) && id in c.invoked && (id in c.deadlines ==> c.deadlines[id] == deadline)
    ensures id in d.invoked && (id in d.deadlines ==> d.deadlines[id] == deadline)
  {
  }

  /** A running invoke is timed out by a tick of the watchdog, on a live connection,
      iff its timeout and five more seconds have passed since it was accepted. */
  lemma TimedOutIff(r: Run<Client, Event>, i: nat, j: nat, id: string, timeoutSeconds: int, now: int)
    requires IsRun(Init, Next, r) && Accepts(r, i, id, timeoutSeconds, now)
    requires i < j < |r.steps| && r.steps[j].Watchdog? && id in r.states[j].deadlines
    requires var c := r.states[j]; !(c.registered && r.steps[j].now - c.lastMessageMs > 4 * c.heartbeat * 1000)
    ensures var d := r.states[j + 1];
      && (id !in d.deadlines <==> r.steps[j].now >= now + timeoutSeconds * 1000 + 5000)
      && Sent(d.answers, id) == if id in d.deadlines then [] else [TimedOut]
  {
    assert Next(r.states[i], r.steps[i], r.states[i + 1]);
    var deadline := now + (timeoutSeconds + 5) * 1000;
    var fact := (c: Client) => id in c.invoked && (id in c.deadlines ==> c.deadlines[id] == deadline);
    forall c, e, d | fact(c) && Next(c, e, d) ensures fact(d) { DeadlineStays(c, e, d, id, deadline); }
    Lasts(Init, Next, (e: Event) => true, fact, r, i + 1, j);
    WatchdogAnswersExpired(r, j, id);
  }

  /** A message of any kind comes in at `now`. */
  predicate Hears(e: Event, now: int) {
    (e.Message? || e.Invoke?) && e.now == now
  }

  /** A tick of the watchdog gives a registered connection up, and does nothing
      else, iff more than four heartbeat intervals have passed since the last message. */
  lemma GivesUpIff(r: Run<Client, Event>, i: nat, j: nat, now: int)
    requires IsRun(Init, Next, r) && i < j < |r.steps| && Hears(r.steps[i], now) && r.steps[j].Watchdog?
    requires forall k | i < k < j :: !r.steps[k].Message? && !r.steps[k].Invoke?
    ensures var c, d := r.states[j], r.states[j + 1];
      && (c.registered ==> (!d.registered <==> r.steps[j].now - now > 4 * c.heartbeat * 1000))
      && (c.registered != d.registered ==> d == c.(registered := false))
      && d.lastMessageMs == now
  {
    assert Next(r.states[i], r.steps[i], r.states[i + 1]);
    var allowed := (e: Event) => !e.Message? && !e.Invoke?;
    Lasts(Init, Next, allowed, (c: Client) => c.lastMessageMs == now, r, i + 1, j);
    assert Next(r.states[j], r.steps[j], r.states[j + 1]);
  }

  /** When the connection ends or the client is stopped, every running invoke is
      forgotten without an answer, and the client is not registered. */
  lemma EndForgetsAll(r: Run<Client, Event>, i: nat)
    requires IsRun(Init, Next, r) && i < |r.steps| && (r.steps[i].Disconnected? || r.steps[i].Stop?)
    ensures var c, d := r.states[i], r.states[i + 1];
      && d.deadlines == map[] && !d.registered && d.answers == c.answers
      && forall id | id in c.deadlines :: id in d.cleared && id !in d.answers
  {
    AlwaysBalanced(r, i);
    assert Next(r.states[i], r.steps[i], r.states[i + 1]);
  }

  /** The acknowledgement registers the client until its connection ends or is given up. */
  lemma AcknowledgedStays(r: Run<Client, Event>, i: nat, j: nat)
    requires IsRun(Init, Next, r) && i < j < |r.states| && r.steps[i].Message? && r.steps[i].acknowledged
    requires forall k | i < k < j :: !r.steps[k].Watchdog? && !r.steps[k].Disconnected? && !r.steps[k].Stop?
    ensures r.states[j].registered
  {
    assert Next(r.states[i], r.steps[i], r.states[i + 1]);
    var allowed := (e: Event) => !e.Watchdog? && !e.Disconnected? && !e.Stop?;
    Lasts(Init, Next, allowed, (c: Client) => c.registered, r, i + 1, j);
  }
}
