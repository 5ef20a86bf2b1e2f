/**
  How several Bridge instances on one machine converge (main.go, peer.go): they
  share one port file; an embedded instance gives way to a service it finds
  there, and a service moves to the default port once that is free.

  An instance starts on the first free port of its range and writes the port file.
  A tick of a watcher is one step; leaving takes a second one, which frees the
  port. No process crashes and nothing else uses the ports.
 */
module Lifecycle {
  import opened Runs

  datatype Mode = Embedded | Service

  /** `leaving` is set once the instance has decided to stop: true keeps the port file. */
  datatype Instance = Instance(mode: Mode, port: int, leaving: Option<bool>)

  const AUTO_PORT_SPAN := 10

  datatype State = State(instances: map<nat, Instance>, used: set<nat>, portFile: Option<int>, defaultPort: int)

  datatype Step =
    | Start(id: nat, mode: Mode, port: int)
    | TickEmbedded(id: nat, idle: bool)
    | TickService(id: nat)
    | Leave(id: nat)

  ghost predicate Taken(s: State, port: int) {
    exists id | id in s.instances :: s.instances[id].port == port
  }

  /** The port file names an instance other than the asking one, and that one is a service. */
  ghost predicate SuperiorService(s: State, selfPort: int) {
    && s.portFile.Some? && s.portFile.value != selfPort
    && exists id | id in s.instances :: s.instances[id].port == s.portFile.value && s.instances[id].mode == Service
  }

  ghost predicate Enabled(s: State, a: Step) {
    match a
    case Start(id, _, port) =>
      && id !in s.used && !Taken(s, port)
      && s.defaultPort <= port < s.defaultPort + AUTO_PORT_SPAN
      && forall p | s.defaultPort <= p < port :: Taken(s, p)
    case TickEmbedded(id, _) => id in s.instances && s.instances[id].mode == Embedded && s.instances[id].leaving.None?
    case TickService(id) => id in s.instances && s.instances[id].mode == Service
    case Leave(id) => id in s.instances && s.instances[id].leaving.Some?
  }

  ghost function Apply(s: State, a: Step): State
    requires Enabled(s, a)
  {
    match a
    case Start(id, mode, port) =>
      s.(instances := s.instances[id := Instance(mode, port, None)], used := s.used + {id}, portFile := Some(port))
    case TickEmbedded(id, idle) =>
      var self := s.instances[id];
      if SuperiorService(s, self.port) then s.(instances := s.instances[id := self.(leaving := Some(true))])
      else if idle then s.(instances := s.instances[id := self.(leaving := Some(false))])
      else s
    case TickService(id) =>
      var self := s.instances[id];
      if self.port == s.defaultPort || Taken(s, s.defaultPort) then s
      else s.(instances := s.instances[id := self.(port := s.defaultPort)], portFile := Some(s.defaultPort))
    case Leave(id) =>
      s.(instances := s.instances - {id},
         portFile := if s.instances[id].leaving.value then s.portFile else None)
  }

  ghost predicate Init(s: State) {
    s.instances == map[] && s.used == {} && s.portFile == None
  }

  ghost predicate Next(s: State, a: Step, t: State) {
    Enabled(s, a) && t == Apply(s, a)
  }

  ghost predicate IsLifecycleRun(r: Run<State, Step>) {
    IsRun(Init, Next, r)
  }

  ghost predicate PortsDistinct(s: State) {
    && s.instances.Keys <= s.used
    && (forall i, j | i in s.instances && j in s.instances && i != j :: s.instances[i].port != s.instances[j].port)
    && (forall i | i in s.instances :: s.defaultPort <= s.instances[i].port < s.defaultPort + 10)
  }

  /** No two instances ever listen on one port, and all are among the ten from the default one. */
  lemma PortsStayDistinct(r: Run<State, Step>, i: nat)
    requires IsLifecycleRun(r) && i < |r.states|
    ensures PortsDistinct(r.states[i])
  {
    Invariant(Init, Next, PortsDistinct, r);
  }

  /** An instance starts on the first free port and says so in the port file. */
  lemma StartsOnFirstFreePort(r: Run<State, Step>, i: nat)
    requires IsLifecycleRun(r) && i < |r.steps| && r.steps[i].Start?
    ensures var s, t, a := r.states[i], r.states[i + 1], r.steps[i];
      && a.id in t.instances && t.instances[a.id] == Instance(a.mode, a.port, None) && t.portFile == Some(a.port)
      && (forall id | id in s.instances :: s.instances[id].port != a.port)
      && (forall p | s.defaultPort <= p < a.port :: Taken(s, p))
      && (forall id | id in s.instances :: id in t.instances && t.instances[id] == s.instances[id])
  {
    assert Next(r.states[i], r.steps[i], r.states[i + 1]);
    PortsStayDistinct(r, i);
  }

  // --- one service, started last -------------------------------------------

  /** The service runs, all others are embedded, and the port file names the
      service or is gone. */
  ghost predicate ServiceRules(s: State, svc: nat) {
    && PortsDistinct(s)
    && svc in s.instances && s.instances[svc].mode == Service && s.instances[svc].leaving.None?
    && s.portFile in {None, Some(s.instances[svc].port)}
    && forall id | id in s.instances && id != svc :: s.instances[id].mode == Embedded
  }

  lemma RulesKept(s: State, a: Step, svc: nat)
    requires ServiceRules(s, svc) && Enabled(s, a) && !a.Start?
    ensures ServiceRules(Apply(s, a), svc)
  {
  }

  /** Step `i` starts the service `svc` while every other instance is embedded,
      and nothing starts after it. */
  ghost predicate ServiceStartedLast(r: Run<State, Step>, i: nat, svc: nat) {
    && i < |r.steps| < |r.states|
    && r.steps[i].Start? && r.steps[i].id == svc && r.steps[i].mode == Service
    && (forall id | id in r.states[i].instances :: r.states[i].instances[id].mode == Embedded)
    && (forall k | i < k < |r.steps| :: !r.steps[k].Start?)
  }

  lemma ServiceRulesFrom(r: Run<State, Step>, i: nat, svc: nat, j: nat)
    requires IsLifecycleRun(r) && ServiceStartedLast(r, i, svc) && i < j < |r.states|
    ensures ServiceRules(r.states[j], svc)
  {
    PortsStayDistinct(r, i);
    PortsStayDistinct(r, i + 1);
    assert Next(r.states[i], r.steps[i], r.states[i + 1]);
    var allowed := (a: Step) => !a.Start?;
    var fact := (s: State) => ServiceRules(s, svc);
    forall s, a, t | fact(s) && Next(s, a, t) && allowed(a) ensures fact(t) { RulesKept(s, a, svc); }
    Lasts(Init, Next, allowed, fact, r, i + 1, j);
  }

  // --- the port file after the start of the service ------------------------

  /** Step `k` takes the port file away: an instance that went idle exits. */
  ghost predicate Removes(r: Run<State, Step>, k: nat) {
    && k < |r.steps| < |r.states|
    && r.steps[k].Leave? && r.steps[k].id in r.states[k].instances
    && r.states[k].instances[r.steps[k].id].leaving == Some(false)
  }

  /** Step `k` moves the service to the default port, which writes the port file. */
  ghost predicate Moves(r: Run<State, Step>, k: nat, svc: nat) {
    && k < |r.steps| < |r.states|
    && r.steps[k] == TickService(svc) && svc in r.states[k].instances
    && r.states[k].instances[svc].port != r.states[k].defaultPort && !Taken(r.states[k], r.states[k].defaultPort)
  }

  /** Before state `k`, an instance exited as idle after the service last wrote
      the port file, at its start in step `i` or at its move. */
  ghost predicate FileGone(r: Run<State, Step>, i: nat, svc: nat, k: nat) {
    exists x :: i < x < k && Removes(r, x) && forall y | x < y < k :: !Moves(r, y, svc)
  }

  lemma FileGoneStep(r: Run<State, Step>, i: nat, svc: nat, k: nat)
    requires i < k
    ensures FileGone(r, i, svc, k + 1) <==> Removes(r, k) || (FileGone(r, i, svc, k) && !Moves(r, k, svc))
  {
    if FileGone(r, i, svc, k) && !Moves(r, k, svc) {
      var x :| i < x < k && Removes(r, x) && forall y | x < y < k :: !Moves(r, y, svc);
      assert forall y | x < y < k + 1 :: !Moves(r, y, svc);
    }
    if FileGone(r, i, svc, k + 1) && !Removes(r, k) {
      var x :| i < x < k + 1 && Removes(r, x) && forall y | x < y < k + 1 :: !Moves(r, y, svc);
      assert x < k;
    }
  }

  /** The file is gone exactly then; else it names the service. */
  lemma {:induction false} FileGoneIff(r: Run<State, Step>, i: nat, svc: nat, k: nat)
    requires IsLifecycleRun(r) && ServiceStartedLast(r, i, svc) && i < k < |r.states|
    ensures r.states[k].portFile == None <==> FileGone(r, i, svc, k)
    ensures ServiceRules(r.states[k], svc)
  {
    ServiceRulesFrom(r, i, svc, k);
    assert Next(r.states[k - 1], r.steps[k - 1], r.states[k]);
    if i + 1 < k {
      FileGoneIff(r, i, svc, k - 1);
      FileGoneStep(r, i, svc, k - 1);
    }
  }

  /** A tick of an embedded instance makes it give way iff no instance has
      exited as idle since the service last wrote the port file; else it leaves
      only if it is idle. The tick does not touch the port file. */
  lemma EmbeddedGivesWayIff(r: Run<State, Step>, i: nat, svc: nat, k: nat)
    requires IsLifecycleRun(r) && ServiceStartedLast(r, i, svc)
    requires i < k < |r.steps| && r.steps[k].TickEmbedded?
    ensures var t, a := r.states[k + 1], r.steps[k];
      && a.id in t.instances && t.portFile == r.states[k].portFile
      && (t.instances[a.id].leaving == Some(true) <==> !FileGone(r, i, svc, k))
      && (t.instances[a.id].leaving == Some(false) <==> FileGone(r, i, svc, k) && a.idle)
  {
    FileGoneIff(r, i, svc, k);
    assert Next(r.states[k], r.steps[k], r.states[k + 1]);
  }

  // --- when the hand-over ends as it should --------------------------------

  /** Step `k` is a tick at which the embedded instance `id` decides to leave. */
  ghost predicate LeavingTick(r: Run<State, Step>, i: nat, svc: nat, k: nat, id: nat) {
    && k < |r.steps|
    && r.steps[k].TickEmbedded? && r.steps[k].id == id
    && (r.steps[k].idle || !FileGone(r, i, svc, k))
  }

  /** `id` was leaving when the service started, or decided to before state `m`. */
  ghost predicate Decides(r: Run<State, Step>, i: nat, svc: nat, m: nat, id: nat)
    requires i < |r.states| && id in r.states[i].instances
  {
    r.states[i].instances[id].leaving.Some? || exists k :: i < k < m && LeavingTick(r, i, svc, k, id)
  }

  ghost predicate LeftOrLeaving(s: State, id: nat) {
    id in s.instances ==> s.instances[id].leaving.Some?
  }

  lemma DecidesStep(r: Run<State, Step>, i: nat, svc: nat, m: nat, id: nat)
    requires i < m && i < |r.states| && id in r.states[i].instances
    ensures Decides(r, i, svc, m + 1, id) <==> Decides(r, i, svc, m, id) || LeavingTick(r, i, svc, m, id)
  {
    if k :| i < k < m + 1 && LeavingTick(r, i, svc, k, id) {
      assert k < m || k == m;
    }
  }

  /** Its ticks alone say whether an embedded instance has left or is leaving. */
  lemma {:induction false} LeavesIffDecides(r: Run<State, Step>, i: nat, svc: nat, m: nat, id: nat)
    requires IsLifecycleRun(r) && ServiceStartedLast(r, i, svc) && i < m < |r.states|
    requires id in r.states[i].instances
    ensures LeftOrLeaving(r.states[m], id) <==> Decides(r, i, svc, m, id)
  {
    PortsStayDistinct(r, i);
    assert Next(r.states[m - 1], r.steps[m - 1], r.states[m]);
    if i + 1 < m {
      LeavesIffDecides(r, i, svc, m - 1, id);
      DecidesStep(r, i, svc, m - 1, id);
      if r.steps[m - 1].TickEmbedded? {
        EmbeddedGivesWayIff(r, i, svc, m - 1);
      }
    }
  }

  lemma GoneForGood(r: Run<State, Step>, i: nat, j: nat, id: nat)
    requires IsLifecycleRun(r) && i <= j < |r.states|
    requires id !in r.states[i].instances
    requires forall k | i <= k < j :: !r.steps[k].Start?
    ensures id !in r.states[j].instances
  {
    Lasts(Init, Next, (a: Step) => !a.Start?, (s: State) => id !in s.instances, r, i, j);
  }

  /** Whoever decided to leave has left. */
  ghost predicate LeaversGone(s: State) {
    forall id | id in s.instances :: s.instances[id].leaving.None?
  }

  /** The service is alone iff every embedded instance decided to leave and then left. */
  lemma OnlyServiceRemains(r: Run<State, Step>, i: nat, svc: nat, m: nat)
    requires IsLifecycleRun(r) && ServiceStartedLast(r, i, svc)
    requires i < m < |r.states|
    ensures r.states[m].instances.Keys == {svc}
       <==> LeaversGone(r.states[m]) && forall id | id in r.states[i].instances :: Decides(r, i, svc, m, id)
  {
    ServiceRulesFrom(r, i, svc, m);
    assert Next(r.states[i], r.steps[i], r.states[i + 1]);
    PortsStayDistinct(r, i);
    forall id | id in r.states[i].instances
      ensures id != svc && (LeftOrLeaving(r.states[m], id) <==> Decides(r, i, svc, m, id))
    {
      LeavesIffDecides(r, i, svc, m, id);
    }
    forall id | id in r.states[m].instances ensures id == svc || id in r.states[i].instances {
      if id !in r.states[i + 1].instances {
        GoneForGood(r, i + 1, m, id);
      }
    }
  }

  ghost predicate HandedOver(s: State, svc: nat) {
    && s.instances.Keys == {svc} && s.instances[svc] == Instance(Service, s.defaultPort, None)
    && s.portFile == Some(s.defaultPort)
  }

  /** After a tick of the service: it is alone, on the default port and named by
      the port file iff every embedded instance had decided to leave, by a tick at
      which it was idle or gave way, had left, and none has exited as idle since
      the service last wrote the port file. */
  lemma HandoverCompletesIff(r: Run<State, Step>, i: nat, svc: nat, m: nat)
    requires IsLifecycleRun(r) && ServiceStartedLast(r, i, svc)
    requires i < m < |r.steps| && r.steps[m] == TickService(svc)
    ensures HandedOver(r.states[m + 1], svc)
       <==> && (forall id | id in r.states[i].instances :: Decides(r, i, svc, m, id))
            && LeaversGone(r.states[m]) && !FileGone(r, i, svc, m + 1)
  {
    FileGoneIff(r, i, svc, m + 1);
    ServiceRulesFrom(r, i, svc, m);
    OnlyServiceRemains(r, i, svc, m);
    assert Next(r.states[m], r.steps[m], r.states[m + 1]);
    assert r.states[m + 1].instances.Keys == r.states[m].instances.Keys;
    assert r.states[m].instances.Keys == {svc} ==> forall id | id in r.states[m].instances :: id == svc;
  }

  /** What was handed over stays so. */
  lemma HandedOverStays(r: Run<State, Step>, k: nat, j: nat, svc: nat)
    requires IsLifecycleRun(r) && k <= j < |r.states| && HandedOver(r.states[k], svc)
    requires forall x | k <= x < j :: !r.steps[x].Start?
    ensures r.states[j] == r.states[k]
  {
    Lasts(Init, Next, (a: Step) => !a.Start?, (s: State) => s == r.states[k], r, k, j);
  }

  lemma {:induction false} FileKept(r: Run<State, Step>, i: nat, svc: nat, k: nat)
    requires IsLifecycleRun(r) && ServiceStartedLast(r, i, svc) && i < k < |r.states|
    requires forall id | id in r.states[i].instances :: r.states[i].instances[id].leaving != Some(false)
    ensures !FileGone(r, i, svc, k)
    ensures forall id | id in r.states[k].instances :: r.states[k].instances[id].leaving != Some(false)
  {
    assert Next(r.states[k - 1], r.steps[k - 1], r.states[k]);
    if i + 1 < k {
      FileKept(r, i, svc, k - 1);
      FileGoneStep(r, i, svc, k - 1);
      if r.steps[k - 1].TickEmbedded? {
        EmbeddedGivesWayIff(r, i, svc, k - 1);
      }
    }
  }

  /** In particular the hand-over completes, and stays complete, if nobody was on
      its way out as idle when the service started, every other embedded instance
      has ticked since, and whoever decided to leave has left. */
  lemma HandoverCompletes(r: Run<State, Step>, i: nat, svc: nat, m: nat, j: nat)
    requires IsLifecycleRun(r) && ServiceStartedLast(r, i, svc)
    requires i < m < j < |r.states| && r.steps[m] == TickService(svc) && LeaversGone(r.states[m])
    requires forall id | id in r.states[i].instances :: r.states[i].instances[id].leaving != Some(false)
    requires forall id | id in r.states[i].instances && r.states[i].instances[id].leaving.None? ::
               exists k :: i < k < m && r.steps[k].TickEmbedded? && r.steps[k].id == id
    ensures HandedOver(r.states[j], svc)
  {
    forall id | id in r.states[i].instances ensures Decides(r, i, svc, m, id) {
      if r.states[i].instances[id].leaving.None? {
        var k :| i < k < m && r.steps[k].TickEmbedded? && r.steps[k].id == id;
        FileKept(r, i, svc, k);
        assert LeavingTick(r, i, svc, k, id);
      }
    }
    FileKept(r, i, svc, m + 1);
    HandoverCompletesIff(r, i, svc, m);
    HandedOverStays(r, m + 1, j, svc);
  }

  /** Without the port file, and with the default port taken, nothing moves until
      an embedded instance goes idle. */
  lemma StuckUntilIdle(r: Run<State, Step>, k: nat, j: nat, svc: nat)
    requires IsLifecycleRun(r) && k <= j < |r.states|
    requires ServiceRules(r.states[k], svc) && LeaversGone(r.states[k])
    requires r.states[k].portFile == None && Taken(r.states[k], r.states[k].defaultPort)
    requires forall x | k <= x < j :: !r.steps[x].Start? && !(r.steps[x].TickEmbedded? && r.steps[x].idle)
    ensures r.states[j] == r.states[k]
  {
    var allowed := (a: Step) => !a.Start? && !(a.TickEmbedded? && a.idle);
    Lasts(Init, Next, allowed, (s: State) => s == r.states[k], r, k, j);
  }

  const IDLE := Instance(Embedded, 19847, Some(false))
  const SERVICE := Instance(Service, 19846, None)

  lemma IdleLeaverReachable() returns (r: Run<State, Step>)
    ensures IsLifecycleRun(r) && |r.steps| == 5
    ensures r.states[5] == State(map[1 := IDLE], {0, 1}, None, 19846)
  {
    var e0, e1 := Instance(Embedded, 19846, None), Instance(Embedded, 19847, None);
    var s0 := State(map[], {}, None, 19846);
    var s1 := State(map[0 := e0], {0}, Some(19846), 19846);
    var s2 := State(map[0 := e0, 1 := e1], {0, 1}, Some(19847), 19846);
    var s3 := s2.(instances := map[0 := e0.(leaving := Some(false)), 1 := e1]);
    var s4 := State(map[1 := e1], {0, 1}, None, 19846);
    var s5 := s4.(instances := map[1 := IDLE]);
    assert Next(s0, Start(0, Embedded, 19846), s1);
    assert s1.instances[0].port == 19846;
    assert Next(s1, Start(1, Embedded, 19847), s2);
    assert Next(s2, TickEmbedded(0, true), s3);
    assert Next(s3, Leave(0), s4);
    assert Next(s4, TickEmbedded(1, true), s5);
    r := Run([s0, s1, s2, s3, s4, s5],
             [Start(0, Embedded, 19846), Start(1, Embedded, 19847), TickEmbedded(0, true), Leave(0),
              TickEmbedded(1, true)]);
  }

  /** Not every hand-over ends well: an embedded instance that went idle just
      before the service started removes the service's port file, and the service,
      already on the default port, does not write it again. */
  lemma IdleLeaverLosesPortFile() returns (r: Run<State, Step>)
    ensures IsLifecycleRun(r) && |r.steps| == 8
    ensures ServiceStartedLast(r, 5, 2) && r.steps[6] == Leave(1) && r.steps[7] == TickService(2)
    ensures r.states[8].instances == map[2 := SERVICE] && r.states[8].portFile == None
  {
    var r5 := IdleLeaverReachable();
    var s6 := State(map[1 := IDLE, 2 := SERVICE], {0, 1, 2}, Some(19846), 19846);
    var s7 := State(map[2 := SERVICE], {0, 1, 2}, None, 19846);
    assert Next(r5.states[5], Start(2, Service, 19846), s6);
    assert Next(s6, Leave(1), s7);
    assert Next(s7, TickService(2), s7);
    var r6 := Extended(Init, Next, r5, Start(2, Service, 19846), s6);
    var r7 := Extended(Init, Next, r6, Leave(1), s7);
    r := Extended(Init, Next, r7, TickService(2), s7);
  }

  const BUSY := Instance(Embedded, 19846, None)
  const DRIFTED := Instance(Service, 19848, None)

  lemma DriftedServiceReachable() returns (r: Run<State, Step>)
    ensures IsLifecycleRun(r) && |r.steps| == 4 && ServiceStartedLast(r, 3, 2)
    ensures r.states[4] == State(map[0 := BUSY, 1 := IDLE, 2 := DRIFTED], {0, 1, 2}, Some(19848), 19846)
  {
    var s0 := State(map[], {}, None, 19846);
    var s1 := State(map[0 := BUSY], {0}, Some(19846), 19846);
    var s2 := State(map[0 := BUSY, 1 := IDLE.(leaving := None)], {0, 1}, Some(19847), 19846);
    var s3 := s2.(instances := map[0 := BUSY, 1 := IDLE]);
    var s4 := State(map[0 := BUSY, 1 := IDLE, 2 := DRIFTED], {0, 1, 2}, Some(19848), 19846);
    assert Next(s0, Start(0, Embedded, 19846), s1);
    assert s1.instances[0].port == 19846;
    assert Next(s1, Start(1, Embedded, 19847), s2);
    assert Next(s2, TickEmbedded(1, true), s3);
    assert s3.instances[0].port == 19846 && s3.instances[1].port == 19847;
    assert Next(s3, Start(2, Service, 19848), s4);
    r := Run([s0, s1, s2, s3, s4],
             [Start(0, Embedded, 19846), Start(1, Embedded, 19847), TickEmbedded(1, true), Start(2, Service, 19848)]);
  }

  /** Nor does it always end: an embedded instance with apps holds the default
      port, an idle one removes the port file, and then the first never sees the
      service, which never gets its port. */
  lemma IdleLeaverBlocksHandover() returns (r: Run<State, Step>)
    ensures IsLifecycleRun(r) && |r.steps| == 7 && ServiceStartedLast(r, 3, 2)
    ensures r.steps[4] == Leave(1) && r.steps[5] == TickEmbedded(0, false) && r.steps[6] == TickService(2)
    ensures r.states[7] == State(map[0 := BUSY, 2 := DRIFTED], {0, 1, 2}, None, 19846)
  {
    var r4 := DriftedServiceReachable();
    var s5 := State(map[0 := BUSY, 2 := DRIFTED], {0, 1, 2}, None, 19846);
    assert Next(r4.states[4], Leave(1), s5);
    assert Next(s5, TickEmbedded(0, false), s5);
    assert s5.instances[0].port == 19846;
    assert Next(s5, TickService(2), s5);
    var r5 := Extended(Init, Next, r4, Leave(1), s5);
    var r6 := Extended(Init, Next, r5, TickEmbedded(0, false), s5);
    r := Extended(Init, Next, r6, TickService(2), s5);
  }

  // --- the idle rule of an embedded instance -------------------------------

  /** What one tick of the watcher sees. */
  datatype Tick = Tick(now: int, superior: bool, apps: nat)

  datatype Exit = GaveWay(at: nat) | WentIdle(at: nat) | StillRunning

  /** At tick `k` there is no superior service, the watcher has run for `grace`,
      and no tick of the last `grace` saw an app. */
  ghost predicate QuietAt(start: int, grace: int, ticks: seq<Tick>, k: nat)
    requires k < |ticks|
  {
    && grace > 0 && !ticks[k].superior && ticks[k].now - start >= grace
    && forall m | 0 <= m <= k && ticks[k].now - ticks[m].now < grace :: ticks[m].apps == 0
  }

  ghost predicate Ordered(start: int, ticks: seq<Tick>) {
    && (forall k | 0 <= k < |ticks| :: start <= ticks[k].now)
    && (forall m, k | 0 <= m < k < |ticks| :: ticks[m].now <= ticks[k].now)
  }

  /** The watcher gives way at the first tick that sees a superior service, exits as
      idle at the first tick after a quiet window, whichever comes first, and else runs on. */
  method WatchEmbedded(start: int, grace: int, ticks: seq<Tick>) returns (exit: Exit)
    requires Ordered(start, ticks)
    ensures exit.StillRunning?
       <==> forall m | 0 <= m < |ticks| :: !ticks[m].superior && !QuietAt(start, grace, ticks, m)
    ensures !exit.StillRunning? ==>
      && exit.at < |ticks|
      && (if exit.GaveWay? then ticks[exit.at].superior else QuietAt(start, grace, ticks, exit.at))
      && forall m | 0 <= m < exit.at :: !ticks[m].superior && !QuietAt(start, grace, ticks, m)
  {
    var lastAppsAt := start;
    for k := 0 to |ticks|
      invariant forall m | 0 <= m < k :: !ticks[m].superior && !QuietAt(start, grace, ticks, m)
      invariant forall m | 0 <= m < k && ticks[m].apps > 0 :: ticks[m].now <= lastAppsAt
      invariant start <= lastAppsAt
      invariant lastAppsAt == start || exists m :: 0 <= m < k && ticks[m].apps > 0 && ticks[m].now == lastAppsAt
    {
      if ticks[k].superior {
        return GaveWay(k);
      }
      if ticks[k].apps > 0 {
        lastAppsAt := ticks[k].now;
        continue;
      }
      if grace <= 0 {
        continue;
      }
      if ticks[k].now - lastAppsAt >= grace {
        return WentIdle(k);
      }
    }
    return StillRunning;
  }
}
