/**
  The launch limiter (launcher.go): per-app deduplication and a bound on how many
  launches are in flight, over time. The clock is an integer in nanoseconds.
 */
module Launcher {
  import opened Runs

  const SECOND := 1_000_000_000

  function LaunchTimeout(stored: int, defaultSeconds: int): (t: int)
    ensures t >= SECOND
  {
    if stored > 0 then stored * SECOND else if defaultSeconds > 0 then defaultSeconds * SECOND else 15 * SECOND
  }

  function MaxConcurrent(configured: int): nat {
    if configured <= 0 then 3 else configured
  }

  /** What a launch consults besides its own table: the settings, which apps are
      stored with which timeout, and which are online now. */
  datatype World = World(
    configured: int, defaultSeconds: int, timeouts: map<string, int>,
    installed: set<string>, online: set<string>, now: int)
  {
    /** After this long an entry no longer counts. */
    function Window(app: string): int {
      LaunchTimeout(if app in timeouts then timeouts[app] else 0, defaultSeconds) + 10 * SECOND
    }

    predicate Stale(app: string, since: int) {
      || (app in installed && now - since > Window(app))
      || app in online
    }
  }

  type Inflight = map<string, int>

  function Pruned(inflight: Inflight, w: World): Inflight {
    map app | app in inflight && !w.Stale(app, inflight[app]) :: inflight[app]
  }

  datatype Admission = LimitReached | Joined | Inserted

  /** What the locked section of a launch decides. */
  function Admit(inflight: Inflight, w: World, app: string): Admission {
    var kept := Pruned(inflight, w);
    if |kept| >= MaxConcurrent(w.configured) then LimitReached else if app in kept then Joined else Inserted
  }

  function AfterAdmit(inflight: Inflight, w: World, app: string): Inflight {
    var kept := Pruned(inflight, w);
    if Admit(inflight, w, app).Inserted? then kept[app := w.now] else kept
  }

  lemma PrunedTwice(inflight: Inflight, w: World)
    ensures Pruned(Pruned(inflight, w), w) == Pruned(inflight, w)
  {
  }

  class Service {
    var inflight: Inflight

    constructor ()
      ensures inflight == map[]
    {
      inflight := map[];
    }

    method PruneLocked(w: World)
      modifies this
      ensures inflight == Pruned(old(inflight), w)
    {
      var todo := inflight.Keys;
      while todo != {}
        invariant todo <= inflight.Keys <= old(inflight).Keys
        invariant forall app | app in inflight :: inflight[app] == old(inflight)[app]
        invariant forall app | app in old(inflight) && app !in todo ::
                    app in inflight <==> !w.Stale(app, old(inflight)[app])
      {
        var app :| app in todo;
        todo := todo - {app};
        if app in w.installed && w.now - inflight[app] > w.Window(app) {
          inflight := inflight - {app};
          continue;
        }
        if app in w.online {
          inflight := inflight - {app};
        }
      }
    }

    method MaxConcurrentReached(w: World) returns (reached: bool)
      modifies this
      ensures inflight == Pruned(old(inflight), w)
      ensures reached <==> |inflight| >= MaxConcurrent(w.configured)
    {
      PruneLocked(w);
      reached := |inflight| >= MaxConcurrent(w.configured);
    }

    /** The locked section of `Launch`. */
    method Enter(w: World, app: string) returns (admission: Admission)
      modifies this
      ensures admission == Admit(old(inflight), w, app)
      ensures inflight == AfterAdmit(old(inflight), w, app)
    {
      PruneLocked(w);
      PrunedTwice(inflight, w);
      PrunedTwice(old(inflight), w);
      var limit := MaxConcurrentReached(w);
      if limit {
        return LimitReached;
      }
      if app in inflight {
        return Joined;
      }
      inflight := inflight[app := w.now];
      return Inserted;
    }

    method ClearInflight(app: string)
      modifies this
      ensures inflight == old(inflight) - {app}
    {
      inflight := inflight - {app};
    }
  }

  // --- calls, registrations and the clock ----------------------------------

  /** Where one launch call stands. */
  datatype Call =
    | Checked(app: string)   // found the app offline
    | Spawning(app: string)  // inserted the entry, starting the process
    | Waiting(app: string)   // polls for the registration
    | Sighted(app: string)   // saw the app online, about to clear its entry

  datatype State = State(w: World, inflight: Inflight, calls: map<nat, Call>)

  datatype Step =
    | Tick(d: nat)
    | GoOnline(app: string)
    | GoOffline(app: string)
    | Install(app: string)
    | Remove(app: string)
    | Start(call: nat, app: string)
    | Begin(call: nat)
    | SpawnOk(call: nat)
    | SpawnFails(call: nat, app: string)
    | See(call: nat)
    | Clear(call: nat)
    | GiveUp(call: nat)

  predicate Enabled(s: State, a: Step) {
    match a
    case Start(call, app) => call !in s.calls && app in s.w.installed
    case Begin(call) => call in s.calls && s.calls[call].Checked?
    case SpawnOk(call) => call in s.calls && s.calls[call].Spawning?
    case SpawnFails(call, app) => call in s.calls && s.calls[call] == Spawning(app)
    case See(call) => call in s.calls && s.calls[call].Waiting? && s.calls[call].app in s.w.online
    case Clear(call) => call in s.calls && s.calls[call].Sighted?
    case GiveUp(call) => call in s.calls && s.calls[call].Waiting?
    case _ => true
  }

  function Apply(s: State, a: Step): State
    requires Enabled(s, a)
  {
    match a
    case Tick(d) => s.(w := s.w.(now := s.w.now + d))
    case GoOnline(app) => s.(w := s.w.(online := s.w.online + {app}))
    case GoOffline(app) => s.(w := s.w.(online := s.w.online - {app}))
    case Install(app) => s.(w := s.w.(installed := s.w.installed + {app}))
    case Remove(app) => s.(w := s.w.(installed := s.w.installed - {app}))
    case Start(call, app) =>
      s.(calls := s.calls[call := if app in s.w.online then Sighted(app) else Checked(app)])
    case Begin(call) =>
      var app := s.calls[call].app;
      s.(inflight := AfterAdmit(s.inflight, s.w, app),
         calls := match Admit(s.inflight, s.w, app)
                  case LimitReached => s.calls - {call}
                  case Joined => s.calls[call := Waiting(app)]
                  case Inserted => s.calls[call := Spawning(app)])
    case SpawnOk(call) => s.(calls := s.calls[call := Waiting(s.calls[call].app)])
    case SpawnFails(call, app) => s.(inflight := s.inflight - {app}, calls := s.calls - {call})
    case See(call) => s.(calls := s.calls[call := Sighted(s.calls[call].app)])
    case Clear(call) => s.(inflight := s.inflight - {s.calls[call].app}, calls := s.calls - {call})
    case GiveUp(call) => s.(calls := s.calls - {call})
  }

  ghost predicate Init(s: State) {
    s.inflight == map[] && s.calls == map[]
  }

  ghost predicate Next(s: State, a: Step, t: State) {
    Enabled(s, a) && t == Apply(s, a)
  }

  ghost predicate IsLaunchRun(r: Run<State, Step>) {
    IsRun(Init, Next, r)
  }

  // --- the bound -----------------------------------------------------------

  ghost predicate Bounded(s: State) {
    |s.inflight| <= MaxConcurrent(s.w.configured)
  }

  lemma SmallerTable(small: Inflight, big: Inflight)
    requires small.Keys <= big.Keys
    ensures |small| <= |big|
  {
    assert |small| == |small.Keys|;
    assert big.Keys == small.Keys + (big.Keys - small.Keys);
    assert |big.Keys| == |small.Keys| + |big.Keys - small.Keys|;
    assert |big| == |big.Keys|;
  }

  lemma BoundKept(s: State, a: Step)
    requires Bounded(s) && Enabled(s, a)
    ensures Bounded(Apply(s, a))
  {
    match a
    case Begin(call) =>
      var app, kept := s.calls[call].app, Pruned(s.inflight, s.w);
      SmallerTable(kept, s.inflight);
      assert kept[app := s.w.now].Keys == kept.Keys + {app};
      assert |kept[app := s.w.now]| == |kept[app := s.w.now].Keys|;
    case SpawnFails(_, app) => SmallerTable(s.inflight - {app}, s.inflight);
    case Clear(call) => SmallerTable(s.inflight - {s.calls[call].app}, s.inflight);
    case _ =>
  }

  /** At every moment the table has at most the configured number of entries, 3 by default. */
  lemma NeverTooManyInFlight(r: Run<State, Step>, i: nat)
    requires IsLaunchRun(r) && i < |r.states|
    ensures var max := r.states[i].w.configured; |r.states[i].inflight| <= if max > 0 then max else 3
  {
    forall s, a, t | Bounded(s) && Next(s, a, t) ensures Bounded(t) { BoundKept(s, a); }
    Invariant(Init, Next, Bounded, r);
  }

  /** The stored timeout of the app in seconds, else the default one, else 15. */
  function TimeoutSeconds(w: World, app: string): (seconds: int)
    ensures seconds > 0
  {
    if app in w.timeouts && w.timeouts[app] > 0 then w.timeouts[app]
    else if w.defaultSeconds > 0 then w.defaultSeconds
    else 15
  }

  /** The entries that still count: of apps that are offline and, if they are
      installed, were launched no longer ago than their timeout and ten seconds. */
  function Live(inflight: Inflight, w: World): set<string> {
    set app | app in inflight && app !in w.online
      && (app in w.installed ==> w.now - inflight[app] <= (TimeoutSeconds(w, app) + 10) * 1_000_000_000)
  }

  /** At the limit a call is turned away, even for an app with a live entry; below
      it, such an app is joined and any other gets a new entry of this moment. All
      other live entries stay, and no dead one does. */
  lemma AdmissionCountsLive(inflight: Inflight, w: World, app: string)
    ensures var live, full := Live(inflight, w), |Live(inflight, w)| >= (if w.configured > 0 then w.configured else 3);
      && (Admit(inflight, w, app).LimitReached? <==> full)
      && (Admit(inflight, w, app).Joined? <==> !full && app in live)
      && AfterAdmit(inflight, w, app).Keys == live + (if full then {} else {app})
      && (forall a | a in live :: AfterAdmit(inflight, w, app)[a] == inflight[a])
      && (!full && app !in live ==> AfterAdmit(inflight, w, app)[app] == w.now)
  {
    assert Pruned(inflight, w).Keys == Live(inflight, w);
    assert |Pruned(inflight, w)| == |Pruned(inflight, w).Keys|;
  }

  // --- the distance between two launches of one app ------------------------

  /** Step `i` inserts the entry of `app` and goes on to start its process. */
  ghost predicate Begins(r: Run<State, Step>, i: nat, app: string) {
    && i < |r.steps| < |r.states|
    && r.steps[i].Begin? && r.steps[i].call in r.states[i].calls
    && r.states[i].calls[r.steps[i].call] == Checked(app)
    && Admit(r.states[i].inflight, r.states[i].w, app) == Inserted
  }

  /** The entry made at `since` is there, or its window has passed. */
  ghost predicate Guarded(s: State, app: string, since: int, window: int) {
    && app !in s.w.online
    && s.w.Window(app) == window
    && (forall c | c in s.calls :: s.calls[c] != Sighted(app))
    && ((app in s.inflight && s.inflight[app] == since) || s.w.now - since > window)
  }

  lemma GuardKept(s: State, a: Step, app: string, since: int, window: int)
    requires Guarded(s, app, since, window) && Enabled(s, a)
    requires a != GoOnline(app) && !(a.SpawnFails? && a.app == app)
    ensures Guarded(Apply(s, a), app, since, window)
  {
  }

  /** The app does not come online and no start of it fails. */
  predicate Quiet(a: Step, app: string) {
    a != GoOnline(app) && !(a.SpawnFails? && a.app == app)
  }

  /** Nothing but the first launch's own entry decides: the app is offline and no
      call is still about to clear its entry. */
  ghost predicate Undisturbed(s: State, app: string) {
    app !in s.w.online && forall c | c in s.calls :: s.calls[c] != Sighted(app)
  }

  /** From an undisturbed first launch, the next one without a registration and without
      a failed start in between is more than the window away. */
  lemma LaunchesAreApart(r: Run<State, Step>, i: nat, j: nat, app: string)
    requires IsLaunchRun(r) && i < j
    requires Begins(r, i, app) && Begins(r, j, app) && Undisturbed(r.states[i], app)
    requires forall k | i < k < j :: Quiet(r.steps[k], app)
    ensures r.states[j].w.now - r.states[i].w.now > r.states[i].w.Window(app)
    ensures r.states[j].w.now - r.states[i].w.now > (TimeoutSeconds(r.states[i].w, app) + 10) * 1_000_000_000
  {
    var since, window := r.states[i].w.now, r.states[i].w.Window(app);
    assert Next(r.states[i], r.steps[i], r.states[i + 1]);
    var allowed := (a: Step) => Quiet(a, app);
    var fact := (s: State) => Guarded(s, app, since, window);
    forall s, a, t | fact(s) && Next(s, a, t) && allowed(a) ensures fact(t) {
      GuardKept(s, a, app, since, window);
    }
    Lasts(Init, Next, allowed, fact, r, i + 1, j);
  }

  /** A call looks first whether the app is online. Behind the lock it is over if the
      limit is reached, waits if it joined, and starts a process only for a new entry. */
  lemma CallGoesOnAsAdmitted(r: Run<State, Step>, i: nat)
    requires IsLaunchRun(r) && i < |r.steps| && (r.steps[i].Start? || r.steps[i].Begin?)
    ensures var s, t, call := r.states[i], r.states[i + 1], r.steps[i].call;
      if r.steps[i].Start? then
        t.calls == s.calls[call := if r.steps[i].app in s.w.online then Sighted(r.steps[i].app) else
                                                                         Checked(r.steps[i].app)]
      else
        var app, live := s.calls[call].app, Live(s.inflight, s.w);
        t.calls
        == (if |live| >= (if s.w.configured > 0 then s.w.configured else 3) then s.calls - {call}
            else s.calls[call := if app in live then Waiting(app) else Spawning(app)])
  {
    assert Next(r.states[i], r.steps[i], r.states[i + 1]);
    if r.steps[i].Begin? {
      AdmissionCountsLive(r.states[i].inflight, r.states[i].w, r.states[i].calls[r.steps[i].call].app);
    }
  }

  /** A failed start, or the sighting of the app, frees its entry and no other. */
  lemma EntryIsFreed(r: Run<State, Step>, i: nat, app: string)
    requires IsLaunchRun(r) && i < |r.steps|
    requires
      || (r.steps[i].SpawnFails? && r.steps[i].app == app)
      || (r.steps[i].Clear? && r.steps[i].call in r.states[i].calls
          && r.states[i].calls[r.steps[i].call] == Sighted(app))
    ensures r.states[i + 1].inflight == r.states[i].inflight - {app}
    ensures Admit(r.states[i + 1].inflight, r.states[i + 1].w, app) != Joined
  {
    assert Next(r.states[i], r.steps[i], r.states[i + 1]);
  }

  // --- when the distance is kept -------------------------------------------

  /** `r'` goes on as it likes after step `i` of `r`, quietly before step `j`. */
  ghost predicate Follows(r: Run<State, Step>, i: nat, app: string, r': Run<State, Step>, j: nat) {
    && i < |r.steps| < |r.states| && IsLaunchRun(r') && i < j <= |r'.steps|
    && r'.states[..i + 1] == r.states[..i + 1] && r'.steps[..i + 1] == r.steps[..i + 1]
    && forall k | i < k < j :: Quiet(r'.steps[k], app)
  }

  /** Whatever happens after the launch in step `i`, the next one comes after the window. */
  ghost predicate AlwaysApart(r: Run<State, Step>, i: nat, app: string)
    requires i < |r.states|
  {
    forall r': Run<State, Step>, j: nat :: Follows(r, i, app, r', j) && Begins(r', j, app) ==>
      r'.states[j].w.now - r.states[i].w.now > r.states[i].w.Window(app)
  }

  /** However a run goes on after a launch: every later launch, with no
      registration and no failed start in between, is more than the window away,
      iff the app was offline and no call was about to clear its entry. */
  lemma LaunchesAreApartIff(r: Run<State, Step>, i: nat, app: string)
    requires IsLaunchRun(r) && Begins(r, i, app)
    ensures AlwaysApart(r, i, app) <==> Undisturbed(r.states[i], app)
  {
    if Undisturbed(r.states[i], app) {
      forall r': Run<State, Step>, j: nat | Follows(r, i, app, r', j) && Begins(r', j, app)
        ensures r'.states[j].w.now - r.states[i].w.now > r.states[i].w.Window(app)
      {
        assert r'.states[i] == r'.states[..i + 1][i] == r.states[i];
        assert r'.steps[i] == r'.steps[..i + 1][i] == r.steps[i];
        LaunchesAreApart(r', i, j, app);
      }
    } else {
      var r', j := Relaunch(r, i, app);
    }
  }

  ghost function Last(r: Run<State, Step>): State
    requires r.states != []
  {
    r.states[|r.states| - 1]
  }

  /** One more quiet step. */
  lemma Go(r: Run<State, Step>, i: nat, app: string, r': Run<State, Step>, a: Step) returns (r'': Run<State, Step>)
    requires Follows(r, i, app, r', |r'.steps|) && Enabled(Last(r'), a) && Quiet(a, app)
    ensures r'' == Run(r'.states + [Apply(Last(r'), a)], r'.steps + [a])
    ensures Follows(r, i, app, r'', |r''.steps|) && Last(r'') == Apply(Last(r'), a)
  {
    r'' := Extended(Init, Next, r', a, Apply(Last(r'), a));
    assert r''.states[..i + 1] == r'.states[..i + 1] && r''.steps[..i + 1] == r'.steps[..i + 1];
  }

  lemma Prefix(r: Run<State, Step>, i: nat, app: string) returns (r': Run<State, Step>)
    requires IsLaunchRun(r) && i < |r.steps|
    ensures Follows(r, i, app, r', |r'.steps|) && Next(r.states[i], r.steps[i], Last(r'))
  {
    assert Next(r.states[i], r.steps[i], r.states[i + 1]);
    r' := Run(r.states[..i + 2], r.steps[..i + 1]);
    forall k | 0 <= k < |r'.steps| ensures Next(r'.states[k], r'.steps[k], r'.states[k + 1]) {
      assert Next(r.states[k], r.steps[k], r.states[k + 1]);
    }
    assert r'.states[..i + 1] == r.states[..i + 1];
  }

  /** In `t`, at the time of `s`, the app is offline, call `c` is about to clear
      its entry, and the other entries are among those `s` kept. */
  ghost predicate AboutToClear(s: State, t: State, app: string, c: nat) {
    && t.w.now == s.w.now && t.w.configured == s.w.configured && app !in t.w.online
    && c in t.calls && t.calls[c] == Sighted(app)
    && (t.inflight - {app}).Keys <= Pruned(s.inflight, s.w).Keys
  }

  /** After the clearing, the same call can launch the app again at once. */
  lemma AfterClearing(s: State, t: State, app: string, c: nat, u: State)
    requires AboutToClear(s, t, app, c) && |Pruned(s.inflight, s.w)| < MaxConcurrent(s.w.configured)
    requires u.inflight == t.inflight - {app} && u.w == t.w.(installed := t.w.installed + {app})
    ensures Admit(u.inflight, u.w, app) == Inserted
  {
    SmallerTable(Pruned(u.inflight, u.w), Pruned(s.inflight, s.w));
  }

  lemma ClearAndRelaunch(r: Run<State, Step>, i: nat, app: string, r1: Run<State, Step>, c: nat)
      returns (r': Run<State, Step>, j: nat)
    requires Follows(r, i, app, r1, |r1.steps|) && AboutToClear(r.states[i], Last(r1), app, c)
    requires |Pruned(r.states[i].inflight, r.states[i].w)| < MaxConcurrent(r.states[i].w.configured)
    ensures Follows(r, i, app, r', j) && Begins(r', j, app) && r'.states[j].w.now == r.states[i].w.now
  {
    var r2 := Go(r, i, app, r1, Clear(c));
    var r3 := Go(r, i, app, r2, Install(app));
    var r4 := Go(r, i, app, r3, Start(c, app));
    AfterClearing(r.states[i], Last(r1), app, c, Last(r4));
    r' := Go(r, i, app, r4, Begin(c));
    j := |r4.steps|;
    assert r'.states[j] == Last(r4) && r'.steps[j] == Begin(c);
  }

  /** Otherwise a second launch can follow the first while the clock stands still. */
  lemma Relaunch(r: Run<State, Step>, i: nat, app: string) returns (r': Run<State, Step>, j: nat)
    requires IsLaunchRun(r) && Begins(r, i, app) && !Undisturbed(r.states[i], app)
    ensures Follows(r, i, app, r', j) && Begins(r', j, app) && r'.states[j].w.now == r.states[i].w.now
  {
    var s, b := r.states[i], r.steps[i].call;
    var r1 := Prefix(r, i, app);
    assert Last(r1).inflight == Pruned(s.inflight, s.w)[app := s.w.now];
    r1 := Go(r, i, app, r1, SpawnOk(b));
    var c := b;
    if app in s.w.online {
      r1 := Go(r, i, app, r1, See(b));
      r1 := Go(r, i, app, r1, GoOffline(app));
    } else {
      c :| c in s.calls && s.calls[c] == Sighted(app);
    }
    r', j := ClearAndRelaunch(r, i, app, r1, c);
  }

  // --- runs that show why the conditions are there --------------------------

  const OFFLINE := World(1, 0, map[], {"a"}, {}, 0)

  /** App `a` is offline; call 0 saw it online before, calls 1 and 2 found it offline. */
  const THREE_CALLS := State(OFFLINE, map[], map[0 := Sighted("a"), 1 := Checked("a"), 2 := Checked("a")])

  lemma ThreeCallsReachable() returns (r: Run<State, Step>)
    ensures IsLaunchRun(r) && |r.steps| == 4 && r.states[4] == THREE_CALLS
  {
    var s0 := State(OFFLINE.(online := {"a"}), map[], map[]);
    var s1 := s0.(calls := map[0 := Sighted("a")]);
    var s2 := s1.(w := OFFLINE);
    var s3 := s2.(calls := map[0 := Sighted("a"), 1 := Checked("a")]);
    assert s0.w.online - {"a"} == {};
    assert Next(s0, Start(0, "a"), s1);
    assert Next(s1, GoOffline("a"), s2);
    assert Next(s2, Start(1, "a"), s3);
    assert Next(s3, Start(2, "a"), THREE_CALLS);
    r := Run([s0, s1, s2, s3, THREE_CALLS], [Start(0, "a"), GoOffline("a"), Start(1, "a"), Start(2, "a")]);
  }

  const ONE_SPAWNING :=
    State(OFFLINE, map["a" := 0], map[0 := Sighted("a"), 1 := Spawning("a"), 2 := Checked("a")])
  const ENTRY_CLEARED := State(OFFLINE, map[], map[1 := Spawning("a"), 2 := Checked("a")])
  const TWO_SPAWNING := State(OFFLINE, map["a" := 0], map[1 := Spawning("a"), 2 := Spawning("a")])

  lemma NothingInFlight()
    ensures Admit(map[], OFFLINE, "a") == Inserted && AfterAdmit(map[], OFFLINE, "a") == map["a" := 0]
  {
    assert Pruned(map[], OFFLINE) == map[];
  }

  lemma FirstLaunch()
    ensures Next(THREE_CALLS, Begin(1), ONE_SPAWNING)
  {
    NothingInFlight();
  }

  lemma EntryCleared()
    ensures Next(ONE_SPAWNING, Clear(0), ENTRY_CLEARED)
  {
  }

  lemma SecondLaunch()
    ensures Next(ENTRY_CLEARED, Begin(2), TWO_SPAWNING)
  {
    NothingInFlight();
  }

  /** A run without the condition on sightings: a call that saw the app online just before it
      went away clears an entry it did not make, and a second launch follows at once.
      With the limit at one, two processes are being started. */
  lemma StaleSightingAllowsTwoLaunches() returns (r: Run<State, Step>)
    ensures IsLaunchRun(r) && |r.steps| == 7
    ensures Begins(r, 4, "a") && r.steps[5] == Clear(0) && Begins(r, 6, "a")
    ensures r.states[6].w.now == r.states[4].w.now && "a" !in r.states[4].w.online
    ensures 0 in r.states[4].calls && r.states[4].calls[0] == Sighted("a")
    ensures MaxConcurrent(r.states[7].w.configured) == 1
    ensures r.states[7].calls == map[1 := Spawning("a"), 2 := Spawning("a")]
  {
    var r4 := ThreeCallsReachable();
    NothingInFlight();
    FirstLaunch();
    EntryCleared();
    SecondLaunch();
    var r5 := Extended(Init, Next, r4, Begin(1), ONE_SPAWNING);
    var r6 := Extended(Init, Next, r5, Clear(0), ENTRY_CLEARED);
    r := Extended(Init, Next, r6, Begin(2), TWO_SPAWNING);
    assert r.states[4] == THREE_CALLS && r.states[6] == ENTRY_CLEARED;
  }

  const ONLINE := OFFLINE.(online := {"a"})

  lemma NothingInFlightOnline(inflight: Inflight)
    requires inflight.Keys <= {"a"}
    ensures Admit(inflight, ONLINE, "a") == Inserted && AfterAdmit(inflight, ONLINE, "a") == map["a" := 0]
  {
    assert Pruned(inflight, ONLINE) == map[];
  }

  const TWO_CHECKED := State(OFFLINE, map[], map[1 := Checked("a"), 2 := Checked("a")])

  lemma TwoChecked() returns (r: Run<State, Step>)
    ensures IsLaunchRun(r) && r.steps == [Start(1, "a"), Start(2, "a")] && r.states[2] == TWO_CHECKED
  {
    var s0 := State(OFFLINE, map[], map[]);
    var s1 := s0.(calls := map[1 := Checked("a")]);
    assert Next(s0, Start(1, "a"), s1);
    assert Next(s1, Start(2, "a"), TWO_CHECKED);
    r := Run([s0, s1, TWO_CHECKED], [Start(1, "a"), Start(2, "a")]);
  }

  /** A run without the condition that the app is offline: the entry of an app
      that came online after two calls had looked holds neither back. */
  lemma OnlineAllowsTwoLaunches() returns (r: Run<State, Step>)
    ensures IsLaunchRun(r) && |r.steps| == 5
    ensures Begins(r, 3, "a") && Begins(r, 4, "a") && "a" in r.states[3].w.online
    ensures r.states[4].w.now == r.states[3].w.now
    ensures forall c | c in r.states[3].calls :: r.states[3].calls[c] != Sighted("a")
  {
    var r2 := TwoChecked();
    var r3 := Extended(Init, Next, r2, GoOnline("a"), TWO_CHECKED.(w := ONLINE));
    NothingInFlightOnline(map[]);
    NothingInFlightOnline(map["a" := 0]);
    var s4 := State(ONLINE, map["a" := 0], map[1 := Spawning("a"), 2 := Checked("a")]);
    var s5 := s4.(calls := map[1 := Spawning("a"), 2 := Spawning("a")]);
    var r4 := Extended(Init, Next, r3, Begin(1), s4);
    r := Extended(Init, Next, r4, Begin(2), s5);
  }
}
