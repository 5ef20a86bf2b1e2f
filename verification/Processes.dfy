/** How far apart the processes of one app start (launcher.go): the launch limiter
    keeps the insertions of the app's entry apart, but a process starts later. */
module Processes {
  import opened Runs
  import opened Launcher

  /** Step `k` has started a process of `app`. */
  ghost predicate Starts(r: Run<State, Step>, k: nat, app: string) {
    && k < |r.steps| < |r.states|
    && r.steps[k].SpawnOk? && r.steps[k].call in r.states[k].calls
    && r.states[k].calls[r.steps[k].call] == Spawning(app)
  }

  /** It does so for the launch of step `i`. */
  ghost predicate Spawns(r: Run<State, Step>, i: nat, k: nat, app: string) {
    && Begins(r, i, app) && i < k && Starts(r, k, app) && r.steps[k].call == r.steps[i].call
    && forall x | i < x <= k ::
         r.steps[i].call in r.states[x].calls && r.states[x].calls[r.steps[i].call] == Spawning(app)
  }

  lemma {:induction false} SpawningBegan(r: Run<State, Step>, k: nat, call: nat, app: string) returns (i: nat)
    requires IsLaunchRun(r) && k < |r.states|
    requires call in r.states[k].calls && r.states[k].calls[call] == Spawning(app)
    ensures i < k && Begins(r, i, app) && r.steps[i].call == call
    ensures forall x | i < x <= k :: call in r.states[x].calls && r.states[x].calls[call] == Spawning(app)
  {
    assert k > 0;
    assert Next(r.states[k - 1], r.steps[k - 1], r.states[k]);
    if call in r.states[k - 1].calls && r.states[k - 1].calls[call] == Spawning(app) {
      i := SpawningBegan(r, k - 1, call, app);
    } else {
      i := k - 1;
    }
  }

  /** Every started process belongs to a launch. */
  lemma SpawnBelongsToLaunch(r: Run<State, Step>, k: nat, app: string) returns (i: nat)
    requires IsLaunchRun(r) && Starts(r, k, app)
    ensures Spawns(r, i, k, app)
  {
    i := SpawningBegan(r, k, r.steps[k].call, app);
  }

  lemma ClockGoesForward(r: Run<State, Step>, i: nat, j: nat)
    requires IsLaunchRun(r) && i <= j < |r.states|
    ensures r.states[i].w.now <= r.states[j].w.now
  {
    Lasts(Init, Next, (a: Step) => true, (s: State) => s.w.now >= r.states[i].w.now, r, i, j);
  }

  /** No entry is from the future. */
  ghost predicate Past(s: State) {
    forall app | app in s.inflight :: s.inflight[app] <= s.w.now
  }

  lemma EntriesArePast(r: Run<State, Step>, i: nat)
    requires IsLaunchRun(r) && i < |r.states|
    ensures Past(r.states[i])
  {
    Invariant(Init, Next, Past, r);
  }

  /** Two processes of one app start more than its window apart, less the time the
      first of them took to start, under the condition for the launches. */
  lemma SpawnsAreApart(r: Run<State, Step>, i: nat, k: nat, j: nat, l: nat, app: string)
    requires IsLaunchRun(r) && Spawns(r, i, k, app) && Spawns(r, j, l, app) && i < j
    requires Undisturbed(r.states[i], app) && forall x | i < x < j :: Quiet(r.steps[x], app)
    ensures var took := r.states[k].w.now - r.states[i].w.now;
      took >= 0 && r.states[l].w.now - r.states[k].w.now > r.states[i].w.Window(app) - took
  {
    LaunchesAreApart(r, i, j, app);
    ClockGoesForward(r, i, k);
    ClockGoesForward(r, j, l);
  }

  // --- when processes are the whole window apart ---------------------------

  /** The app is offline, no call is about to clear its entry, and its entry was
      made at this very moment. */
  ghost predicate JustLaunched(s: State, app: string) {
    Undisturbed(s, app) && app in s.inflight && s.inflight[app] == s.w.now
  }

  /** `call` is the only one starting a process of the app. */
  ghost predicate OnlyStarter(s: State, app: string, call: nat) {
    forall c | c in s.calls && s.calls[c] == Spawning(app) :: c == call
  }

  /** Whatever happens after step `k`, the next process of the app comes after the window. */
  ghost predicate ProcessesApart(r: Run<State, Step>, k: nat, app: string)
    requires k < |r.states|
  {
    forall r': Run<State, Step>, l: nat :: Follows(r, k, app, r', l) && Starts(r', l, app) ==>
      r'.states[l].w.now - r.states[k].w.now > r.states[k].w.Window(app)
  }

  /** The same for the processes of the launches after step `k`. */
  ghost predicate LaterLaunchesApart(r: Run<State, Step>, k: nat, app: string)
    requires k < |r.states|
  {
    forall r': Run<State, Step>, j: nat, l: nat ::
      Follows(r, k, app, r', l) && k < j && Spawns(r', j, l, app) ==>
        r'.states[l].w.now - r.states[k].w.now > r.states[k].w.Window(app)
  }

  /** From a launch of this moment, the next one that follows quietly is a window away. */
  lemma LaterLaunchIsApart(
      r: Run<State, Step>, k: nat, app: string, r': Run<State, Step>, j: nat, l: nat)
    requires Starts(r, k, app) && JustLaunched(r.states[k], app)
    requires Follows(r, k, app, r', l) && k < j && Spawns(r', j, l, app)
    ensures r'.states[l].w.now - r.states[k].w.now > r.states[k].w.Window(app)
  {
    var since, window := r.states[k].w.now, r.states[k].w.Window(app);
    assert r'.states[k] == r'.states[..k + 1][k] == r.states[k];
    var allowed := (a: Step) => Quiet(a, app);
    var fact := (s: State) => Guarded(s, app, since, window);
    forall s, a, t | fact(s) && Next(s, a, t) && allowed(a) ensures fact(t) {
      GuardKept(s, a, app, since, window);
    }
    assert r'.steps[k] == r'.steps[..k + 1][k] == r.steps[k];
    Lasts(Init, Next, allowed, fact, r', k, j);
    ClockGoesForward(r', j, l);
  }

  /** After step `k` the clock stands still and every other app in flight comes online. */
  lemma OthersOnline(r: Run<State, Step>, k: nat, app: string, r1: Run<State, Step>, todo: set<string>)
      returns (r': Run<State, Step>)
    requires Follows(r, k, app, r1, |r1.steps|) && app !in todo
    ensures Follows(r, k, app, r', |r'.steps|)
    ensures Last(r') == Last(r1).(w := Last(r1).w.(online := Last(r1).w.online + todo))
    decreases |todo|
  {
    if todo == {} {
      r' := r1;
      assert Last(r1).w.online + todo == Last(r1).w.online;
    } else {
      var x :| x in todo;
      var r2 := Go(r, k, app, r1, GoOnline(x));
      r' := OthersOnline(r, k, app, r2, todo - {x});
      assert Last(r1).w.online + {x} + (todo - {x}) == Last(r1).w.online + todo;
    }
  }

  /** Nothing but a fresh entry of the app itself stands in the way of a launch. */
  ghost predicate Room(s: State, app: string) {
    && app !in s.w.online && app in s.w.installed
    && (forall x | x in s.inflight && x != app :: x in s.w.online)
    && (app in s.inflight ==> s.w.Stale(app, s.inflight[app]))
  }

  lemma RoomAdmits(s: State, app: string)
    requires Room(s, app)
    ensures Admit(s.inflight, s.w, app) == Inserted
  {
    assert Pruned(s.inflight, s.w) == map[];
  }

  /** A new call launches the app and starts its process while the clock stands still. */
  lemma LaunchAtOnce(r: Run<State, Step>, k: nat, app: string, r1: Run<State, Step>, b: nat)
      returns (r': Run<State, Step>, j: nat, l: nat)
    requires Follows(r, k, app, r1, |r1.steps|) && Room(Last(r1), app) && b !in Last(r1).calls
    ensures Follows(r, k, app, r', l) && k < j && Spawns(r', j, l, app)
    ensures r'.states[l].w.now == Last(r1).w.now
  {
    RoomAdmits(Last(r1), app);
    var r2 := Go(r, k, app, r1, Start(b, app));
    var r3 := Go(r, k, app, r2, Begin(b));
    r' := Go(r, k, app, r3, SpawnOk(b));
    j, l := |r2.steps|, |r3.steps|;
    assert r'.states[j] == Last(r2) && r'.steps[j] == Begin(b);
    assert r'.states[l] == Last(r3) && r'.steps[l] == SpawnOk(b);
  }

  /** In `t` the process of call `b` runs and `b` polls; only the app's own entry
      can stand in the way of a launch. */
  ghost predicate Polling(s: State, t: State, app: string, b: nat) {
    && t.inflight == s.inflight && t.calls == s.calls[b := Waiting(app)]
    && t.w == s.w.(online := t.w.online) && (app in t.w.online <==> app in s.w.online)
    && forall x | x in t.inflight && x != app :: x in t.w.online
  }

  lemma AfterStart(r: Run<State, Step>, k: nat, app: string) returns (r': Run<State, Step>)
    requires IsLaunchRun(r) && Starts(r, k, app)
    ensures Follows(r, k, app, r', |r'.steps|) && Polling(r.states[k], Last(r'), app, r.steps[k].call)
  {
    var r1 := Prefix(r, k, app);
    r' := OthersOnline(r, k, app, r1, Last(r1).inflight.Keys - {app});
  }

  /** A disturbed entry is cleared, and the next process follows at once. */
  lemma DisturbedRestarts(r: Run<State, Step>, k: nat, app: string) returns (r': Run<State, Step>, j: nat, l: nat)
    requires IsLaunchRun(r) && Starts(r, k, app) && !Undisturbed(r.states[k], app)
    ensures Follows(r, k, app, r', l) && k < j && Spawns(r', j, l, app)
    ensures r'.states[l].w.now == r.states[k].w.now
  {
    var s, b := r.states[k], r.steps[k].call;
    var r1 := AfterStart(r, k, app);
    var c := b;
    if app in s.w.online {
      r1 := Go(r, k, app, r1, See(b));
      r1 := Go(r, k, app, r1, GoOffline(app));
    } else {
      c :| c in s.calls && s.calls[c] == Sighted(app);
    }
    r1 := Go(r, k, app, r1, Clear(c));
    r1 := Go(r, k, app, r1, Install(app));
    r', j, l := LaunchAtOnce(r, k, app, r1, c);
  }

  /** An older entry runs out before the window after step `k` is over. */
  lemma OldEntryRunsOut(r: Run<State, Step>, k: nat, app: string) returns (r': Run<State, Step>, j: nat, l: nat)
    requires IsLaunchRun(r) && Starts(r, k, app) && Undisturbed(r.states[k], app) && !JustLaunched(r.states[k], app)
    ensures Follows(r, k, app, r', l) && k < j && Spawns(r', j, l, app)
    ensures r'.states[l].w.now - r.states[k].w.now <= r.states[k].w.Window(app)
  {
    var s, b := r.states[k], r.steps[k].call;
    EntriesArePast(r, k);
    var r1 := AfterStart(r, k, app);
    r1 := Go(r, k, app, r1, GiveUp(b));
    r1 := Go(r, k, app, r1, Install(app));
    var window, age := s.w.Window(app), if app in s.inflight then s.w.now - s.inflight[app] else s.w.Window(app) + 1;
    var rest: nat := if age <= window then window + 1 - age else 0;
    r1 := Go(r, k, app, r1, Tick(rest));
    r', j, l := LaunchAtOnce(r, k, app, r1, b);
  }

  /** However a run goes on after a process has started: the process of every later
      launch, with no registration and no failed start in between, is more than
      the window away, iff the app's entry was made at that very moment, the app
      is offline and no call is about to clear the entry. */
  lemma LaterLaunchesApartIff(r: Run<State, Step>, k: nat, app: string)
    requires IsLaunchRun(r) && Starts(r, k, app)
    ensures LaterLaunchesApart(r, k, app) <==> JustLaunched(r.states[k], app)
  {
    if JustLaunched(r.states[k], app) {
      forall r': Run<State, Step>, j: nat, l: nat | Follows(r, k, app, r', l) && k < j && Spawns(r', j, l, app)
        ensures r'.states[l].w.now - r.states[k].w.now > r.states[k].w.Window(app)
      {
        LaterLaunchIsApart(r, k, app, r', j, l);
      }
    } else if Undisturbed(r.states[k], app) {
      var r', j, l := OldEntryRunsOut(r, k, app);
    } else {
      var r', j, l := DisturbedRestarts(r, k, app);
    }
  }

  /** Of a process that starts after step `k`, the launch comes after it too,
      unless another call was starting it already. */
  lemma StartsLater(r: Run<State, Step>, k: nat, app: string, r': Run<State, Step>, l: nat) returns (j: nat)
    requires Starts(r, k, app) && OnlyStarter(r.states[k], app, r.steps[k].call)
    requires Follows(r, k, app, r', l) && Starts(r', l, app)
    ensures k < j && Spawns(r', j, l, app)
  {
    j := SpawnBelongsToLaunch(r', l, app);
    assert r'.states[k] == r'.states[..k + 1][k] == r.states[k];
    assert r'.steps[k] == r'.steps[..k + 1][k] == r.steps[k];
    assert Next(r'.states[k], r'.steps[k], r'.states[k + 1]);
  }

  lemma OtherStarts(r: Run<State, Step>, k: nat, app: string, c: nat) returns (r': Run<State, Step>, l: nat)
    requires IsLaunchRun(r) && Starts(r, k, app)
    requires c in r.states[k].calls && r.states[k].calls[c] == Spawning(app) && c != r.steps[k].call
    ensures Follows(r, k, app, r', l) && Starts(r', l, app) && r'.states[l].w.now == r.states[k].w.now
  {
    var r1 := Prefix(r, k, app);
    r' := Go(r, k, app, r1, SpawnOk(c));
    l := |r1.steps|;
    assert r'.states[l] == Last(r1) && r'.steps[l] == SpawnOk(c);
  }

  /** Every later process of the app, whatever its launch, is more than the window
      away iff, besides, no other call was starting one already. */
  lemma ProcessesApartIff(r: Run<State, Step>, k: nat, app: string)
    requires IsLaunchRun(r) && Starts(r, k, app)
    ensures ProcessesApart(r, k, app)
       <==> JustLaunched(r.states[k], app) && OnlyStarter(r.states[k], app, r.steps[k].call)
  {
    LaterLaunchesApartIff(r, k, app);
    if OnlyStarter(r.states[k], app, r.steps[k].call) {
      forall r': Run<State, Step>, l: nat | Follows(r, k, app, r', l) && Starts(r', l, app)
        ensures exists j: nat :: k < j && Spawns(r', j, l, app)
      {
        var j := StartsLater(r, k, app, r', l);
      }
      assert LaterLaunchesApart(r, k, app) ==> ProcessesApart(r, k, app);
    } else {
      var c :| c in r.states[k].calls && r.states[k].calls[c] == Spawning(app) && c != r.steps[k].call;
      var r', l := OtherStarts(r, k, app, c);
    }
  }

  /** For the process of an undisturbed launch whose entry is still there: the
      processes of later launches are more than the window away iff it started in no time. */
  lemma SpawnsAreApartIff(r: Run<State, Step>, i: nat, k: nat, app: string)
    requires IsLaunchRun(r) && Spawns(r, i, k, app)
    requires Undisturbed(r.states[i], app) && forall x | i < x < k :: Quiet(r.steps[x], app)
    requires app in r.states[k].inflight && r.states[k].inflight[app] == r.states[i].w.now
    ensures LaterLaunchesApart(r, k, app) <==> r.states[k].w.now == r.states[i].w.now
  {
    var since, window := r.states[i].w.now, r.states[i].w.Window(app);
    assert Next(r.states[i], r.steps[i], r.states[i + 1]);
    var allowed := (a: Step) => Quiet(a, app);
    var fact := (s: State) => Guarded(s, app, since, window);
    forall s, a, t | fact(s) && Next(s, a, t) && allowed(a) ensures fact(t) {
      GuardKept(s, a, app, since, window);
    }
    Lasts(Init, Next, allowed, fact, r, i + 1, k);
    LaterLaunchesApartIff(r, k, app);
  }

  // --- a slow start --------------------------------------------------------

  const LATER := OFFLINE.(now := 26 * SECOND)
  const SLOW := State(OFFLINE, map["a" := 0], map[1 := Spawning("a"), 2 := Checked("a")])
  const BOTH := State(LATER, map["a" := 26 * SECOND], map[1 := Spawning("a"), 2 := Spawning("a")])
  const FIRST_STARTED := BOTH.(calls := map[1 := Waiting("a"), 2 := Spawning("a")])
  const BOTH_STARTED := BOTH.(calls := map[1 := Waiting("a"), 2 := Waiting("a")])

  lemma SlowBegins()
    ensures Next(TWO_CHECKED, Begin(1), SLOW) && Admit(map[], OFFLINE, "a") == Inserted
  {
    NothingInFlight();
  }

  lemma WindowPasses()
    ensures Next(SLOW, Tick(26 * SECOND), SLOW.(w := LATER))
  {
  }

  lemma SecondBegins()
    ensures Next(SLOW.(w := LATER), Begin(2), BOTH) && Admit(SLOW.inflight, LATER, "a") == Inserted
  {
    assert Pruned(SLOW.inflight, LATER) == map[];
  }

  lemma FirstStarts()
    ensures Next(BOTH, SpawnOk(1), FIRST_STARTED)
  {
  }

  lemma SecondStarts()
    ensures Next(FIRST_STARTED, SpawnOk(2), BOTH_STARTED)
  {
  }

  lemma SlowRun() returns (r: Run<State, Step>)
    ensures IsLaunchRun(r)
    ensures r.steps == [Start(1, "a"), Start(2, "a"), Begin(1), Tick(26 * SECOND), Begin(2), SpawnOk(1), SpawnOk(2)]
    ensures r.states[2..] == [TWO_CHECKED, SLOW, SLOW.(w := LATER), BOTH, FIRST_STARTED, BOTH_STARTED]
  {
    SlowBegins();
    WindowPasses();
    SecondBegins();
    FirstStarts();
    SecondStarts();
    r := TwoChecked();
    r := Extended(Init, Next, r, Begin(1), SLOW);
    r := Extended(Init, Next, r, Tick(26 * SECOND), SLOW.(w := LATER));
    r := Extended(Init, Next, r, Begin(2), BOTH);
    r := Extended(Init, Next, r, SpawnOk(1), FIRST_STARTED);
    r := Extended(Init, Next, r, SpawnOk(2), BOTH_STARTED);
  }

  /** A run in which the first process of an undisturbed launch takes longer than
      the window to start: nothing else interferes, and two processes start at the
      same instant. */
  lemma SlowSpawnsEndTogether() returns (r: Run<State, Step>)
    ensures IsLaunchRun(r) && |r.steps| == 7
    ensures Spawns(r, 2, 5, "a") && Spawns(r, 4, 6, "a") && r.states[5].w.now == r.states[6].w.now
    ensures Undisturbed(r.states[2], "a") && forall x | 2 < x < 6 :: Quiet(r.steps[x], "a")
  {
    r := SlowRun();
    SlowBegins();
    SecondBegins();
    assert forall x | 2 <= x < |r.states| :: r.states[x] == r.states[2..][x - 2];
  }
}
