/**
  The application scan shared by all callers of `cached` (discovery.go): a fresh
  cache is read, a stale one is scanned by one caller while the others wait on
  its done channel. One lock section or one channel operation is one step.

  `stamp` numbers the writes to the cache, so a higher stamp is a later cache.
 */
module SingleFlight {
  import opened Runs

  const DEFAULT_TTL := 300

  datatype Pc =
    | Scanning(done: nat)
    | WaitingOn(done: nat)
    | Woken(signal: Option<nat>)  // None: gave up because its context ended
    | Returned(stamp: nat, signal: Option<nat>)

  /** `made` counts the done channels; `closings` lists every close in order and
      `closedAt` the stamp of the cache at the close. */
  datatype State = State(
    now: int, ttl: int, cachedAt: Option<int>, stamp: nat,
    refreshing: bool, done: nat, made: nat,
    closings: seq<nat>, closedAt: map<nat, nat>, callers: map<nat, Pc>)

  datatype Step =
    | Tick(d: nat)
    | SetTTL(ttl: int)
    | Enter(caller: nat)
    | Finish(caller: nat)
    | Wake(caller: nat)
    | GiveUp(caller: nat)
    | ReadCache(caller: nat)
    | Refresh

  predicate IsFresh(s: State) {
    s.cachedAt.Some? && s.now - s.cachedAt.value < if s.ttl <= 0 then DEFAULT_TTL else s.ttl
  }

  predicate Enabled(s: State, a: Step) {
    match a
    case Enter(c) => c !in s.callers
    case Finish(c) => c in s.callers && s.callers[c].Scanning?
    case Wake(c) => c in s.callers && s.callers[c].WaitingOn? && s.callers[c].done in s.closedAt
    case GiveUp(c) => c in s.callers && s.callers[c].WaitingOn?
    case ReadCache(c) => c in s.callers && s.callers[c].Woken?
    case _ => true
  }

  function Apply(s: State, a: Step): State
    requires Enabled(s, a)
  {
    match a
    case Tick(d) => s.(now := s.now + d)
    case SetTTL(ttl) => if ttl > 0 then s.(ttl := ttl) else s
    case Enter(c) =>
      if IsFresh(s) then s.(callers := s.callers[c := Returned(s.stamp, None)])
      else if s.refreshing then s.(callers := s.callers[c := WaitingOn(s.done)])
      else s.(refreshing := true, done := s.made, made := s.made + 1, callers := s.callers[c := Scanning(s.made)])
    case Finish(c) =>
      s.(stamp := s.stamp + 1, cachedAt := Some(s.now), refreshing := false,
         closings := s.closings + [s.done], closedAt := s.closedAt[s.done := s.stamp + 1],
         callers := s.callers[c := Returned(s.stamp + 1, None)])
    case Wake(c) => s.(callers := s.callers[c := Woken(Some(s.callers[c].done))])
    case GiveUp(c) => s.(callers := s.callers[c := Woken(None)])
    case ReadCache(c) => s.(callers := s.callers[c := Returned(s.stamp, s.callers[c].signal)])
    case Refresh => s.(stamp := s.stamp + 1, cachedAt := Some(s.now))
  }

  ghost predicate Init(s: State) {
    && s.cachedAt == None && s.stamp == 0 && !s.refreshing && s.made == 0
    && s.closings == [] && s.closedAt == map[] && s.callers == map[]
  }

  ghost predicate Next(s: State, a: Step, t: State) {
    Enabled(s, a) && t == Apply(s, a)
  }

  // --- the object ----------------------------------------------------------

  /** One method for each lock section; `stamp` stands for the cached candidates,
      and a channel is its number. */
  class Scanner {
    var ttl: int
    var cachedAt: Option<int>
    var stamp: nat
    var refreshing: bool
    var refreshDone: nat
    var made: nat
    ghost var closings: seq<nat>
    ghost var closedAt: map<nat, nat>

    ghost function View(now: int, callers: map<nat, Pc>): State
      reads this
    {
      State(now, ttl, cachedAt, stamp, refreshing, refreshDone, made, closings, closedAt, callers)
    }

    constructor (ttl: int)
      ensures forall now :: Init(View(now, map[]))
    {
      this.ttl, cachedAt, stamp, refreshing, refreshDone, made := ttl, None, 0, false, 0, 0;
      closings, closedAt := [], map[];
    }

    method FreshLocked(now: int) returns (ok: bool)
      ensures ok <==> IsFresh(View(now, map[]))
    {
      if cachedAt.None? {
        return false;
      }
      var ttl' := if ttl <= 0 then DEFAULT_TTL else ttl;
      return now - cachedAt.value < ttl';
    }

    /** Reads the cache, joins the running scan, or becomes the scanner. */
    method EnterCached(now: int, ghost callers: map<nat, Pc>, ghost c: nat) returns (pc: Pc)
      requires c !in callers
      modifies this
      ensures View(now, callers[c := pc]) == Apply(old(View(now, callers)), Enter(c))
    {
      var isFresh := FreshLocked(now);
      if isFresh {
        return Returned(stamp, None);
      }
      if refreshing {
        return WaitingOn(refreshDone);
      }
      refreshing := true;
      refreshDone, made := made, made + 1;
      return Scanning(refreshDone);
    }

    /** The scan is over: writes the cache and closes the channel. */
    method FinishScan(now: int, ghost callers: map<nat, Pc>, ghost c: nat) returns (pc: Pc)
      requires c in callers && callers[c].Scanning?
      modifies this
      ensures View(now, callers[c := pc]) == Apply(old(View(now, callers)), Finish(c))
    {
      stamp, cachedAt, refreshing := stamp + 1, Some(now), false;
      closings, closedAt := closings + [refreshDone], closedAt[refreshDone := stamp];
      return Returned(stamp, None);
    }

    /** A caller that stopped waiting reads whatever the cache holds. */
    method ReadAfterWait(now: int, ghost callers: map<nat, Pc>, ghost c: nat, signal: Option<nat>) returns (pc: Pc)
      requires c in callers && callers[c] == Woken(signal)
      ensures View(now, callers[c := pc]) == Apply(View(now, callers), ReadCache(c))
    {
      return Returned(stamp, signal);
    }
  }

  // --- invariants ----------------------------------------------------------

  /** The flag is up exactly while one caller scans, and that caller owns the
      current channel. */
  ghost predicate OneScanner(s: State) {
    && (forall c | c in s.callers && s.callers[c].Scanning? :: s.refreshing && s.callers[c].done == s.done)
    && (forall c, d | c in s.callers && d in s.callers && s.callers[c].Scanning? && s.callers[d].Scanning? :: c == d)
    && (s.refreshing ==> exists c :: c in s.callers && s.callers[c].Scanning?)
  }

  /** Every channel made is closed exactly once, except the current one while
      its scan runs. */
  ghost predicate ClosedOnce(s: State) {
    && (forall i, j | 0 <= i < j < |s.closings| :: s.closings[i] != s.closings[j])
    && (forall ch: nat :: ch in s.closings <==> ch in s.closedAt)
    && (forall ch: nat :: ch in s.closedAt <==> ch < s.made && !(s.refreshing && ch == s.done))
    && (s.refreshing ==> s.done < s.made)
  }

  /** Waiters wait on real channels, and what was closed stays behind the cache. */
  ghost predicate Stamps(s: State) {
    && (forall c | c in s.callers && s.callers[c].WaitingOn? :: s.callers[c].done < s.made)
    && (forall ch | ch in s.closedAt :: s.closedAt[ch] <= s.stamp)
    && (forall c | c in s.callers && s.callers[c].Woken? && s.callers[c].signal.Some? ::
          s.callers[c].signal.value in s.closedAt)
    && (forall c | c in s.callers && s.callers[c].Returned? && s.callers[c].signal.Some? ::
          s.callers[c].signal.value in s.closedAt && s.closedAt[s.callers[c].signal.value] <= s.callers[c].stamp)
  }

  ghost predicate Inv(s: State) {
    OneScanner(s) && ClosedOnce(s) && Stamps(s)
  }

  lemma OneScannerKept(s: State, a: Step)
    requires Inv(s) && Enabled(s, a)
    ensures OneScanner(Apply(s, a))
  {
    var t := Apply(s, a);
    if t.refreshing {
      if s.refreshing {
        var c :| c in s.callers && s.callers[c].Scanning?;
        assert c in t.callers && t.callers[c].Scanning?;
      } else {
        assert t.callers[a.caller].Scanning?;
      }
    }
  }

  lemma ClosedOnceKept(s: State, a: Step)
    requires Inv(s) && Enabled(s, a)
    ensures ClosedOnce(Apply(s, a))
  {
    var t := Apply(s, a);
    forall ch: nat
      ensures ch in t.closings <==> ch in t.closedAt
      ensures ch in t.closedAt <==> ch < t.made && !(t.refreshing && ch == t.done)
    {
      assert ch in s.closings <==> ch in s.closedAt;
    }
    assert a.Finish? ==> s.refreshing && s.done !in s.closings;
  }

  /** What was closed keeps its stamp, which the cache has reached. */
  lemma ClosedStays(s: State, a: Step, ch: nat)
    requires Inv(s) && Enabled(s, a) && ch in s.closedAt
    ensures ch in Apply(s, a).closedAt && Apply(s, a).closedAt[ch] == s.closedAt[ch]
  {
  }

  lemma StampsKept(s: State, a: Step)
    requires Inv(s) && Enabled(s, a)
    ensures Stamps(Apply(s, a))
  {
    var t := Apply(s, a);
    forall ch | ch in s.closedAt ensures ch in t.closedAt && t.closedAt[ch] == s.closedAt[ch] {
      ClosedStays(s, a, ch);
    }
    assert forall ch | ch in t.closedAt :: t.closedAt[ch] <= t.stamp;
    forall c | c in t.callers && t.callers[c].Returned? && t.callers[c].signal.Some?
      ensures t.callers[c].signal.value in t.closedAt && t.closedAt[t.callers[c].signal.value] <= t.callers[c].stamp
    {
      assert a == ReadCache(c) || (c in s.callers && s.callers[c] == t.callers[c]);
    }
  }

  lemma Reachable(r: Run<State, Step>, i: nat)
    requires IsRun(Init, Next, r) && i < |r.states|
    ensures Inv(r.states[i])
  {
    forall s | Init(s) ensures Inv(s) {}
    forall s, a, t | Inv(s) && Next(s, a, t) ensures Inv(t) {
      OneScannerKept(s, a);
      ClosedOnceKept(s, a);
      StampsKept(s, a);
    }
    Invariant(Init, Next, Inv, r);
  }

  // --- main results --------------------------------------------------------

  /** Whatever the callers do, at most one of them is scanning. */
  lemma AtMostOneScan(r: Run<State, Step>, i: nat, c: nat, d: nat)
    requires IsRun(Init, Next, r) && i < |r.states|
    requires c in r.states[i].callers && r.states[i].callers[c].Scanning?
    requires d in r.states[i].callers && r.states[i].callers[d].Scanning?
    ensures c == d
  {
    Reachable(r, i);
  }

  /** The end of a scan closes the scanner's own channel, which nobody closed
      before; a channel is closed at most once, and is closed iff its scan is over. */
  lemma ChannelsClosedOnce(r: Run<State, Step>, i: nat, ch: nat)
    requires IsRun(Init, Next, r) && i < |r.states|
    ensures var s := r.states[i];
      && (forall j, k | 0 <= j < k < |s.closings| :: s.closings[j] != s.closings[k])
      && (forall c | Enabled(s, Finish(c)) :: s.callers[c].done == s.done && s.done !in s.closings)
      && (ch in s.closings <==>
            ch < s.made && forall c | c in s.callers && s.callers[c].Scanning? :: s.callers[c].done != ch)
  {
    Reachable(r, i);
  }

  /** A waiting caller's channel is closed, or a scan is running that will close it. */
  lemma NobodyWaitsInVain(r: Run<State, Step>, i: nat, c: nat)
    requires IsRun(Init, Next, r) && i < |r.states|
    requires c in r.states[i].callers && r.states[i].callers[c].WaitingOn?
    ensures var s := r.states[i];
      || Enabled(s, Wake(c))
      || exists d :: Enabled(s, Finish(d)) && Enabled(Apply(s, Finish(d)), Wake(c))
  {
    Reachable(r, i);
    var s := r.states[i];
    if s.callers[c].done !in s.closedAt {
      var d :| d in s.callers && s.callers[d].Scanning?;
      assert Enabled(s, Finish(d));
    }
  }

  /** A caller woken by a scan's end reads a cache written no earlier than that scan. */
  lemma WokenReadsThatScanOrLater(r: Run<State, Step>, i: nat, c: nat)
    requires IsRun(Init, Next, r) && i < |r.states|
    requires c in r.states[i].callers && r.states[i].callers[c].Returned? && r.states[i].callers[c].signal.Some?
    ensures var s := r.states[i];
      && s.callers[c].signal.value in s.closedAt
      && s.closedAt[s.callers[c].signal.value] <= s.callers[c].stamp <= s.stamp
  {
    Reachable(r, i);
    ReturnedStampsPast(r, i, c);
  }

  lemma ReturnedStampsPast(r: Run<State, Step>, i: nat, c: nat)
    requires IsRun(Init, Next, r) && i < |r.states|
    requires c in r.states[i].callers && r.states[i].callers[c].Returned?
    ensures r.states[i].callers[c].stamp <= r.states[i].stamp
  {
    var past := (s: State) =>
      forall d | d in s.callers && s.callers[d].Returned? :: s.callers[d].stamp <= s.stamp;
    Invariant(Init, Next, past, r);
  }

  // --- how old a cache may be ----------------------------------------------

  predicate WritesCache(a: Step) {
    a.Finish? || a.Refresh?
  }

  /** The cache is what the last scan or refresh wrote. */
  lemma {:induction false} CacheWasWritten(r: Run<State, Step>, i: nat) returns (k: nat)
    requires IsRun(Init, Next, r) && i < |r.states| && r.states[i].cachedAt.Some?
    ensures k < i && WritesCache(r.steps[k]) && forall m | k < m < i :: !WritesCache(r.steps[m])
    ensures r.states[i].cachedAt == Some(r.states[k].now) && r.states[i].stamp == r.states[k + 1].stamp
    ensures r.states[k + 1].stamp == r.states[k].stamp + 1
  {
    assert i > 0;
    assert Next(r.states[i - 1], r.steps[i - 1], r.states[i]);
    if WritesCache(r.steps[i - 1]) {
      k := i - 1;
    } else {
      k := CacheWasWritten(r, i - 1);
    }
  }

  /** A caller reads at once iff a cache was written less than the time to live
      ago, five minutes by default; what it reads is the last cache written. */
  lemma ReadsAtOnceIffYoung(r: Run<State, Step>, i: nat, c: nat)
    requires IsRun(Init, Next, r) && i < |r.steps| && r.steps[i] == Enter(c)
    ensures var s, t := r.states[i], r.states[i + 1];
      && c in t.callers
      && (t.callers[c].Returned? <==>
            s.cachedAt.Some? && s.now - s.cachedAt.value < (if s.ttl > 0 then s.ttl else 300))
      && (t.callers[c].Returned? ==> t.callers[c].stamp == s.stamp && t.callers[c].signal.None?)
      && (!t.callers[c].Returned? ==> t.callers[c] == if s.refreshing then WaitingOn(s.done) else Scanning(s.made))
  {
    assert Next(r.states[i], r.steps[i], r.states[i + 1]);
  }

  /** So the cache read was written by a step less than the time to live before. */
  lemma CacheReadIsYoung(r: Run<State, Step>, i: nat, c: nat) returns (k: nat)
    requires IsRun(Init, Next, r) && i < |r.steps| && r.steps[i] == Enter(c)
    requires c in r.states[i + 1].callers && r.states[i + 1].callers[c].Returned?
    ensures k < i && WritesCache(r.steps[k]) && r.states[i + 1].callers[c].stamp == r.states[k + 1].stamp
    ensures var ttl := r.states[i].ttl; r.states[i].now - r.states[k].now < if ttl > 0 then ttl else 300
  {
    ReadsAtOnceIffYoung(r, i, c);
    k := CacheWasWritten(r, i);
  }

  /** The time to live is the last positive one that was set. */
  lemma LastTTLCounts(r: Run<State, Step>, k: nat, i: nat, ttl: int)
    requires IsRun(Init, Next, r) && k < i < |r.states| && r.steps[k] == SetTTL(ttl) && ttl > 0
    requires forall m | k < m < i :: !(r.steps[m].SetTTL? && r.steps[m].ttl > 0)
    ensures r.states[i].ttl == ttl
  {
    assert Next(r.states[k], r.steps[k], r.states[k + 1]);
    Lasts(Init, Next, (a: Step) => !(a.SetTTL? && a.ttl > 0), (s: State) => s.ttl == ttl, r, k + 1, i);
  }

  /** What caller `c` waits for, or has got, is newer than the cache number `found`. */
  ghost predicate NewerFor(s: State, c: nat, found: nat) {
    && c in s.callers && s.stamp >= found
    && match s.callers[c]
       case Scanning(_) => true
       case WaitingOn(ch) => ch in s.closedAt ==> s.closedAt[ch] > found
       case Woken(signal) => signal.Some? && s.stamp > found
       case Returned(stamp, _) => stamp > found
  }

  lemma NewerKept(s: State, a: Step, c: nat, found: nat)
    requires Inv(s) && NewerFor(s, c, found) && Enabled(s, a) && a != GiveUp(c)
    ensures NewerFor(Apply(s, a), c, found)
  {
  }

  /** A caller that does not find a fresh cache, and does not give up, returns a
      later one than it found: its own scan's, or that of a scan it waited for. */
  lemma StaleFindsNewer(r: Run<State, Step>, i: nat, j: nat, c: nat)
    requires IsRun(Init, Next, r) && i < j < |r.states| && r.steps[i] == Enter(c)
    requires c in r.states[i + 1].callers && !r.states[i + 1].callers[c].Returned?
    requires forall k | i < k < j :: r.steps[k] != GiveUp(c)
    ensures c in r.states[j].callers
    ensures r.states[j].callers[c].Returned? ==> r.states[j].callers[c].stamp > r.states[i].stamp
  {
    var found := r.states[i].stamp;
    Reachable(r, i);
    assert Next(r.states[i], r.steps[i], r.states[i + 1]);
    Reachable(r, i + 1);
    var allowed := (a: Step) => a != GiveUp(c);
    var fact := (s: State) => Inv(s) && NewerFor(s, c, found);
    forall s, a, t | fact(s) && Next(s, a, t) && allowed(a) ensures fact(t) {
      OneScannerKept(s, a);
      ClosedOnceKept(s, a);
      StampsKept(s, a);
      NewerKept(s, a, c, found);
    }
    Lasts(Init, Next, allowed, fact, r, i + 1, j);
  }
}
