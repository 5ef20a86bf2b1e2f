/**
  Page activation shared by concurrent calls (PageRouter.cs): one slot per page
  key holds the running activation; a call joins it or starts one, waits with a
  timeout, and on timeout frees the slot if its own activation still holds it.
  One section under the key's lock, or one await, is one step.
 */
module PageRouter {
  import opened Runs

  datatype Outcome = Page(instance: nat) | Failed(message: string) | Cancelled

  /** An activation; it runs until it has an outcome. */
  datatype Task = Task(key: string, outcome: Option<Outcome>)

  datatype Pc = Waiting | TimingOut | Returned(outcome: Outcome) | TimedOut | CallerCancelled

  datatype Caller = Caller(key: string, task: nat, pc: Pc)

  /** `evicted` remembers which timed-out caller freed the slot of a task. */
  datatype State = State(
    slots: map<string, nat>, tasks: map<nat, Task>, callers: map<nat, Caller>, evicted: map<nat, nat>)

  datatype Step =
    | Enter(caller: nat, key: string, newTask: nat)
    | Complete(task: nat, outcome: Outcome)
    | Return(caller: nat)
    | Expire(caller: nat)
    | Cancel(caller: nat)
    | Evict(caller: nat, task: nat)

  predicate Running(s: State, task: nat) {
    task in s.tasks && s.tasks[task].outcome.None?
  }

  /** The key's slot holds an activation that is not finished. */
  predicate Busy(s: State, key: string) {
    key in s.slots && Running(s, s.slots[key])
  }

  predicate Awaits(s: State, caller: nat) {
    caller in s.callers && s.callers[caller].pc.Waiting? && s.callers[caller].task in s.tasks
  }

  predicate Enabled(s: State, a: Step) {
    match a
    case Enter(c, _, newTask) => c !in s.callers && newTask !in s.tasks
    case Complete(task, _) => Running(s, task)
    case Return(c) => Awaits(s, c) && s.tasks[s.callers[c].task].outcome.Some?
    // an activation ended by cancellation looks like the caller's own timeout if that fired too
    case Expire(c) => Awaits(s, c) && s.tasks[s.callers[c].task].outcome in {None, Some(Cancelled)}
    case Cancel(c) => Awaits(s, c) && s.tasks[s.callers[c].task].outcome.None?
    case Evict(c, task) => c in s.callers && s.callers[c].pc.TimingOut? && s.callers[c].task == task
  }

  function Moved(s: State, c: nat, pc: Pc): map<nat, Caller>
    requires c in s.callers
  {
    s.callers[c := s.callers[c].(pc := pc)]
  }

  function Apply(s: State, a: Step): State
    requires Enabled(s, a)
  {
    match a
    case Enter(c, key, newTask) =>
      if Busy(s, key) then s.(callers := s.callers[c := Caller(key, s.slots[key], Waiting)])
      else s.(tasks := s.tasks[newTask := Task(key, None)], slots := s.slots[key := newTask],
              callers := s.callers[c := Caller(key, newTask, Waiting)])
    case Complete(task, outcome) => s.(tasks := s.tasks[task := s.tasks[task].(outcome := Some(outcome))])
    case Return(c) => s.(callers := Moved(s, c, Returned(s.tasks[s.callers[c].task].outcome.value)))
    case Expire(c) => s.(callers := Moved(s, c, TimingOut))
    case Cancel(c) => s.(callers := Moved(s, c, CallerCancelled))
    case Evict(c, task) =>
      var key := s.callers[c].key;
      if key in s.slots && s.slots[key] == task
      then s.(slots := s.slots - {key}, callers := Moved(s, c, TimedOut), evicted := s.evicted[task := c])
      else s.(callers := Moved(s, c, TimedOut))
  }

  ghost predicate Init(s: State) {
    s == State(map[], map[], map[], map[])
  }

  ghost predicate Next(s: State, a: Step, t: State) {
    Enabled(s, a) && t == Apply(s, a)
  }

  // --- the object ----------------------------------------------------------

  /** The two sections under a key's lock. `tasks` is kept by the task scheduler,
      which finishes them in its own time. */
  class PageRouter {
    var inflight: map<string, nat>
    var tasks: map<nat, Task>
    ghost var evicted: map<nat, nat>

    ghost function View(callers: map<nat, Caller>): State
      reads this
    {
      State(inflight, tasks, callers, evicted)
    }

    constructor ()
      ensures Init(View(map[]))
    {
      inflight, tasks, evicted := map[], map[], map[];
    }

    predicate IsCompleted(task: nat)
      reads this
    {
      task !in tasks || tasks[task].outcome.Some?
    }

    /** The running activation of the key, or a new one in its slot. */
    method GetOrStart(key: string, newTask: nat, ghost callers: map<nat, Caller>, ghost c: nat) returns (task: nat)
      requires Enabled(View(callers), Enter(c, key, newTask))
      modifies this
      ensures View(callers[c := Caller(key, task, Waiting)]) == Apply(old(View(callers)), Enter(c, key, newTask))
    {
      if key !in inflight || IsCompleted(inflight[key]) {
        tasks := tasks[newTask := Task(key, None)];
        inflight := inflight[key := newTask];
        return newTask;
      }
      return inflight[key];
    }

    /** After its timeout a caller frees the slot if its own activation holds it. */
    method FreeSlot(key: string, task: nat, ghost callers: map<nat, Caller>, ghost c: nat)
      requires Enabled(View(callers), Evict(c, task)) && callers[c].key == key
      modifies this
      ensures View(callers[c := callers[c].(pc := TimedOut)]) == Apply(old(View(callers)), Evict(c, task))
    {
      if key in inflight && inflight[key] == task {
        inflight := inflight - {key};
        evicted := evicted[task := c];
      }
    }
  }

  // --- invariants ----------------------------------------------------------

  ghost predicate Consistent(s: State) {
    && (forall k | k in s.slots :: s.slots[k] in s.tasks && s.tasks[s.slots[k]].key == k)
    && (forall c | c in s.callers :: s.callers[c].task in s.tasks && s.tasks[s.callers[c].task].key == s.callers[c].key)
  }

  /** A running activation holds its slot, or a caller that had joined it timed
      out and freed the slot. */
  ghost predicate SlotOrEvicted(s: State) {
    && (forall t | Running(s, t) ::
          (s.tasks[t].key in s.slots && s.slots[s.tasks[t].key] == t) || t in s.evicted)
    && (forall t | t in s.evicted ::
          s.evicted[t] in s.callers && s.callers[s.evicted[t]].task == t && s.callers[s.evicted[t]].pc.TimedOut?)
  }

  /** Whoever got an outcome got that of its activation. */
  ghost predicate OutcomesShared(s: State) {
    forall c | c in s.callers && s.callers[c].pc.Returned? && s.callers[c].task in s.tasks ::
      s.tasks[s.callers[c].task].outcome == Some(s.callers[c].pc.outcome)
  }

  ghost predicate Inv(s: State) {
    Consistent(s) && SlotOrEvicted(s) && OutcomesShared(s)
  }

  lemma ConsistentKept(s: State, a: Step)
    requires Consistent(s) && Enabled(s, a)
    ensures Consistent(Apply(s, a))
  {
  }

  /** The caller that evicted a task stays timed out. */
  lemma EvictorKept(s: State, a: Step, t: nat)
    requires SlotOrEvicted(s) && Enabled(s, a) && t in Apply(s, a).evicted
    ensures var u := Apply(s, a);
      u.evicted[t] in u.callers && u.callers[u.evicted[t]].task == t && u.callers[u.evicted[t]].pc.TimedOut?
  {
  }

  /** A task that still runs keeps its slot or has been evicted. */
  lemma HolderKept(s: State, a: Step, t: nat)
    requires Consistent(s) && SlotOrEvicted(s) && Enabled(s, a) && Running(Apply(s, a), t)
    ensures var u := Apply(s, a);
      (u.tasks[t].key in u.slots && u.slots[u.tasks[t].key] == t) || t in u.evicted
  {
    assert a.Enter? || Running(s, t);
  }

  lemma SlotKept(s: State, a: Step)
    requires Inv(s) && Enabled(s, a)
    ensures SlotOrEvicted(Apply(s, a))
  {
    var u := Apply(s, a);
    forall t | Running(u, t)
      ensures (u.tasks[t].key in u.slots && u.slots[u.tasks[t].key] == t) || t in u.evicted
    {
      HolderKept(s, a, t);
    }
    forall t | t in u.evicted
      ensures u.evicted[t] in u.callers && u.callers[u.evicted[t]].task == t && u.callers[u.evicted[t]].pc.TimedOut?
    {
      EvictorKept(s, a, t);
    }
  }

  lemma OutcomesKept(s: State, a: Step)
    requires Inv(s) && Enabled(s, a)
    ensures OutcomesShared(Apply(s, a))
  {
  }

  lemma Reachable(r: Run<State, Step>, i: nat)
    requires IsRun(Init, Next, r) && i < |r.states|
    ensures Inv(r.states[i])
  {
    forall s, a, t | Inv(s) && Next(s, a, t) ensures Inv(t) {
      ConsistentKept(s, a);
      SlotKept(s, a);
      OutcomesKept(s, a);
    }
    Invariant(Init, Next, Inv, r);
  }

  // --- main results --------------------------------------------------------

  /** Two activations of one key run at the same time only if one of them lost its
      slot to the timeout of a caller that had joined it. */
  lemma OneActivationPerKey(r: Run<State, Step>, i: nat, t: nat, u: nat) returns (lost: nat, c: nat)
    requires IsRun(Init, Next, r) && i < |r.states|
    requires Running(r.states[i], t) && Running(r.states[i], u) && t != u
    requires r.states[i].tasks[t].key == r.states[i].tasks[u].key
    ensures lost == t || lost == u
    ensures c in r.states[i].callers && r.states[i].callers[c].task == lost && r.states[i].callers[c].pc.TimedOut?
  {
    Reachable(r, i);
    var s := r.states[i];
    lost := if t in s.evicted then t else u;
    c := s.evicted[lost];
  }

  const FIRST := Task("page", None)
  const ENTERED := State(map["page" := 0], map[0 := FIRST], map[0 := Caller("page", 0, Waiting)], map[])
  const EXPIRED := ENTERED.(callers := map[0 := Caller("page", 0, TimingOut)])
  const EVICTED := State(map[], map[0 := FIRST], map[0 := Caller("page", 0, TimedOut)], map[0 := 0])
  const REENTERED := State(map["page" := 1], map[0 := FIRST, 1 := FIRST],
                           map[0 := Caller("page", 0, TimedOut), 1 := Caller("page", 1, Waiting)], map[0 := 0])

  lemma SlotIsFreed()
    ensures Next(EXPIRED, Evict(0, 0), EVICTED)
  {
  }

  /** A run in which two activations of one page run at the same time: the first
      timed out its caller and went on, and the next call started another. */
  lemma TimeoutLetsTwoRun() returns (r: Run<State, Step>)
    ensures IsRun(Init, Next, r)
    ensures r.steps == [Enter(0, "page", 0), Expire(0), Evict(0, 0), Enter(1, "page", 1)]
    ensures Running(r.states[4], 0) && Running(r.states[4], 1)
    ensures r.states[4].tasks[0].key == r.states[4].tasks[1].key
  {
    SlotIsFreed();
    assert Next(State(map[], map[], map[], map[]), Enter(0, "page", 0), ENTERED);
    assert Next(ENTERED, Expire(0), EXPIRED);
    assert Next(EVICTED, Enter(1, "page", 1), REENTERED);
    r := Run([State(map[], map[], map[], map[]), ENTERED, EXPIRED, EVICTED, REENTERED],
             [Enter(0, "page", 0), Expire(0), Evict(0, 0), Enter(1, "page", 1)]);
  }

  /** A call starts an activation iff the slot is empty or its activation is
      finished; every other activation of the key that still runs was evicted. */
  lemma StartsOnlyWhenFree(r: Run<State, Step>, i: nat)
    requires IsRun(Init, Next, r) && i < |r.steps| && r.steps[i].Enter?
    ensures var s, t, a := r.states[i], r.states[i + 1], r.steps[i];
      && a.caller in t.callers && (a.newTask in t.tasks <==> t.callers[a.caller].task == a.newTask)
      && (a.newTask in t.tasks <==> !(a.key in s.slots && Running(s, s.slots[a.key])))
      && (a.newTask in t.tasks ==>
            forall u | Running(t, u) && u != a.newTask && t.tasks[u].key == a.key :: u in t.evicted)
      && (a.newTask !in t.tasks ==> Running(t, t.callers[a.caller].task) && t.slots == s.slots)
  {
    Reachable(r, i);
    Reachable(r, i + 1);
    assert Next(r.states[i], r.steps[i], r.states[i + 1]);
  }

  /** An activation keeps its slot from its start until it finishes or a caller
      that joined it times out: no timeout of another activation takes it away. */
  lemma SuccessorKeepsSlot(r: Run<State, Step>, i: nat, j: nat, key: string, task: nat)
    requires IsRun(Init, Next, r) && i <= j < |r.states|
    requires key in r.states[i].slots && r.states[i].slots[key] == task && Running(r.states[i], task)
    requires forall k | i <= k < j :: !(r.steps[k].Complete? && r.steps[k].task == task)
    requires forall k | i <= k < j :: !(r.steps[k].Evict? && r.steps[k].task == task)
    ensures key in r.states[j].slots && r.states[j].slots[key] == task && Running(r.states[j], task)
  {
    var allowed := (a: Step) => !((a.Complete? || a.Evict?) && a.task == task);
    var fact := (s: State) => key in s.slots && s.slots[key] == task && Running(s, task);
    Lasts(Init, Next, allowed, fact, r, i, j);
  }

  /** Callers that joined one activation, and got an outcome, got the same one. */
  lemma JoinersShareOutcome(r: Run<State, Step>, i: nat, c: nat, d: nat)
    requires IsRun(Init, Next, r) && i < |r.states|
    requires c in r.states[i].callers && d in r.states[i].callers
    requires r.states[i].callers[c].pc.Returned? && r.states[i].callers[d].pc.Returned?
    requires r.states[i].callers[c].task == r.states[i].callers[d].task
    ensures r.states[i].callers[c].pc.outcome == r.states[i].callers[d].pc.outcome
    ensures r.states[i].callers[c].key == r.states[i].callers[d].key
  {
    Reachable(r, i);
  }

  /** A caller whose activation is unfinished can time out, and so can one whose
      activation was cancelled. That frees the slot for the next call. */
  lemma WaitingMayTimeOut(r: Run<State, Step>, i: nat, c: nat) returns (rest: Run<State, Step>)
    requires IsRun(Init, Next, r) && i < |r.states| && Awaits(r.states[i], c)
    requires r.states[i].tasks[r.states[i].callers[c].task].outcome in {None, Some(Cancelled)}
    ensures var s := r.states[i];
      && IsRun((t: State) => t == s, Next, rest) && rest.steps == [Expire(c), Evict(c, s.callers[c].task)]
      && c in rest.states[2].callers && rest.states[2].callers[c].pc == TimedOut
      && (s.callers[c].key in rest.states[2].slots ==>
            rest.states[2].slots[s.callers[c].key] != s.callers[c].task)
  {
    var s := r.states[i];
    var t := Apply(s, Expire(c));
    var evict := Evict(c, s.callers[c].task);
    rest := Run([s, t, Apply(t, evict)], [Expire(c), evict]);
  }
}
