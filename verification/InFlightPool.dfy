/** The pool that joins identical reads in flight and bounds each source capability, as atomic
    steps of the event loop (src/scan_tool/application/scheduler.py:56-125). */
module InFlightPool {
  import opened Basics

  type Capability = nat
  type Request = nat

  /** The empty request key. */
  const EMPTY: Request := 0

  datatype Key = Key(capability: Capability, request: Request)
  datatype Outcome = Value(nat) | Raised(nat) | Cancelled
  datatype Phase = Waiting | Running | Done(outcome: Outcome) | Forgotten(outcome: Outcome)
  datatype Task = Task(key: Key, phase: Phase)
  datatype CallState = Awaiting | Got(outcome: Outcome) | Left
  datatype Call = Call(task: nat, state: CallState)

  /** `tasks` and `calls` are everything ever created, in order; `permits` is the semaphores. */
  datatype State = State(
    limits: map<Capability, nat>, tasks: seq<Task>, calls: seq<Call>, inflight: map<Key, nat>,
    permits: map<Capability, nat>, active: map<Capability, nat>, maxima: map<Capability, nat>)

  datatype Step =
    | Execute(capability: Capability, request: Request)
    | Acquire(task: nat)
    | Finish(task: nat, outcome: Outcome)
    | CancelWaiting(task: nat)
    | Forget(task: nat)
    | Return(call: nat)
    | Leave(call: nat)

  // ---------------------------------------------------------------- steps

  predicate TaskIn(s: State, i: nat, p: Phase)
  {
    i < |s.tasks| && s.tasks[i].phase == p
  }

  predicate TaskDone(s: State, i: nat)
  {
    i < |s.tasks| && s.tasks[i].phase.Done?
  }

  predicate Finished(p: Phase)
  {
    p.Done? || p.Forgotten?
  }

  predicate Enabled(s: State, a: Step)
  {
    match a
    case Execute(c, r) => c in s.limits && r != EMPTY
    case Acquire(i) => TaskIn(s, i, Waiting) && Has(s.permits, s.tasks[i].key.capability)
    case Finish(i, _) => TaskIn(s, i, Running)
    case CancelWaiting(i) => TaskIn(s, i, Waiting)
    case Forget(i) => TaskDone(s, i)
    case Return(j) => j < |s.calls| && s.calls[j].state.Awaiting? && s.calls[j].task < |s.tasks| && Finished(s.tasks[s.calls[j].task].phase)
    case Leave(j) => j < |s.calls| && s.calls[j].state.Awaiting?
  }

  predicate Has(m: map<Capability, nat>, c: Capability)
  {
    c in m && m[c] > 0
  }

  function Get(m: map<Capability, nat>, c: Capability): nat
  {
    if c in m then m[c] else 0
  }

  function Phased(s: State, i: nat, p: Phase): State
    requires i < |s.tasks|
  {
    s.(tasks := s.tasks[i := s.tasks[i].(phase := p)])
  }

  function Next(s: State, a: Step): State
    requires Enabled(s, a)
  {
    match a
    case Execute(c, r) => Joined(s, Key(c, r))
    case Acquire(i) => Acquired(s, i)
    case Finish(i, o) => Released(s, i, o)
    case CancelWaiting(i) => Phased(s, i, Done(Cancelled))
    case Forget(i) => Dropped(s, i)
    case Return(j) => s.(calls := s.calls[j := s.calls[j].(state := Got(s.tasks[s.calls[j].task].phase.outcome))])
    case Leave(j) => s.(calls := s.calls[j := s.calls[j].(state := Left)])
  }

  /** Under the lock: join the task in flight or create one. */
  function Joined(s: State, k: Key): State
  {
    if k in s.inflight then s.(calls := s.calls + [Call(s.inflight[k], Awaiting)])
    else s.(tasks := s.tasks + [Task(k, Waiting)],
            inflight := s.inflight[k := |s.tasks|],
            calls := s.calls + [Call(|s.tasks|, Awaiting)])
  }

  function Acquired(s: State, i: nat): State
    requires TaskIn(s, i, Waiting) && Has(s.permits, s.tasks[i].key.capability)
  {
    var c := s.tasks[i].key.capability;
    var n := Get(s.active, c) + 1;
    Phased(s, i, Running).(permits := s.permits[c := s.permits[c] - 1],
                           active := s.active[c := n],
                           maxima := s.maxima[c := Max(Get(s.maxima, c), n)])
  }

  function Released(s: State, i: nat, o: Outcome): State
    requires TaskIn(s, i, Running)
  {
    var c := s.tasks[i].key.capability;
    Phased(s, i, Done(o)).(permits := s.permits[c := Get(s.permits, c) + 1],
                           active := s.active[c := if Has(s.active, c) then s.active[c] - 1 else 0])
  }

  /** The done callback: the entry goes only if it is still this task's. */
  function Dropped(s: State, i: nat): State
    requires TaskDone(s, i)
  {
    var k := s.tasks[i].key;
    Phased(s, i, Forgotten(s.tasks[i].phase.outcome))
      .(inflight := if k in s.inflight && s.inflight[k] == i then s.inflight - {k} else s.inflight)
  }

  /** Any interleaving: a step that is not enabled does nothing. */
  function Move(s: State, a: Step): State
  {
    if Enabled(s, a) then Next(s, a) else s
  }

  function Run(s: State, steps: seq<Step>): State
  {
    if steps == [] then s else Move(Run(s, steps[..|steps| - 1]), steps[|steps| - 1])
  }

  function Start(limits: map<Capability, nat>): State
  {
    State(limits, [], [], map[], limits, map c | c in limits :: 0, map c | c in limits :: 0)
  }

  // ---------------------------------------------------------------- invariant

  /** Operations of one capability that are running. */
  function Count(tasks: seq<Task>, c: Capability): nat
  {
    if tasks == [] then 0
    else
      var last := tasks[|tasks| - 1];
      Count(tasks[..|tasks| - 1], c) + if last.phase == Running && last.key.capability == c then 1 else 0
  }

  ghost predicate CountersOk(s: State)
  {
    forall c :: c in s.limits ==> CounterOk(s, c)
  }

  ghost predicate CounterOk(s: State, c: Capability)
    requires c in s.limits
  {
    && c in s.permits && c in s.active && c in s.maxima
    && s.active[c] == Count(s.tasks, c)
    && s.permits[c] + s.active[c] == s.limits[c]
    && s.active[c] <= s.maxima[c] <= s.limits[c]
  }

  /** The table holds exactly the tasks not yet forgotten. */
  ghost predicate TableOk(s: State)
  {
    && (forall k :: k in s.inflight ==> s.inflight[k] < |s.tasks| && Holds(s, k, s.inflight[k]))
    && (forall i :: 0 <= i < |s.tasks| ==> Listed(s, i))
  }

  ghost predicate Holds(s: State, k: Key, i: nat)
    requires i < |s.tasks|
  {
    s.tasks[i].key == k && !s.tasks[i].phase.Forgotten?
  }

  ghost predicate Listed(s: State, i: nat)
    requires i < |s.tasks|
  {
    var k := s.tasks[i].key;
    k.capability in s.limits && (!s.tasks[i].phase.Forgotten? ==> k in s.inflight && s.inflight[k] == i)
  }

  /** A caller that has an answer has its own task's answer. */
  ghost predicate CallsOk(s: State)
  {
    forall j :: 0 <= j < |s.calls| ==> CallOk(s, s.calls[j])
  }

  ghost predicate CallOk(s: State, call: Call)
  {
    && call.task < |s.tasks|
    && (call.state.Got? ==> Finished(s.tasks[call.task].phase) && s.tasks[call.task].phase.outcome == call.state.outcome)
  }

  ghost predicate Inv(s: State)
  {
    CountersOk(s) && TableOk(s) && CallsOk(s)
  }

  lemma {:induction false} CountUpdate(tasks: seq<Task>, i: nat, t: Task, c: Capability)
    requires i < |tasks| && t.key == tasks[i].key
    ensures Count(tasks[i := t], c) + (if tasks[i].phase == Running && t.key.capability == c then 1 else 0)
         == Count(tasks, c) + if t.phase == Running && t.key.capability == c then 1 else 0
  {
    var n := |tasks| - 1;
    if i == n {
      assert tasks[i := t][..n] == tasks[..n];
    } else {
      assert tasks[i := t][..n] == tasks[..n][i := t];
      CountUpdate(tasks[..n], i, t, c);
    }
  }

  lemma StartOk(limits: map<Capability, nat>)
    ensures Inv(Start(limits))
  {
  }

  lemma StepKeepsInv(s: State, a: Step)
    requires Inv(s)
    ensures Inv(Move(s, a))
  {
    if Enabled(s, a) {
      CountersKept(s, a);
      TableKept(s, a);
      CallsKept(s, a);
    }
  }

  lemma CountersKept(s: State, a: Step)
    requires Inv(s) && Enabled(s, a)
    ensures CountersOk(Next(s, a))
  {
    hide CallsOk, TableOk, CounterOk;
    var t := Next(s, a);
    forall c | c in t.limits ensures CounterOk(t, c) {
      CounterKept(s, a, c);
    }
  }

  lemma CounterKept(s: State, a: Step, c: Capability)
    requires c in s.limits && CounterOk(s, c) && Enabled(s, a)
    ensures c in Next(s, a).limits && CounterOk(Next(s, a), c)
  {
    hide Enabled, Next, CounterOk;
    match a
    case Execute(d, r) => CounterAfterCall(s, d, r, c);
    case Acquire(i) => CounterAfterAcquire(s, i, c);
    case Finish(i, o) => CounterAfterFinish(s, i, o, c);
    case CancelWaiting(i) => CounterAfterIdle(s, a, i, c);
    case Forget(i) => CounterAfterIdle(s, a, i, c);
    case Return(j) => CounterAfterWake(s, a, c);
    case Leave(j) => CounterAfterWake(s, a, c);
  }

  lemma CounterAfterCall(s: State, d: Capability, r: Request, c: Capability)
    requires c in s.limits && CounterOk(s, c) && Enabled(s, Execute(d, r))
    ensures c in Next(s, Execute(d, r)).limits && CounterOk(Next(s, Execute(d, r)), c)
  {
    var t := Next(s, Execute(d, r));
    assert t.tasks != s.tasks ==> t.tasks[..|s.tasks|] == s.tasks;
  }

  lemma CounterAfterAcquire(s: State, i: nat, c: Capability)
    requires c in s.limits && CounterOk(s, c) && Enabled(s, Acquire(i))
    ensures c in Next(s, Acquire(i)).limits && CounterOk(Next(s, Acquire(i)), c)
  {
    CountUpdate(s.tasks, i, s.tasks[i].(phase := Running), c);
    hide Count;
  }

  lemma CounterAfterFinish(s: State, i: nat, o: Outcome, c: Capability)
    requires c in s.limits && CounterOk(s, c) && Enabled(s, Finish(i, o))
    ensures c in Next(s, Finish(i, o)).limits && CounterOk(Next(s, Finish(i, o)), c)
  {
    CountUpdate(s.tasks, i, s.tasks[i].(phase := Done(o)), c);
    hide Count;
  }

  lemma CounterAfterIdle(s: State, a: Step, i: nat, c: Capability)
    requires c in s.limits && CounterOk(s, c) && Enabled(s, a) && (a == CancelWaiting(i) || a == Forget(i))
    ensures c in Next(s, a).limits && CounterOk(Next(s, a), c)
  {
    CountUpdate(s.tasks, i, Next(s, a).tasks[i], c);
    hide Count;
  }

  lemma CounterAfterWake(s: State, a: Step, c: Capability)
    requires c in s.limits && CounterOk(s, c) && Enabled(s, a) && (a.Return? || a.Leave?)
    ensures c in Next(s, a).limits && CounterOk(Next(s, a), c)
  {
  }

  lemma TableKept(s: State, a: Step)
    requires TableOk(s) && Enabled(s, a)
    ensures TableOk(Next(s, a))
  {
    hide Enabled, Holds, Listed;
    var t := Next(s, a);
    forall i | 0 <= i < |t.tasks| ensures Listed(t, i) {
      ListedKept(s, a, i);
    }
    forall k | k in t.inflight ensures t.inflight[k] < |t.tasks| && Holds(t, k, t.inflight[k]) {
      EntryKept(s, a, k);
    }
  }

  lemma ListedKept(s: State, a: Step, i: nat)
    requires TableOk(s) && Enabled(s, a) && i < |Next(s, a).tasks|
    ensures Listed(Next(s, a), i)
  {
    hide TableOk, Listed, Next, Enabled;
    match a
    case Execute(d, r) => ListedAfterCall(s, d, r, i);
    case Forget(k) => ListedAfterForget(s, k, i);
    case Return(j) => ListedAfterWake(s, a, i);
    case Leave(j) => ListedAfterWake(s, a, i);
    case Acquire(k) => ListedAfterPhase(s, a, k, i);
    case Finish(k, o) => ListedAfterPhase(s, a, k, i);
    case CancelWaiting(k) => ListedAfterPhase(s, a, k, i);
  }

  lemma ListedAfterCall(s: State, d: Capability, r: Request, i: nat)
    requires TableOk(s) && Enabled(s, Execute(d, r)) && i < |Next(s, Execute(d, r)).tasks|
    ensures Listed(Next(s, Execute(d, r)), i)
  {
    if i < |s.tasks| { assert Listed(s, i); }
    hide TableOk;
  }

  lemma ListedAfterForget(s: State, k: nat, i: nat)
    requires TableOk(s) && Enabled(s, Forget(k)) && i < |Next(s, Forget(k)).tasks|
    ensures Listed(Next(s, Forget(k)), i)
  {
    assert Listed(s, i) && Listed(s, k);
    hide TableOk;
  }

  lemma ListedAfterPhase(s: State, a: Step, k: nat, i: nat)
    requires TableOk(s) && Enabled(s, a) && i < |Next(s, a).tasks|
    requires a == Acquire(k) || a == CancelWaiting(k) || (a.Finish? && a.task == k)
    ensures Listed(Next(s, a), i)
  {
    var t := Next(s, a);
    assert |t.tasks| == |s.tasks| && t.inflight == s.inflight && t.limits == s.limits;
    assert t.tasks[i].key == s.tasks[i].key && (t.tasks[i].phase.Forgotten? <==> s.tasks[i].phase.Forgotten?);
    hide Next, Enabled;
    assert Listed(s, i);
  }

  lemma ListedAfterWake(s: State, a: Step, i: nat)
    requires TableOk(s) && Enabled(s, a) && i < |Next(s, a).tasks| && (a.Return? || a.Leave?)
    ensures Listed(Next(s, a), i)
  {
    assert Listed(s, i);
    hide TableOk;
  }

  lemma EntryKept(s: State, a: Step, k: Key)
    requires TableOk(s) && Enabled(s, a) && k in Next(s, a).inflight
    ensures Next(s, a).inflight[k] < |Next(s, a).tasks| && Holds(Next(s, a), k, Next(s, a).inflight[k])
  {
    if k in s.inflight { assert Holds(s, k, s.inflight[k]); }
    hide TableOk;
  }

  lemma CallsKept(s: State, a: Step)
    requires TableOk(s) && CallsOk(s) && Enabled(s, a)
    ensures CallsOk(Next(s, a))
  {
    var t := Next(s, a);
    if a.Execute? && Key(a.capability, a.request) in s.inflight {
      assert Holds(s, Key(a.capability, a.request), s.inflight[Key(a.capability, a.request)]);
    }
    forall j | 0 <= j < |t.calls| ensures CallOk(t, t.calls[j]) {
      if j < |s.calls| { assert CallOk(s, s.calls[j]); }
    }
  }

  /** Every reachable state satisfies the invariant. */
  lemma {:induction false} RunKeepsInv(s: State, steps: seq<Step>)
    requires Inv(s)
    ensures Inv(Run(s, steps))
  {
    if steps != [] {
      RunKeepsInv(s, steps[..|steps| - 1]);
      StepKeepsInv(Run(s, steps[..|steps| - 1]), steps[|steps| - 1]);
    }
  }

  // ---------------------------------------------------------------- what the pool promises

  /** In every reachable state one request has at most one unfinished task, and the operations
      running for a capability are the ones counted and within its limit. */
  lemma ReachablePool(limits: map<Capability, nat>, steps: seq<Step>)
    ensures var s := Run(Start(limits), steps);
      && (forall i, j :: 0 <= i < j < |s.tasks| && s.tasks[i].key == s.tasks[j].key ==> s.tasks[i].phase.Forgotten? || s.tasks[j].phase.Forgotten?)
      && (forall c :: c in limits ==> c in s.active && s.active[c] == Count(s.tasks, c) <= limits[c])
  {
    var s := Run(Start(limits), steps);
    StartOk(limits);
    RunKeepsInv(Start(limits), steps);
    LimitsFixed(Start(limits), steps);
    forall i, j | 0 <= i < j < |s.tasks| && s.tasks[i].key == s.tasks[j].key ensures s.tasks[i].phase.Forgotten? || s.tasks[j].phase.Forgotten? {
      assert Listed(s, i) && Listed(s, j);
    }
    forall c | c in limits ensures c in s.active && s.active[c] == Count(s.tasks, c) <= limits[c] {
      assert CounterOk(s, c);
    }
  }

  lemma {:induction false} LimitsFixed(s: State, steps: seq<Step>)
    ensures Run(s, steps).limits == s.limits
  {
    hide Move;
    if steps != [] {
      LimitsFixed(s, steps[..|steps| - 1]);
      MoveKeepsLimits(Run(s, steps[..|steps| - 1]), steps[|steps| - 1]);
    }
  }

  lemma MoveKeepsLimits(s: State, a: Step)
    ensures Move(s, a).limits == s.limits
  {
  }

  /** An entry leaves the table only in the callback of the finished task it names, and that
      callback always finds its own entry: the identity check never fails. */
  lemma OnlyOwnTaskForgets(s: State, a: Step, k: Key)
    requires Inv(s) && Enabled(s, a)
    ensures k in s.inflight && k !in Next(s, a).inflight ==> a == Forget(s.inflight[k]) && TaskDone(s, s.inflight[k])
    ensures k in s.inflight && k in Next(s, a).inflight ==> Next(s, a).inflight[k] == s.inflight[k]
    ensures a.Forget? ==> s.tasks[a.task].key in s.inflight && s.tasks[a.task].key !in Next(s, a).inflight
  {
    if a.Forget? {
      assert Listed(s, a.task);
    }
  }

  /** A call for a request whose task is still in the table starts nothing and waits on that task. */
  lemma IdenticalCallsJoin(s: State, c: Capability, r: Request, i: nat)
    requires Inv(s) && Enabled(s, Execute(c, r))
    requires i < |s.tasks| && s.tasks[i].key == Key(c, r) && !s.tasks[i].phase.Forgotten?
    ensures Next(s, Execute(c, r)).tasks == s.tasks
    ensures Next(s, Execute(c, r)).calls == s.calls + [Call(i, Awaiting)]
  {
    assert Listed(s, i);
  }

  predicate SameTask(a: Task, b: Task)
  {
    a.key == b.key && (Finished(a.phase) ==> Finished(b.phase) && a.phase.outcome == b.phase.outcome)
  }

  /** Tasks and calls are never lost, a finished task keeps its outcome, and a call its task. */
  ghost predicate Extends(s: State, t: State)
  {
    && |s.tasks| <= |t.tasks| && (forall i :: 0 <= i < |s.tasks| ==> SameTask(s.tasks[i], t.tasks[i]))
    && |s.calls| <= |t.calls| && (forall j :: 0 <= j < |s.calls| ==> t.calls[j].task == s.calls[j].task)
  }

  lemma StepExtends(s: State, a: Step)
    requires Enabled(s, a)
    ensures Extends(s, Next(s, a))
  {
    var t := Next(s, a);
    forall i | 0 <= i < |s.tasks| ensures SameTask(s.tasks[i], t.tasks[i]) {
    }
  }

  lemma ExtendsTransitive(a: State, b: State, c: State)
    requires Extends(a, b) && Extends(b, c)
    ensures Extends(a, c)
  {
    forall i | 0 <= i < |a.tasks| ensures SameTask(a.tasks[i], c.tasks[i]) {
      assert SameTask(a.tasks[i], b.tasks[i]) && SameTask(b.tasks[i], c.tasks[i]);
    }
  }

  lemma {:induction false} OutcomesAreFinal(s: State, steps: seq<Step>)
    ensures Extends(s, Run(s, steps))
  {
    if steps != [] {
      var mid := Run(s, steps[..|steps| - 1]);
      OutcomesAreFinal(s, steps[..|steps| - 1]);
      if Enabled(mid, steps[|steps| - 1]) {
        StepExtends(mid, steps[|steps| - 1]);
        ExtendsTransitive(s, mid, Next(mid, steps[|steps| - 1]));
      }
    }
  }

  /** All the callers that joined one task and have an answer have the same one, and it is the
      outcome that the task has then and ever after. */
  lemma JoinedCallersAgree(s: State, steps: seq<Step>, i: nat, j: nat)
    requires Inv(s) && i < |s.calls| && s.calls[i].state.Got?
    ensures var t := Run(s, steps);
      && s.calls[i].task < |t.tasks| && Finished(t.tasks[s.calls[i].task].phase)
      && t.tasks[s.calls[i].task].phase.outcome == s.calls[i].state.outcome
      && (j < |t.calls| && t.calls[j].task == s.calls[i].task && t.calls[j].state.Got? ==> t.calls[j].state == s.calls[i].state)
  {
    OutcomesAreFinal(s, steps);
    RunKeepsInv(s, steps);
    assert CallOk(s, s.calls[i]);
    assert SameTask(s.tasks[s.calls[i].task], Run(s, steps).tasks[s.calls[i].task]);
    if j < |Run(s, steps).calls| {
      assert CallOk(Run(s, steps), Run(s, steps).calls[j]);
    }
  }

  // ---------------------------------------------------------------- a cancelled caller disturbs nobody

  /** The states agree on everything but the state of one call. */
  ghost predicate SameBut(s: State, t: State, j: nat)
  {
    && s.(calls := []) == t.(calls := []) && |s.calls| == |t.calls|
    && (forall k :: 0 <= k < |s.calls| ==> s.calls[k].task == t.calls[k].task && (k != j ==> s.calls[k] == t.calls[k]))
  }

  function Without(steps: seq<Step>, j: nat): seq<Step>
  {
    if steps == [] then []
    else
      var rest := Without(steps[..|steps| - 1], j);
      if steps[|steps| - 1] == Leave(j) then rest else rest + [steps[|steps| - 1]]
  }

  /** Steps of tasks do not look at the calls. */
  ghost predicate IgnoresCalls(s: State, x: seq<Call>, a: Step)
  {
    Move(s.(calls := x), a) == Move(s, a).(calls := x) && Move(s, a).calls == s.calls
  }

  lemma AcquireIgnoresCalls(s: State, x: seq<Call>, i: nat)
    ensures IgnoresCalls(s, x, Acquire(i))
  {
  }

  lemma FinishIgnoresCalls(s: State, x: seq<Call>, i: nat, o: Outcome)
    ensures IgnoresCalls(s, x, Finish(i, o))
  {
  }

  lemma ForgetIgnoresCalls(s: State, x: seq<Call>, i: nat)
    ensures IgnoresCalls(s, x, Forget(i)) && IgnoresCalls(s, x, CancelWaiting(i))
  {
  }

  lemma ReturnsAgree(s: State, t: State, k: nat, j: nat)
    requires SameBut(s, t, j)
    ensures SameBut(Move(s, Return(k)), Move(t, Return(k)), j)
  {
    hide Count, Joined, Acquired, Released, Dropped, Phased;
    assert s == t.(calls := s.calls);
    if k < |s.calls| && k != j {
      assert s.calls[k] == t.calls[k];
    }
  }

  lemma LeavesAgree(s: State, t: State, k: nat, j: nat)
    requires SameBut(s, t, j) && k != j
    ensures SameBut(Move(s, Leave(k)), Move(t, Leave(k)), j)
  {
    hide Count, Joined, Acquired, Released, Dropped, Phased;
    assert s == t.(calls := s.calls);
    if k < |s.calls| {
      assert s.calls[k] == t.calls[k];
    }
  }

  lemma JoinsAgree(s: State, t: State, c: Capability, r: Request, j: nat)
    requires SameBut(s, t, j)
    ensures SameBut(Move(s, Execute(c, r)), Move(t, Execute(c, r)), j)
  {
    assert s == t.(calls := s.calls);
  }

  lemma SameButStep(s: State, t: State, a: Step, j: nat)
    requires SameBut(s, t, j) && a != Leave(j)
    ensures SameBut(Move(s, a), Move(t, a), j)
  {
    hide Move;
    if a.Execute? {
      JoinsAgree(s, t, a.capability, a.request, j);
    } else if a.Return? {
      ReturnsAgree(s, t, a.call, j);
    } else if a.Leave? {
      LeavesAgree(s, t, a.call, j);
    } else {
      assert s == t.(calls := s.calls);
      match a
      case Acquire(i) => AcquireIgnoresCalls(t, s.calls, i);
      case Finish(i, o) => FinishIgnoresCalls(t, s.calls, i, o);
      case Forget(i) => ForgetIgnoresCalls(t, s.calls, i);
      case CancelWaiting(i) => ForgetIgnoresCalls(t, s.calls, i);
    }
  }

  /** Take out every cancellation of one caller from any run: nothing but that caller's own state
      is different, for every task, every counter and every other caller. */
  lemma {:induction false} CancellationDisturbsNobody(s: State, steps: seq<Step>, j: nat)
    ensures SameBut(Run(s, steps), Run(s, Without(steps, j)), j)
  {
    if steps != [] {
      var n := |steps| - 1;
      CancellationDisturbsNobody(s, steps[..n], j);
      var rest := Without(steps[..n], j);
      if steps[n] != Leave(j) {
        assert (rest + [steps[n]])[..|rest|] == rest;
        SameButStep(Run(s, steps[..n]), Run(s, rest), steps[n], j);
      }
    }
  }

  // ---------------------------------------------------------------- maxima

  /** The most operations counted for a capability at any moment of a run. */
  function Peak(s: State, steps: seq<Step>, c: Capability): nat
  {
    if steps == [] then Get(s.active, c)
    else Max(Peak(s, steps[..|steps| - 1], c), Get(Run(s, steps).active, c))
  }

  lemma MaximumFollows(s: State, a: Step, c: Capability)
    requires c in s.limits && CounterOk(s, c)
    ensures Get(Move(s, a).maxima, c) == Max(Get(s.maxima, c), Get(Move(s, a).active, c))
  {
    match a
    case Execute(d, r) =>
    case Acquire(i) =>
    case Finish(i, _) =>
    case CancelWaiting(i) =>
    case Forget(i) =>
    case Return(j) =>
    case Leave(j) =>
  }

  lemma {:induction false} MaximaAreExact(s: State, steps: seq<Step>, c: Capability)
    requires Inv(s) && c in s.limits
    ensures Get(Run(s, steps).maxima, c) == Max(Get(s.maxima, c), Peak(s, steps, c))
  {
    assert CounterOk(s, c);
    if steps != [] {
      var n := |steps| - 1;
      MaximaAreExact(s, steps[..n], c);
      RunKeepsInv(s, steps[..n]);
      LimitsFixed(s, steps[..n]);
      assert CounterOk(Run(s, steps[..n]), c);
      MaximumFollows(Run(s, steps[..n]), steps[n], c);
      hide Move, CounterOk, Count, TableOk, CallsOk;
    }
  }

  // ---------------------------------------------------------------- progress

  function PhaseRank(p: Phase): nat
  {
    match p case Waiting => 3 case Running => 2 case Done(_) => 1 case Forgotten(_) => 0
  }

  function TaskWork(tasks: seq<Task>): nat
  {
    if tasks == [] then 0 else TaskWork(tasks[..|tasks| - 1]) + PhaseRank(tasks[|tasks| - 1].phase)
  }

  function CallWork(calls: seq<Call>): nat
  {
    if calls == [] then 0 else CallWork(calls[..|calls| - 1]) + if calls[|calls| - 1].state.Awaiting? then 1 else 0
  }

  function Work(s: State): nat
  {
    TaskWork(s.tasks) + CallWork(s.calls)
  }

  lemma {:induction false} TaskWorkUpdate(tasks: seq<Task>, i: nat, t: Task)
    requires i < |tasks|
    ensures TaskWork(tasks[i := t]) + PhaseRank(tasks[i].phase) == TaskWork(tasks) + PhaseRank(t.phase)
  {
    var n := |tasks| - 1;
    if i == n {
      assert tasks[i := t][..n] == tasks[..n];
    } else {
      assert tasks[i := t][..n] == tasks[..n][i := t];
      TaskWorkUpdate(tasks[..n], i, t);
    }
  }

  lemma {:induction false} CallWorkUpdate(calls: seq<Call>, j: nat, c: Call)
    requires j < |calls| && calls[j].state.Awaiting? && !c.state.Awaiting?
    ensures CallWork(calls[j := c]) + 1 == CallWork(calls)
  {
    var n := |calls| - 1;
    if j == n {
      assert calls[j := c][..n] == calls[..n];
    } else {
      assert calls[j := c][..n] == calls[..n][j := c];
      CallWorkUpdate(calls[..n], j, c);
    }
  }

  /** Every step but a new call uses up work. */
  lemma StepsUseWork(s: State, a: Step)
    requires Enabled(s, a) && !a.Execute?
    ensures Work(Next(s, a)) < Work(s)
  {
    var t := Next(s, a);
    match a
    case Return(j) => CallWorkUpdate(s.calls, j, t.calls[j]);
    case Leave(j) => CallWorkUpdate(s.calls, j, t.calls[j]);
    case Acquire(i) => TaskWorkUpdate(s.tasks, i, t.tasks[i]);
    case Finish(i, _) => TaskWorkUpdate(s.tasks, i, t.tasks[i]);
    case CancelWaiting(i) => TaskWorkUpdate(s.tasks, i, t.tasks[i]);
    case Forget(i) => TaskWorkUpdate(s.tasks, i, t.tasks[i]);
  }

  /** A capability with no free permit has a running operation to wait for. */
  lemma {:induction false} SomeRunning(tasks: seq<Task>, c: Capability) returns (i: nat)
    requires Count(tasks, c) > 0
    ensures i < |tasks| && tasks[i].phase == Running && tasks[i].key.capability == c
  {
    var last := tasks[|tasks| - 1];
    if last.phase == Running && last.key.capability == c {
      i := |tasks| - 1;
    } else {
      i := SomeRunning(tasks[..|tasks| - 1], c);
    }
  }

  /** No caller is ever stuck: while one waits, some step other than a new call or a cancellation is
      enabled. Each such step uses up work, so once calls stop coming and operations end, every
      caller has its answer. */
  lemma NobodyIsStuck(s: State, j: nat) returns (a: Step)
    requires Inv(s) && (forall c :: c in s.limits ==> s.limits[c] >= 1)
    requires j < |s.calls| && s.calls[j].state.Awaiting?
    ensures Enabled(s, a) && (a.Acquire? || a.Finish? || a.Return?)
  {
    assert CallOk(s, s.calls[j]);
    var i := s.calls[j].task;
    if Finished(s.tasks[i].phase) {
      a := Return(j);
    } else if s.tasks[i].phase == Running {
      a := Finish(i, Value(0));
    } else {
      var c := s.tasks[i].key.capability;
      assert Listed(s, i);
      assert CounterOk(s, c);
      if s.permits[c] > 0 {
        a := Acquire(i);
      } else {
        var k := SomeRunning(s.tasks, c);
        a := Finish(k, Value(0));
      }
    }
  }

  /** A step of the tasks and their callers' wake-ups: no new call and no cancellation. */
  predicate Drives(a: Step)
  {
    a.Acquire? || a.Finish? || a.Forget? || a.Return?
  }

  ghost predicate DrivenRun(s: State, steps: seq<Step>)
  {
    forall i :: 0 <= i < |steps| ==> DrivenAt(s, steps, i)
  }

  predicate DrivenAt(s: State, steps: seq<Step>, i: nat)
    requires i < |steps|
  {
    Drives(steps[i]) && Enabled(Run(s, steps[..i]), steps[i])
  }

  lemma DrivenPrefix(s: State, steps: seq<Step>)
    requires steps != [] && DrivenRun(s, steps)
    ensures DrivenRun(s, steps[..|steps| - 1]) && DrivenAt(s, steps, |steps| - 1)
  {
    hide Enabled, Run, Drives;
    var n := |steps| - 1;
    forall i | 0 <= i < n ensures DrivenAt(s, steps[..n], i) {
      assert DrivenAt(s, steps, i);
      assert steps[..n][..i] == steps[..i];
    }
  }

  lemma DrivenCalls(s: State, a: Step)
    requires Enabled(s, a) && Drives(a)
    ensures |Next(s, a).calls| == |s.calls|
    ensures forall j :: 0 <= j < |s.calls| ==> Next(s, a).calls[j].state == s.calls[j].state || Next(s, a).calls[j].state.Got?
  {
    match a
    case Acquire(i) =>
    case Finish(i, _) =>
    case Forget(i) =>
    case Return(j) =>
  }

  /** Such a run is no longer than the work there was, and takes nobody's answer or wait away. */
  lemma {:induction false} DrivenRunIsBounded(s: State, steps: seq<Step>)
    requires DrivenRun(s, steps)
    ensures |steps| + Work(Run(s, steps)) <= Work(s) && |Run(s, steps).calls| == |s.calls|
    ensures forall j :: 0 <= j < |s.calls| && !s.calls[j].state.Left? ==> !Run(s, steps).calls[j].state.Left?
  {
    hide Enabled, Next, Work, Drives;
    if steps != [] {
      var n := |steps| - 1;
      DrivenPrefix(s, steps);
      DrivenRunIsBounded(s, steps[..n]);
      var mid := Run(s, steps[..n]);
      DrivenIsNoCall(steps[n]);
      StepsUseWork(mid, steps[n]);
      DrivenCalls(mid, steps[n]);
    }
  }

  lemma DrivenIsNoCall(a: Step)
    requires Drives(a)
    ensures !a.Execute?
  {
  }

  /** From any reachable state, a run of the tasks and wake-ups alone that cannot be continued has
      answered every caller who had not left, and every such run ends within the work there was. */
  lemma EveryoneIsAnswered(s: State, steps: seq<Step>)
    requires Inv(s) && (forall c :: c in s.limits ==> s.limits[c] >= 1) && DrivenRun(s, steps)
    requires forall a :: Drives(a) ==> !Enabled(Run(s, steps), a)
    ensures |steps| <= Work(s) && |Run(s, steps).calls| == |s.calls|
    ensures forall j :: 0 <= j < |s.calls| && !s.calls[j].state.Left? ==> Run(s, steps).calls[j].state.Got?
  {
    DrivenRunIsBounded(s, steps);
    RunKeepsInv(s, steps);
    LimitsFixed(s, steps);
    hide Inv, Enabled, Run, Work, DrivenRun;
    forall j | 0 <= j < |s.calls| && !s.calls[j].state.Left? ensures Run(s, steps).calls[j].state.Got? {
      if Run(s, steps).calls[j].state.Awaiting? {
        var a := NobodyIsStuck(Run(s, steps), j);
      }
    }
  }

  // ---------------------------------------------------------------- the pool object

  datatype Result<T> = Ok(value: T) | UnknownCapability | EmptyKey

  class Pool {
    var limits: map<Capability, nat>
    var tasks: seq<Task>
    var calls: seq<Call>
    var inflight: map<Key, nat>
    var permits: map<Capability, nat>
    var active: map<Capability, nat>
    var maxObserved: map<Capability, nat>

    constructor (given: map<Capability, nat>)
      ensures View() == Start(given) && Inv(View())
    {
      limits, permits := given, given;
      tasks, calls, inflight := [], [], map[];
      active, maxObserved := map c | c in given :: 0, map c | c in given :: 0;
      new;
      StartOk(given);
    }

    ghost function View(): State
      reads this
    {
      State(limits, tasks, calls, inflight, permits, active, maxObserved)
    }

    /** An empty table of limits and a limit below one are refused. */
    static method Open(given: map<Capability, nat>) returns (pool: Pool?)
      ensures pool == null <==> given == map[] || exists c :: c in given && given[c] < 1
      ensures pool != null ==> fresh(pool) && pool.View() == Start(given) && Inv(pool.View())
    {
      if given == map[] || exists c :: c in given && given[c] < 1 {
        return null;
      }
      pool := new Pool(given);
    }

    method Execute(c: Capability, r: Request) returns (call: Result<nat>)
      requires Inv(View())
      modifies this
      ensures Inv(View()) && View() == Move(old(View()), Step.Execute(c, r))
      ensures call == if c !in limits then UnknownCapability else if r == EMPTY then EmptyKey else Ok(old(|calls|))
    {
      if c !in limits {
        return UnknownCapability;
      }
      if r == EMPTY {
        return EmptyKey;
      }
      StepKeepsInv(View(), Step.Execute(c, r));
      hide Inv;
      var k := Key(c, r);
      var task;
      if k in inflight {
        task := inflight[k];
      } else {
        task := |tasks|;
        tasks := tasks + [Task(k, Waiting)];
        inflight := inflight[k := task];
      }
      call := Ok(|calls|);
      calls := calls + [Call(task, Awaiting)];
    }

    /** The task's body up to the await: the semaphore is taken and the operation counted. */
    method Begin(i: nat)
      requires Inv(View()) && Enabled(View(), Acquire(i))
      modifies this`tasks, this`permits, this`active, this`maxObserved
      ensures Inv(View()) && View() == Next(old(View()), Acquire(i))
    {
      StepKeepsInv(View(), Acquire(i));
      var c := tasks[i].key.capability;
      assert Listed(View(), i) && CounterOk(View(), c);
      hide Inv, Listed, CounterOk;
      permits := permits[c := permits[c] - 1];
      active := active[c := active[c] + 1];
      maxObserved := maxObserved[c := Max(maxObserved[c], active[c])];
      tasks := tasks[i := tasks[i].(phase := Running)];
    }

    /** The rest of the body: whatever the operation did, it is no longer counted. */
    method End(i: nat, o: Outcome)
      requires Inv(View()) && Enabled(View(), Finish(i, o))
      modifies this`tasks, this`permits, this`active
      ensures Inv(View()) && View() == Next(old(View()), Finish(i, o))
    {
      StepKeepsInv(View(), Finish(i, o));
      var c := tasks[i].key.capability;
      assert Listed(View(), i) && CounterOk(View(), c);
      CountUpdate(tasks, i, tasks[i].(phase := Done(o)), c);
      assert active[c] > 0;
      hide Inv, Listed, CounterOk;
      active := active[c := active[c] - 1];
      permits := permits[c := permits[c] + 1];
      tasks := tasks[i := tasks[i].(phase := Done(o))];
    }

    method ForgetTask(i: nat)
      requires Inv(View()) && Enabled(View(), Forget(i))
      modifies this`tasks, this`inflight
      ensures Inv(View()) && View() == Next(old(View()), Forget(i))
      ensures tasks[i].key !in inflight
    {
      StepKeepsInv(View(), Forget(i));
      OnlyOwnTaskForgets(View(), Forget(i), tasks[i].key);
      hide Inv;
      var k := tasks[i].key;
      if k in inflight && inflight[k] == i {
        inflight := inflight - {k};
      }
      tasks := tasks[i := tasks[i].(phase := Forgotten(tasks[i].phase.outcome))];
    }
  }
}
