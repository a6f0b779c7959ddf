/** The scheduler's main loop over its mutable state
    (src/scan_tool/application/scheduler.py:243-329, 450-473). Iteration order over sets and which
    tasks finish first are left open, and the workers' answers are given by an arbitrary function:
    the proofs hold for all. */
module SchedulerRun {
  import opened Basics
  import opened DependencyGraph
  import opened SchedulerModel
  import opened SchedulerSteps
  import opened SchedulerPass
  import opened SchedulerOutcomes

  /** The local state of `_execute`; `history` is the proof's record of the active sets. */
  class Run {
    const c: Config
    const w: Workers
    var pending: set<JobId>
    var active: set<JobId>
    var results: map<JobId, JobResult>
    var attempts: map<JobId, nat>
    var order: seq<JobId>
    var counters: Counters
    var maxima: Maxima
    ghost var history: set<set<JobId>>

    constructor (c: Config, w: Workers)
      ensures this.c == c && this.w == w && pending == c.jobs.Keys
      ensures View() == Start(c).(pending := pending, results := map[])
    {
      this.c, this.w := c, w;
      pending, active, results := c.jobs.Keys, {}, map[];
      attempts, order := map j | j in c.jobs :: 0, [];
      counters, maxima := Counters(0, map[], map[]), Maxima(0, 0, 0, map[]);
      history := {{}};
    }

    ghost function View(): State
      reads this
    {
      State(pending, active, results, attempts, order, counters, maxima, history)
    }

    /** Cancelled jobs and jobs of paused problems get their result before anything runs. */
    method SkipUnrunnable()
      requires pending == c.jobs.Keys && View() == Start(c).(pending := pending, results := map[])
      modifies this
      ensures View() == Start(c)
    {
      var todo := pending;
      while todo != {}
        invariant todo <= c.jobs.Keys
        invariant View() == Start(c).(pending := pending, results := results)
        invariant forall j :: j in pending <==> j in c.jobs && (j in todo || !Skipped(c, j))
        invariant forall j :: j in results <==> j in c.jobs && j !in todo && Skipped(c, j)
        invariant forall j :: j in results ==> results[j] == SkipResult(c, j)
        decreases todo
      {
        var j := AnyOf(todo);
        todo := todo - {j};
        if j in c.cancelled {
          results := results[j := NotRun(c.jobs[j], Cancelled, CancelledCode)];
          pending := pending - {j};
        } else if c.jobs[j].problem in c.paused {
          results := results[j := NotRun(c.jobs[j], Waiting, ProblemPaused)];
          pending := pending - {j};
        }
      }
    }

    /** One sweep over the pending jobs, in any order; results written early in the sweep can
        block jobs met later in it. */
    method ResolveBlocked()
      requires ValidConfig(c) && Inv(c, View())
      modifies this
      ensures Inv(c, View()) && Work(c, View()) <= old(Work(c, View()))
      ensures Clearing(c, old(View()), View())
      ensures forall j :: j in old(pending) && WaitsInVain(c, old(results), j) ==> j in results
      ensures old(Faithful(c, w, View())) ==> Faithful(c, w, View())
    {
      hide Inv, ValidConfig, Work, Faithful, Block, Clearing;
      ghost var s := View();
      NothingCleared(c, s);
      ghost var faithful := Faithful(c, w, s);
      var todo := pending;
      assert forall j :: j in todo ==> j in c.jobs && j in c.deps by { PendingKnown(c, View()); }
      assert forall j :: j in todo && WaitsInVain(c, results, j) ==> Blocked(c, results, j) by { VainIsBlocked(c, View()); }
      while todo != {}
        invariant Inv(c, View()) && Work(c, View()) <= old(Work(c, View()))
        invariant Clearing(c, s, View()) && Extends(old(results), results)
        invariant todo <= pending <= old(pending)
        invariant forall j :: j in old(pending) ==> j in c.jobs && j in c.deps
        invariant forall j :: j in old(pending) && j !in todo && Blocked(c, old(results), j) ==> j in results
        invariant faithful ==> Faithful(c, w, View())
        decreases todo
      {
        var j := AnyOf(todo);
        todo := todo - {j};
        BlockedExtends(c, old(results), results, j);
        if Blocked(c, results, j) {
          PendingUnfinished(c, View(), j);
          ClearedNext(c, s, View(), j);
          PutOff(j);
        }
      }
    }

    /** A blocked job waits for a dependency that will not complete. */
    method PutOff(j: JobId)
      requires ValidConfig(c) && Inv(c, View()) && j in pending && j in c.jobs && j in c.deps && Blocked(c, results, j)
      modifies this`pending, this`results
      ensures Inv(c, View()) && Work(c, View()) <= old(Work(c, View())) && Extends(old(results), results)
      ensures pending == old(pending) - {j} && j in results && View() == Block(c, old(View()), j)
      ensures old(Faithful(c, w, View())) ==> Faithful(c, w, View())
    {
      hide Inv, ValidConfig, Work, Faithful, Blocked;
      ghost var before := View();
      BlockKeepsInv(c, before, j);
      PendingUnfinished(c, before, j);
      results := results[j := NotRun(c.jobs[j], Waiting, DependencyIncomplete)];
      pending := pending - {j};
      if Faithful(c, w, before) {
        UnrunFaithful(c, w, before, View());
      }
    }

    /** The pending jobs whose dependencies are complete, sorted for dispatch. */
    method ReadyJobs() returns (ready: seq<Job>)
      requires ValidConfig(c) && Inv(c, View())
      ensures ReadyList(c, ready, View()) && CoversReady(c, ready, View())
    {
      hide Inv, ValidConfig, Ready;
      var todo, found := pending, [];
      assert forall j :: j in todo ==> Known(c, View(), j) by { PendingKnown(c, View()); }
      while todo != {}
        invariant todo <= pending && forall j :: j in pending ==> Known(c, View(), j)
        invariant UniqueIds(found)
        invariant forall k :: 0 <= k < |found| ==> ReadyJob(c, found[k], View()) && found[k].id !in todo
        invariant forall j :: j in pending && j !in todo && Ready(c, results, j) ==> exists k :: 0 <= k < |found| && found[k].id == j
        decreases todo
      {
        var j := AnyOf(todo);
        todo := todo - {j};
        if Ready(c, results, j) {
          ghost var was := found;
          found := found + [c.jobs[j]];
          assert found[|found| - 1].id == j;
          assert forall k :: 0 <= k < |was| ==> found[k] == was[k];
        }
      }
      ready := Sorted(found);
      SameJobs(found, ready);
    }

    /** One turn of a dispatch pass. */
    method Try(job: Job)
      requires job.id in c.jobs && c.jobs[job.id] == job && job.id in attempts
      modifies this
      ensures View() == if HasCapacity(c.limits, job, old(counters)) then Dispatch(c, old(View()), job.id) else old(View())
      ensures forall j :: j in old(attempts) ==> j in attempts
    {
      if HasCapacity(c.limits, job, counters) {
        hide HasCapacity;
        pending := pending - {job.id};
        attempts := attempts[job.id := attempts[job.id] + 1];
        order := order + [job.id];
        counters := Increment(job, counters);
        active := active + {job.id};
        history := history + {active};
        maxima := Maxima(Max(maxima.jobs, counters.total), Max(maxima.problems, |CountedProblems(counters)|),
                         Max(maxima.perProblem, counters.byProblem[job.problem]),
                         maxima.byRole[job.role := Max(Get(maxima.byRole, job.role), counters.byRole[job.role])]);
      }
    }

    /** Tries every ready job once and returns the list it went through. */
    method DispatchPass() returns (ready: seq<Job>)
      requires ValidConfig(c) && Inv(c, View())
      modifies this
      ensures old(ReadyList(c, ready, View())) && old(CoversReady(c, ready, View()))
      ensures View() == PassOver(c, ready, old(View()))
      ensures Inv(c, View()) && Work(c, View()) <= old(Work(c, View()))
      ensures results == old(results) && pending <= old(pending) && NothingFits(c, View())
      ensures old(Faithful(c, w, View())) ==> Faithful(c, w, View())
    {
      hide Inv, ValidConfig, Work, Ready, HasCapacity, ReadyJob, Dispatch, NothingFits, Faithful;
      ready := ReadyJobs();
      ghost var s := View();
      ListKnown(c, ready, s);
      var n := 0;
      while n < |ready|
        invariant 0 <= n <= |ready|
        invariant forall k :: 0 <= k < |ready| ==> ready[k].id in c.jobs && ready[k].id in s.attempts && ready[k].id in attempts
        invariant forall k :: 0 <= k < |ready| ==> c.jobs[ready[k].id] == ready[k]
        invariant View() == PassOver(c, ready[..n], s)
      {
        assert ready[..n + 1][..n] == ready[..n];
        Try(ready[n]);
        n := n + 1;
      }
      assert ready[..|ready|] == ready;
      PassKeepsInv(c, ready, s);
      PassLeavesNothing(c, ready, s);
      if Faithful(c, w, s) {
        PassFaithful(c, w, ready, s);
      }
    }

    method MarkStranded()
      requires pending <= c.jobs.Keys
      modifies this`pending, this`results
      ensures View() == Strand(c, old(View()))
    {
      ghost var was, before := pending, results;
      var todo := pending;
      while todo != {}
        invariant todo == pending <= was
        invariant forall j :: j in results <==> j in before || (j in was && j !in todo)
        invariant forall j :: j in results && (j !in was || j in todo) ==> results[j] == before[j]
        invariant forall j :: j in was && j !in todo ==> results[j] == NotRun(c.jobs[j], Waiting, DependencyIncomplete)
        decreases todo
      {
        var j := AnyOf(todo);
        todo := todo - {j};
        results := results[j := NotRun(c.jobs[j], Waiting, DependencyIncomplete)];
        pending := pending - {j};
      }
      assert results == before + map j | j in was :: NotRun(c.jobs[j], Waiting, DependencyIncomplete);
    }

    /** The fallback when nothing is active: what is left waits for a job that will not complete. */
    method StrandRemaining()
      requires ValidConfig(c) && Inv(c, View()) && active == {} && NothingFits(c, View())
      modifies this
      ensures old(pending) <= c.jobs.Keys && View() == Strand(c, old(View())) && Inv(c, View())
      ensures forall j :: j in old(pending) ==> HasFailedAncestor(c, old(results), j)
      ensures old(Faithful(c, w, View())) ==> Faithful(c, w, View())
    {
      hide Inv, ValidConfig, NothingFits, HasFailedAncestor, Faithful;
      ghost var s := View();
      Stranding(c, s);
      MarkStranded();
      if Faithful(c, w, s) {
        UnrunFaithful(c, w, s, View());
      }
    }

    /** Takes one finished task: it ends its job or sends it back for another attempt. */
    method Settle(j: JobId, outcome: WorkerOutcome)
      requires ValidConfig(c) && Inv(c, View()) && j in active
      modifies this
      ensures Inv(c, View()) && Work(c, View()) < old(Work(c, View()))
      ensures j in c.jobs && j in old(attempts) && CountsJob(c, old(View()), j)
      ensures View() == Finish(c, old(View()), j, outcome)
      ensures Extends(old(results), results)
    {
      hide Inv, ValidConfig, Work;
      ghost var s := View();
      ActiveKnown(c, s, j);
      FinishKeepsInv(c, s, j, outcome);
      active := active - {j};
      counters := Decrement(c.jobs[j], counters);
      history := history + {active};
      if outcome.status == Failed && outcome.retryable && attempts[j] < c.jobs[j].maxAttempts {
        pending := pending + {j};
      } else {
        results := results[j := JobResult(j, c.jobs[j].problem, outcome.status, attempts[j], outcome.error,
          if outcome.checkpoint.Some? then outcome.checkpoint else c.jobs[j].checkpoint, None)];
      }
    }

    /** Some tasks, at least one, finish; they are taken in the order of their job identifiers. */
    method AwaitCompletions()
      requires ValidConfig(c) && Inv(c, View()) && active != {}
      modifies this
      ensures Inv(c, View()) && Work(c, View()) < old(Work(c, View()))
      ensures Awaited(c, w, old(View()), View()) && active < old(active)
      ensures old(Faithful(c, w, View())) ==> Faithful(c, w, View())
    {
      hide Inv, ValidConfig, Work, CountsJob, Faithful, Finish, Awaited;
      ghost var faithful := Faithful(c, w, View());
      ghost var b := View();
      NobodyAwaited(c, w, b);
      var completed: set<JobId> :| completed <= active && completed != {};
      var todo := completed;
      while todo != {}
        invariant todo <= completed && active == old(active) - (completed - todo)
        invariant Inv(c, View()) && Work(c, View()) <= old(Work(c, View()))
        invariant todo != completed ==> Work(c, View()) < old(Work(c, View()))
        invariant Awaited(c, w, b, View()) && attempts == old(attempts)
        invariant faithful ==> Faithful(c, w, View())
        decreases todo
      {
        var j := LeastOf(todo);
        todo := todo - {j};
        ghost var s := View();
        ActivePlaces(c, s, j);
        Settle(j, w(j, attempts[j]));
        FinishFields(c, s, j, w(j, s.attempts[j]));
        AwaitedNext(c, w, b, s, j);
        if faithful {
          FinishFaithful(c, w, s, j);
        }
      }
    }

    /** The main loop; the work left falls in every round, so it ends whatever the workers do. */
    method Drain() returns (ghost rounds: seq<State>)
      requires ValidConfig(c) && Inv(c, View()) && Faithful(c, w, View())
      modifies this
      ensures Inv(c, View()) && pending == {} && active == {} && Faithful(c, w, View())
      ensures Rounds(c, w, old(View()), rounds, View())
    {
      hide Inv, ValidConfig, Work, NothingFits, Faithful, Rounds, Clearing, Awaited, CoversReady, ReadyList;
      ghost var start := View();
      rounds := [start];
      NoRound(c, w, start);
      while pending != {} || active != {}
        invariant Inv(c, View()) && Faithful(c, w, View()) && Rounds(c, w, start, rounds, View())
        decreases Work(c, View())
      {
        ghost var s := View();
        ResolveBlocked();
        ghost var a := View();
        var ready := DispatchPass();
        ghost var b := View();
        ListReady(c, ready, a);
        if active == {} {
          StrandRemaining();
          OneRound(c, w, start, rounds, s, a, ready, b, View());
          rounds := rounds + [View()];
          break;
        }
        AwaitCompletions();
        OneRound(c, w, start, rounds, s, a, ready, b, View());
        rounds := rounds + [View()];
      }
    }
  }

  // ---------------------------------------------------------------- rounds

  /** Jobs that wait in vain get the result that says so; nothing else changes. */
  ghost predicate Clearing(c: Config, s: State, a: State)
  {
    && a == s.(pending := a.pending, results := a.results) && Extends(s.results, a.results) && a.pending <= s.pending
    && (forall j :: j in s.pending && j !in a.pending ==> j in a.results)
    && forall j :: j in a.results && j !in s.results ==> PutAside(c, s, a, j)
  }

  ghost predicate PutAside(c: Config, s: State, a: State, j: JobId)
    requires j in a.results
  {
    && j in s.pending && j !in a.pending && j in c.jobs && WaitsInVain(c, a.results, j)
    && a.results[j] == NotRun(c.jobs[j], Waiting, DependencyIncomplete)
  }

  lemma NothingCleared(c: Config, s: State)
    ensures Clearing(c, s, s)
  {
  }

  lemma ClearedNext(c: Config, s: State, a: State, j: JobId)
    requires Clearing(c, s, a) && j in a.pending && j in c.jobs && j in c.deps && j !in a.results && Blocked(c, a.results, j)
    ensures Clearing(c, s, Block(c, a, j))
  {
    var t := Block(c, a, j);
    forall k | k in t.results && k !in s.results ensures PutAside(c, s, t, k) {
      if k != j {
        assert PutAside(c, s, a, k);
      }
    }
  }

  /** Some tasks have ended: each of their jobs is retried or has its worker's answer as its result. */
  ghost predicate Awaited(c: Config, w: Workers, b: State, t: State)
  {
    && t == b.(pending := t.pending, active := t.active, results := t.results, counters := t.counters, history := t.history)
    && t.active <= b.active && b.pending <= t.pending && Extends(b.results, t.results)
    && (forall j :: j in t.pending || j in t.results ==> j in b.pending || j in b.results || (j in b.active && j !in t.active))
    && forall j :: j in b.active && j !in t.active ==> Ended(c, w, b, t, j)
  }

  ghost predicate Ended(c: Config, w: Workers, b: State, t: State, j: JobId)
  {
    && j in c.jobs && j in b.attempts
    && var o := w(j, b.attempts[j]);
       if o.status == Failed && o.retryable && b.attempts[j] < c.jobs[j].maxAttempts then j in t.pending && j !in t.results
       else j !in t.pending && j in t.results && t.results[j] == ResultOf(c, j, b.attempts[j], o)
  }

  lemma NobodyAwaited(c: Config, w: Workers, b: State)
    ensures Awaited(c, w, b, b)
  {
  }

  lemma AwaitedNext(c: Config, w: Workers, b: State, s: State, j: JobId)
    requires Awaited(c, w, b, s) && j in s.active && j in c.jobs && j in s.attempts && CountsJob(c, s, j)
    requires j !in s.pending && j !in s.results
    ensures Awaited(c, w, b, Finish(c, s, j, w(j, s.attempts[j])))
  {
    hide Decrement, CountsJob;
    var t := Finish(c, s, j, w(j, s.attempts[j]));
    forall k | k in b.active && k !in t.active ensures Ended(c, w, b, t, k) {
      if k != j {
        assert Ended(c, w, b, s, k);
      }
    }
  }

  /** The pass starts ready jobs in dispatch order until none of them can be started. */
  ghost predicate Passes(c: Config, ready: seq<Job>, a: State, b: State)
  {
    && ReadyList(c, ready, a) && CoversReady(c, ready, a)
    && (forall k :: 0 <= k < |ready| ==> ready[k].id in c.jobs && ready[k].id in a.attempts)
    && b == PassOver(c, ready, a) && NothingFits(c, b)
  }

  /** One round of the main loop: what waits in vain is put aside, whatever can be started is, and then
      some tasks end; or nothing runs, and what is left is stranded. */
  ghost predicate RoundVia(c: Config, w: Workers, s: State, a: State, ready: seq<Job>, b: State, t: State)
  {
    && Clearing(c, s, a) && (forall j :: j in s.pending && WaitsInVain(c, s.results, j) ==> j in a.results) && Passes(c, ready, a, b)
    && if b.active == {} then b.pending <= c.jobs.Keys && t == Strand(c, b) else Awaited(c, w, b, t) && t.active < b.active
  }

  ghost predicate Round(c: Config, w: Workers, s: State, t: State)
  {
    exists a, ready, b :: RoundVia(c, w, s, a, ready, b, t)
  }

  /** A run is a sequence of rounds. */
  ghost predicate Rounds(c: Config, w: Workers, start: State, rounds: seq<State>, end: State)
  {
    && rounds != [] && rounds[0] == start && rounds[|rounds| - 1] == end
    && forall i :: 0 <= i < |rounds| - 1 ==> Round(c, w, rounds[i], rounds[i + 1])
  }

  lemma NoRound(c: Config, w: Workers, start: State)
    ensures Rounds(c, w, start, [start], start)
  {
  }

  lemma OneRound(c: Config, w: Workers, start: State, rounds: seq<State>, s: State, a: State, ready: seq<Job>, b: State, t: State)
    requires Rounds(c, w, start, rounds, s) && Clearing(c, s, a) && ReadyList(c, ready, a) && CoversReady(c, ready, a)
    requires forall j :: j in s.pending && WaitsInVain(c, s.results, j) ==> j in a.results
    requires forall k :: 0 <= k < |ready| ==> ready[k].id in c.jobs && ready[k].id in a.attempts
    requires b == PassOver(c, ready, a) && NothingFits(c, b)
    requires if b.active == {} then b.pending <= c.jobs.Keys && t == Strand(c, b) else Awaited(c, w, b, t) && t.active < b.active
    ensures Rounds(c, w, start, rounds + [t], t)
  {
    hide Clearing, Awaited, ReadyList, CoversReady, NothingFits, PassOver, WaitsInVain;
    assert RoundVia(c, w, s, a, ready, b, t);
    hide RoundVia;
    var more := rounds + [t];
    forall i | 0 <= i < |more| - 1 ensures Round(c, w, more[i], more[i + 1]) {
      if i < |rounds| - 1 {
        assert Round(c, w, rounds[i], rounds[i + 1]);
      }
    }
  }

  /** While tasks run, no ready job is kept waiting that could be started: at every wait, starting any
      of them would break a limit. */
  lemma NeverIdle(c: Config, w: Workers, start: State, rounds: seq<State>, end: State, i: nat) returns (b: State)
    requires Rounds(c, w, start, rounds, end) && i < |rounds| - 1
    ensures NothingFits(c, b) && rounds[i + 1].order == b.order
    ensures if b.active == {} then rounds[i + 1].active == {} else rounds[i + 1].active < b.active
  {
    hide Clearing, NothingFits, Extends;
    assert Round(c, w, rounds[i], rounds[i + 1]);
    var a, ready, x :| RoundVia(c, w, rounds[i], a, ready, x, rounds[i + 1]);
    b := x;
  }

  method LeastOf(s: set<JobId>) returns (x: JobId)
    requires s != {}
    ensures x in s && forall y :: y in s ==> x <= y
  {
    x := AnyOf(s);
    var todo := s - {x};
    while todo != {}
      invariant x in s && todo <= s && forall y :: y in s && y !in todo ==> x <= y
      decreases todo
    {
      var y := AnyOf(todo);
      todo := todo - {y};
      if y < x {
        x := y;
      }
    }
  }

  // ---------------------------------------------------------------- facts the methods use

  lemma FinishFields(c: Config, s: State, j: JobId, o: WorkerOutcome)
    requires j in c.jobs && j in s.attempts && CountsJob(c, s, j)
    ensures Finish(c, s, j, o).active == s.active - {j} && Finish(c, s, j, o).order == s.order && Finish(c, s, j, o).attempts == s.attempts
  {
  }

  predicate Known(c: Config, s: State, j: JobId)
  {
    j in c.jobs && j in c.deps && j in s.attempts && c.jobs[j].id == j
  }

  lemma PendingKnown(c: Config, s: State)
    requires ValidConfig(c) && Inv(c, s)
    ensures forall j :: j in s.pending ==> Known(c, s, j)
  {
    hide OrderLinear, ResultsOk, LoadOk, Listed, Closed, Acyclic;
  }

  lemma PendingUnfinished(c: Config, s: State, j: JobId)
    requires Inv(c, s) && j in s.pending
    ensures j !in s.results
  {
    hide OrderLinear, ResultsOk, LoadOk, AttemptsExact;
  }

  lemma ActiveKnown(c: Config, s: State, j: JobId)
    requires ValidConfig(c) && Inv(c, s) && j in s.active
    ensures Known(c, s, j) && j !in s.results
  {
    hide OrderLinear, ResultsOk, LoadOk, Listed, Closed, Acyclic;
  }

  lemma ListKnown(c: Config, ready: seq<Job>, s: State)
    requires ReadyList(c, ready, s)
    ensures forall k :: 0 <= k < |ready| ==>
      Known(c, s, ready[k].id) && ready[k].id in s.pending && c.jobs[ready[k].id] == ready[k]
  {
    hide Ready, SortedJobs;
    forall k | 0 <= k < |ready|
      ensures Known(c, s, ready[k].id) && ready[k].id in s.pending && c.jobs[ready[k].id] == ready[k]
    {
      assert ReadyJob(c, ready[k], s);
    }
  }

  /** Something the job depends on has ended without completing. */
  predicate WaitsInVain(c: Config, results: map<JobId, JobResult>, j: JobId)
  {
    j in c.deps && exists d :: d in c.deps[j] && d in results && results[d].status != Complete
  }

  lemma VainIsBlocked(c: Config, s: State)
    requires Inv(c, s)
    ensures forall j :: j in c.deps && WaitsInVain(c, s.results, j) ==> Blocked(c, s.results, j)
  {
    hide Partitioned, AttemptsExact, OrderLinear, LoadOk;
    forall d | d in s.results ensures s.results[d].status in {Complete, Waiting, Partial, Failed, Cancelled} {
      assert ResultOk(c, s, d);
    }
  }

  lemma BlockedExtends(c: Config, s: map<JobId, JobResult>, t: map<JobId, JobResult>, j: JobId)
    requires j in c.deps && Extends(s, t)
    ensures Blocked(c, s, j) ==> Blocked(c, t, j)
  {
  }

  lemma SameJobs(a: seq<Job>, b: seq<Job>)
    requires multiset(a) == multiset(b)
    ensures forall k :: 0 <= k < |a| ==> exists m :: 0 <= m < |b| && b[m] == a[k]
    ensures forall k :: 0 <= k < |b| ==> exists m :: 0 <= m < |a| && a[m] == b[k]
  {
    forall k | 0 <= k < |a| ensures exists m :: 0 <= m < |b| && b[m] == a[k] {
      assert a[k] in multiset(b);
    }
    forall k | 0 <= k < |b| ensures exists m :: 0 <= m < |a| && a[m] == b[k] {
      assert b[k] in multiset(a);
    }
  }

  ghost predicate CoversReady(c: Config, ready: seq<Job>, s: State)
  {
    forall j :: j in s.pending && j in c.deps && Ready(c, s.results, j)
      ==> exists k :: 0 <= k < |ready| && ready[k].id == j
  }

  /** Starting any ready pending job would break a limit. */
  ghost predicate NothingFits(c: Config, s: State)
  {
    forall j :: j in s.pending && j in c.jobs && j in c.deps && Ready(c, s.results, j)
      ==> !WithinLimits(c, s.active + {j})
  }

  lemma PassLeavesNothing(c: Config, ready: seq<Job>, s: State)
    requires ValidConfig(c) && Inv(c, s) && ReadyList(c, ready, s) && CoversReady(c, ready, s)
    requires forall k :: 0 <= k < |ready| ==> ready[k].id in c.jobs && ready[k].id in s.attempts
    ensures NothingFits(c, PassOver(c, ready, s))
  {
    hide Inv, ValidConfig, Ready, WithinLimits, ReadyList, Work;
    var t := PassOver(c, ready, s);
    PassKeepsInv(c, ready, s);
    ListKnown(c, ready, s);
    hide PassOver;
    forall j | j in t.pending && j in c.jobs && j in c.deps && Ready(c, t.results, j)
      ensures !WithinLimits(c, t.active + {j})
    {
      var k :| 0 <= k < |ready| && ready[k].id == j;
      WorkConserving(c, ready, s, k);
    }
  }

  lemma NothingReadyWhenIdle(c: Config, s: State)
    requires ValidConfig(c) && Inv(c, s) && s.active == {} && NothingFits(c, s)
    ensures forall j :: j in s.pending ==> j in c.jobs && j in c.deps && !Ready(c, s.results, j)
  {
    PendingKnown(c, s);
    hide ValidConfig, Partitioned, AttemptsExact, OrderLinear, ResultsOk, LoadOk, Ready, HasCapacity, WithinLimits;
    forall j | j in s.pending ensures !Ready(c, s.results, j) {
      IdleFitsEverything(c, s, j);
      FitsInState(c, s, j);
    }
  }

  lemma Stranding(c: Config, s: State)
    requires ValidConfig(c) && Inv(c, s) && s.active == {} && NothingFits(c, s)
    ensures forall j :: j in s.pending ==> j in c.jobs && j !in s.results && HasFailedAncestor(c, s.results, j)
    ensures Inv(c, Strand(c, s))
  {
    NothingReadyWhenIdle(c, s);
    FailedAncestors(c, s);
    hide ValidConfig, HasFailedAncestor, NothingFits, Ready;
    forall j | j in s.pending ensures j !in s.results { PendingUnfinished(c, s, j); }
    StrandKeepsInv(c, s);
  }

  /** Some chain of dependencies leads from the job to one that ended without completing. */
  ghost predicate HasFailedAncestor(c: Config, results: map<JobId, JobResult>, j: JobId)
  {
    exists w :: |w| >= 2 && w[0] == j && IsWalk(c.deps, w) && FinishedBadly(results, w[|w| - 1])
  }

  lemma FailedAncestors(c: Config, s: State)
    requires ValidConfig(c) && Inv(c, s) && s.active == {}
    requires forall j :: j in s.pending ==> j in c.jobs && j in c.deps && !Ready(c, s.results, j)
    ensures forall j :: j in s.pending ==> HasFailedAncestor(c, s.results, j)
  {
    hide ValidConfig, Partitioned, AttemptsExact, OrderLinear, ResultsOk, LoadOk, Ready;
    forall j | j in s.pending ensures HasFailedAncestor(c, s.results, j) {
      var w := ToFailedAncestor(c, s, [j]);
    }
  }
}
