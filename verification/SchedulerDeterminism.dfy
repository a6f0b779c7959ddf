/** What an execution reports does not depend on its schedule: neither on which tasks finish first, nor
    on the iteration order of sets, nor on the limits (src/scan_tool/application/scheduler.py:193-355). */
module SchedulerDeterminism {
  import opened Basics
  import opened DependencyGraph
  import opened SchedulerModel
  import opened SchedulerSteps
  import opened SchedulerPass
  import opened SchedulerOutcomes
  import opened Scheduler
  import opened SchedulerExecution

  // ---------------------------------------------------------------- one job

  lemma LastAttemptIsUnique(c: Config, w: Workers, j: JobId, x: JobResult, y: JobResult)
    requires j in c.jobs && 0 < x.attempts <= c.jobs[j].maxAttempts && 0 < y.attempts <= c.jobs[j].maxAttempts
    requires EndedWith(c, w, j, x) && EndedWith(c, w, j, y)
    ensures x == y
  {
    hide AsksRetry, ResultOf;
    assert !(x.attempts < y.attempts) && !(y.attempts < x.attempts);
  }

  ghost predicate SameAt(s: State, t: State, j: JobId)
  {
    j in s.results && j in t.results && s.results[j] == t.results[j]
  }

  /** What a finished run says about one job. */
  ghost predicate JobFacts(c: Config, w: Workers, s: State, j: JobId)
    requires j in c.jobs && j in c.deps
  {
    && j in s.results && s.results[j].attempts <= c.jobs[j].maxAttempts && EndedWith(c, w, j, s.results[j])
    && (s.results[j].attempts > 0 <==> !Skipped(c, j) && Ready(c, s.results, j))
    && (s.results[j].attempts == 0 ==> s.results[j] == IdleResult(c, j))
    && s.results[j].attempts == multiset(s.order)[j]
  }

  lemma FactsOfJob(c: Config, w: Workers, s: State, j: JobId)
    requires Finished(c, s) && Faithful(c, w, s) && j in c.jobs && j in c.deps
    ensures JobFacts(c, w, s, j)
  {
    FinishedRun(c, s);
    AttemptsKnown(c, s, j);
    hide Finished, Linear, Closed, EndedWith, IdleResult, Ready, Skipped, WellTyped;
    assert ResultFacts(c, s, j) && JobFaithful(c, w, s, j);
    assert j in multiset(s.order) <==> j in s.order;
  }

  lemma SameDependenciesSameResult(c: Config, w: Workers, s: State, t: State, j: JobId)
    requires j in c.jobs && j in c.deps && JobFacts(c, w, s, j) && JobFacts(c, w, t, j)
    requires forall d :: d in c.deps[j] ==> SameAt(s, t, d)
    ensures SameAt(s, t, j)
  {
    hide EndedWith, IdleResult, Skipped;
    if s.results[j].attempts > 0 {
      LastAttemptIsUnique(c, w, j, s.results[j], t.results[j]);
    }
  }

  // ---------------------------------------------------------------- along the dependencies

  /** The same jobs under limits of their own. */
  ghost predicate SameWork(c: Config, b: Config)
  {
    b == c.(limits := b.limits)
  }

  lemma FactsUnderLimits(c: Config, b: Config, w: Workers, t: State, j: JobId)
    requires SameWork(c, b) && j in c.jobs && j in c.deps && JobFacts(b, w, t, j)
    ensures JobFacts(c, w, t, j)
  {
    hide RetriedBefore, AsksRetry;
  }

  /** By induction along the dependencies, from a job to those it waits for. */
  lemma {:induction false} SameResult(c: Config, b: Config, w: Workers, s: State, t: State, walk: seq<JobId>)
    requires SameWork(c, b) && Finished(c, s) && Faithful(c, w, s) && Finished(b, t) && Faithful(b, w, t)
    requires |walk| >= 1 && WalkInside(c.deps, walk)
    ensures SameAt(s, t, walk[|walk| - 1])
    decreases |c.deps.Keys| - |walk|
  {
    hide Inv, Acyclic, Listed, Faithful, WalkInside, JobFacts, SameAt;
    var j := walk[|walk| - 1];
    InGraph(c, walk);
    forall d | d in c.deps[j] ensures SameAt(s, t, d) {
      DependencyInGraph(c, j, d);
      StillInside(c, walk, d);
      SameResult(c, b, w, s, t, walk + [d]);
    }
    FactsOfJob(c, w, s, j);
    FactsOfJob(b, w, t, j);
    FactsUnderLimits(c, b, w, t, j);
    SameDependenciesSameResult(c, w, s, t, j);
  }

  lemma InGraph(c: Config, walk: seq<JobId>)
    requires ValidConfig(c) && |walk| >= 1 && WalkInside(c.deps, walk)
    ensures walk[|walk| - 1] in c.deps && walk[|walk| - 1] in c.jobs
  {
    hide Acyclic, Closed, Listed;
  }

  lemma DependencyInGraph(c: Config, j: JobId, d: JobId)
    requires ValidConfig(c) && j in c.deps && d in c.deps[j]
    ensures d in c.deps
  {
    hide Acyclic, Listed;
  }

  lemma OneJobWalk(g: Graph, j: JobId)
    requires j in g
    ensures WalkInside(g, [j])
  {
  }

  /** Two finished runs of the same jobs with the same workers end with the same results, and their
      dispatch orders are permutations of each other, whatever finished first and whatever the limits. */
  lemma ResultsIgnoreSchedule(c: Config, b: Config, w: Workers, s: State, t: State)
    requires SameWork(c, b) && Finished(c, s) && Faithful(c, w, s) && Finished(b, t) && Faithful(b, w, t)
    ensures s.results == t.results && multiset(s.order) == multiset(t.order)
  {
    hide Faithful, WalkInside, JobFacts, SameAt, Finished;
    RunsCover(c, s);
    RunsCover(b, t);
    forall j | j in c.jobs ensures SameJob(s, t, j) && s.results[j] == t.results[j] {
      OneJobWalk(c.deps, j);
      SameResult(c, b, w, s, t, [j]);
      FactsOfJob(c, w, s, j);
      FactsOfJob(b, w, t, j);
      SameMeans(c, b, w, s, t, j);
    }
    SameOrders(s.order, t.order);
    assert s.results == t.results;
  }

  ghost predicate SameJob(s: State, t: State, j: JobId)
  {
    SameAt(s, t, j) && multiset(s.order)[j] == multiset(t.order)[j]
  }

  lemma SameMeans(c: Config, b: Config, w: Workers, s: State, t: State, j: JobId)
    requires SameAt(s, t, j) && SameWork(c, b) && j in c.jobs && j in c.deps && JobFacts(c, w, s, j) && JobFacts(b, w, t, j)
    ensures SameJob(s, t, j) && s.results[j] == t.results[j]
  {
    hide EndedWith, IdleResult, Skipped, Ready;
  }

  lemma RunsCover(c: Config, s: State)
    requires Finished(c, s)
    ensures forall j :: j in c.jobs <==> j in s.results
    ensures forall j :: j in c.jobs ==> j in c.deps
    ensures forall j :: j in s.order ==> j in c.jobs
  {
    FinishedRun(c, s);
    hide Finished, Linear, Closed, ResultFacts, Ready, Skipped;
  }

  lemma SameOrders(x: seq<JobId>, y: seq<JobId>)
    requires forall j :: j in x || j in y ==> multiset(x)[j] == multiset(y)[j]
    ensures multiset(x) == multiset(y)
  {
    forall j ensures multiset(x)[j] == multiset(y)[j] {
      assert j in x <==> j in multiset(x);
      assert j in y <==> j in multiset(y);
    }
  }

  // ---------------------------------------------------------------- the whole call

  lemma SameRepresentative(jobs: seq<Job>, x: map<JobId, JobId>, y: map<JobId, JobId>, i: nat)
    requires CanonicalMap(jobs, x) && CanonicalMap(jobs, y) && i < |jobs|
    ensures jobs[i].id in x && jobs[i].id in y && x[jobs[i].id] == y[jobs[i].id]
  {
    hide FirstOfKey;
    assert Represented(jobs, x, jobs[i]) && Represented(jobs, y, jobs[i]);
    var a :| FirstOfKey(jobs, a) && a.key == jobs[i].key && a.id == x[jobs[i].id];
    var b :| FirstOfKey(jobs, b) && b.key == jobs[i].key && b.id == y[jobs[i].id];
    FirstIsUnique(jobs, a, b);
  }

  lemma SameCanonicalMap(jobs: seq<Job>, x: map<JobId, JobId>, y: map<JobId, JobId>)
    requires CanonicalMap(jobs, x) && CanonicalMap(jobs, y)
    ensures x == y
  {
    hide Represented;
    forall j ensures (j in x <==> j in y) && (j in x ==> x[j] == y[j]) {
      if HasId(jobs, j) {
        var i :| 0 <= i < |jobs| && jobs[i].id == j;
        SameRepresentative(jobs, x, y, i);
      }
    }
  }

  lemma PlanIsUnique(jobs: seq<Job>, dependencies: Graph, p: Plan, q: Plan)
    requires Planned(jobs, dependencies, p) && Planned(jobs, dependencies, q)
    ensures p == q
  {
    hide UniqueIds, JobsById, CanonicalMap, Acyclic, Closed, IsRepresentative, Normalized;
    JobsByIdUnique(jobs, p.byId, q.byId);
    SameCanonicalMap(jobs, p.canon, q.canon);
  }

  /** Two executions of one input report the same, job by job, and dispatch each job equally often,
      whatever finished first and whatever their limits. */
  lemma ExecutionsAgree(jobs: seq<Job>, dependencies: Graph, w: Workers,
                        p: Plan, c: Config, s: State, e: Execution, q: Plan, b: Config, t: State, f: Execution)
    requires Ran(jobs, dependencies, w, p, c, s, e) && Ran(jobs, dependencies, w, q, b, t, f)
    requires c.cancelled == b.cancelled && c.paused == b.paused
    ensures e.results == f.results && multiset(e.order) == multiset(f.order)
  {
    hide Planned, Finished, Faithful, UniqueIds, HasId, CanonicalIds, Published;
    PlanIsUnique(jobs, dependencies, p, q);
    SameConfig(jobs, dependencies, p, c, b);
    ResultsIgnoreSchedule(c, b, w, s, t);
  }

  lemma SameConfig(jobs: seq<Job>, dependencies: Graph, p: Plan, c: Config, b: Config)
    requires Planned(jobs, dependencies, p) && c.cancelled == b.cancelled && c.paused == b.paused
    requires c == ConfigOf(jobs, dependencies, p, c.limits, c.cancelled, c.paused)
    requires b == ConfigOf(jobs, dependencies, p, b.limits, b.cancelled, b.paused)
    ensures SameWork(c, b)
  {
    hide Planned, CanonicalIds, CanonicalJobs;
  }
}
