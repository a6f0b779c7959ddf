/** Every step of a run keeps the scheduler's invariant and lowers the work left. */
module SchedulerSteps {
  import opened Basics
  import opened DependencyGraph
  import opened SchedulerModel

  // ---------------------------------------------------------------- load

  lemma CountedAreActive(c: Config, a: set<JobId>, n: Counters)
    requires CountersExact(c, a, n) && a <= c.jobs.Keys
    ensures CountedProblems(n) == ProblemsOf(c, a)
  {
    forall p ensures p in CountedProblems(n) <==> p in ProblemsOf(c, a) {
      if p in ProblemsOf(c, a) {
        var j :| j in a && c.jobs[j].problem == p;
        assert j in InProblem(c, a, p);
      } else {
        assert InProblem(c, a, p) == {};
      }
      if p in CountedProblems(n) {
        assert InProblem(c, a, p) != {};
        var j :| j in InProblem(c, a, p);
      }
    }
  }

  lemma LoadOfProblem(c: Config, a: set<JobId>, j: JobId, p: ProblemId)
    requires j in c.jobs && j !in a && a <= c.jobs.Keys
    ensures |InProblem(c, a + {j}, p)| == |InProblem(c, a, p)| + if p == c.jobs[j].problem then 1 else 0
  {
    assert InProblem(c, a + {j}, p) == InProblem(c, a, p) + if p == c.jobs[j].problem then {j} else {};
  }

  lemma LoadOfRole(c: Config, a: set<JobId>, j: JobId, r: Role)
    requires j in c.jobs && j !in a && a <= c.jobs.Keys
    ensures |InRole(c, a + {j}, r)| == |InRole(c, a, r)| + if r == c.jobs[j].role then 1 else 0
  {
    assert InRole(c, a + {j}, r) == InRole(c, a, r) + if r == c.jobs[j].role then {j} else {};
  }

  lemma LoadSets(c: Config, a: set<JobId>, j: JobId)
    requires j in c.jobs && j !in a && a <= c.jobs.Keys
    ensures ProblemsOf(c, a + {j}) == ProblemsOf(c, a) + {c.jobs[j].problem}
    ensures forall p :: |InProblem(c, a + {j}, p)| == |InProblem(c, a, p)| + if p == c.jobs[j].problem then 1 else 0
    ensures forall r :: |InRole(c, a + {j}, r)| == |InRole(c, a, r)| + if r == c.jobs[j].role then 1 else 0
  {
    forall p
      ensures |InProblem(c, a + {j}, p)| == |InProblem(c, a, p)| + if p == c.jobs[j].problem then 1 else 0
    {
      LoadOfProblem(c, a, j, p);
    }
    hide InProblem, InRole;
    forall r
      ensures |InRole(c, a + {j}, r)| == |InRole(c, a, r)| + if r == c.jobs[j].role then 1 else 0
    {
      LoadOfRole(c, a, j, r);
    }
  }

  lemma AddingOneMore(c: Config, a: set<JobId>, n: Counters, j: JobId)
    requires j in c.jobs && j !in a && a <= c.jobs.Keys && CountersExact(c, a, n)
    ensures CountersExact(c, a + {j}, Increment(c.jobs[j], n))
  {
    LoadSets(c, a, j);
  }

  lemma RemovingOne(c: Config, a: set<JobId>, n: Counters, j: JobId)
    requires j in a && a <= c.jobs.Keys && CountersExact(c, a, n)
    ensures n.total >= 1 && Get(n.byProblem, c.jobs[j].problem) >= 1 && Get(n.byRole, c.jobs[j].role) >= 1
    ensures CountersExact(c, a - {j}, Decrement(c.jobs[j], n))
  {
    LoadSets(c, a - {j}, j);
    assert a - {j} + {j} == a;
  }

  lemma CapacityKeepsLimits(c: Config, a: set<JobId>, n: Counters, j: JobId)
    requires j in c.jobs && j !in a && a <= c.jobs.Keys && CountersExact(c, a, n)
    requires WithinLimits(c, a) && HasCapacity(c.limits, c.jobs[j], n)
    ensures WithinLimits(c, a + {j})
  {
    ProblemsKeepLimit(c, a, n, j);
    hide ProblemsOf, InProblem, InRole, CountedProblems;
    forall p ensures |InProblem(c, a + {j}, p)| <= c.limits.maxActiveJobsPerProblem {
      LoadOfProblem(c, a, j, p);
      assert Get(n.byProblem, p) == |InProblem(c, a, p)|;
    }
    forall r ensures |InRole(c, a + {j}, r)| == |InRole(c, a, r)| + (if r == c.jobs[j].role then 1 else 0) && Get(n.byRole, r) == |InRole(c, a, r)| {
      LoadOfRole(c, a, j, r);
    }
  }

  lemma RoleIsActive(c: Config, a: set<JobId>, r: Role)
    ensures |InRole(c, a, r)| <= |a|
  {
    SubsetSize(InRole(c, a, r), a);
  }

  lemma NewProblem(c: Config, a: set<JobId>, n: Counters, j: JobId)
    requires j in c.jobs && a <= c.jobs.Keys && CountersExact(c, a, n) && Get(n.byProblem, c.jobs[j].problem) == 0
    ensures |ProblemsOf(c, a + {j})| == |CountedProblems(n)| + 1
  {
    CountedAreActive(c, a, n);
    assert c.jobs[j].problem !in CountedProblems(n);
    hide CountersExact, CountedProblems;
    assert ProblemsOf(c, a + {j}) == ProblemsOf(c, a) + {c.jobs[j].problem};
  }

  lemma LimitsNeedCapacity(c: Config, a: set<JobId>, n: Counters, j: JobId)
    requires j in c.jobs && j !in a && a <= c.jobs.Keys && CountersExact(c, a, n)
    requires WithinLimits(c, a + {j})
    ensures HasCapacity(c.limits, c.jobs[j], n)
  {
    LoadOfProblem(c, a, j, c.jobs[j].problem);
    LoadOfRole(c, a, j, c.jobs[j].role);
    RoleIsActive(c, a, c.jobs[j].role);
    if Get(n.byProblem, c.jobs[j].problem) == 0 {
      NewProblem(c, a, n, j);
    }
    hide ProblemsOf, InProblem, InRole, CountedProblems;
  }

  /** The capacity test of the counters says exactly whether starting the job keeps every load, counted
      afresh over the active jobs, within its limit. */
  lemma FitsIff(c: Config, a: set<JobId>, n: Counters, j: JobId)
    requires j in c.jobs && j !in a && a <= c.jobs.Keys && CountersExact(c, a, n) && WithinLimits(c, a)
    ensures HasCapacity(c.limits, c.jobs[j], n) <==> WithinLimits(c, a + {j})
  {
    hide CountersExact, WithinLimits, HasCapacity;
    if HasCapacity(c.limits, c.jobs[j], n) {
      CapacityKeepsLimits(c, a, n, j);
    }
    if WithinLimits(c, a + {j}) {
      LimitsNeedCapacity(c, a, n, j);
    }
  }

  lemma ProblemsKeepLimit(c: Config, a: set<JobId>, n: Counters, j: JobId)
    requires j in c.jobs && a <= c.jobs.Keys && CountersExact(c, a, n)
    requires |ProblemsOf(c, a)| <= c.limits.maxActiveProblems && HasCapacity(c.limits, c.jobs[j], n)
    ensures |ProblemsOf(c, a + {j})| <= c.limits.maxActiveProblems
  {
    hide CountersExact;
    CountedAreActive(c, a, n);
    assert ProblemsOf(c, a + {j}) == ProblemsOf(c, a) + {c.jobs[j].problem};
    if Get(n.byProblem, c.jobs[j].problem) > 0 {
      assert c.jobs[j].problem in ProblemsOf(c, a);
      assert ProblemsOf(c, a + {j}) == ProblemsOf(c, a);
    }
  }

  /** Fewer active jobs never load anything more. */
  lemma LoadIsMonotone(c: Config, small: set<JobId>, big: set<JobId>)
    requires small <= big
    ensures |small| <= |big| && |ProblemsOf(c, small)| <= |ProblemsOf(c, big)|
    ensures forall p :: |InProblem(c, small, p)| <= |InProblem(c, big, p)|
    ensures forall r :: |InRole(c, small, r)| <= |InRole(c, big, r)|
  {
    SubsetSize(small, big);
    SubsetSize(ProblemsOf(c, small), ProblemsOf(c, big));
    forall p ensures |InProblem(c, small, p)| <= |InProblem(c, big, p)| {
      SubsetSize(InProblem(c, small, p), InProblem(c, big, p));
    }
    forall r ensures |InRole(c, small, r)| <= |InRole(c, big, r)| {
      SubsetSize(InRole(c, small, r), InRole(c, big, r));
    }
  }

  lemma ObservedMaxima(c: Config, h: set<set<JobId>>, m: Maxima, a: set<JobId>, n: Counters, j: JobId)
    requires MaximaExact(c, h, m) && a in h && a <= c.jobs.Keys
    requires j in c.jobs && j !in a && CountersExact(c, a + {j}, n)
    ensures MaximaExact(c, h + {a + {j}}, Observe(c.jobs[j], n, m))
  {
    hide PeakJobs, PeakProblems, PeakPerProblem, PeakRole, InRole, InProblem, ProblemsOf;
    var b, t := a + {j}, Observe(c.jobs[j], n, m);
    CountedAreActive(c, b, n);
    ObservedJobs(h, m.jobs, b);
    ObservedProblems(c, h, m.problems, b);
    ObservedPerProblem(c, h, m.perProblem, a, j);
    forall r ensures PeakRole(c, h + {b}, r, Get(t.byRole, r)) {
      ObservedRole(c, h, r, Get(m.byRole, r), b);
      if r != c.jobs[j].role {
        OtherRole(c, h, m, a, j, r);
      }
    }
  }

  lemma OtherRole(c: Config, h: set<set<JobId>>, m: Maxima, a: set<JobId>, j: JobId, r: Role)
    requires PeakRole(c, h, r, Get(m.byRole, r)) && a in h && a <= c.jobs.Keys
    requires j in c.jobs && j !in a && r != c.jobs[j].role
    ensures |InRole(c, a + {j}, r)| <= Get(m.byRole, r)
  {
    LoadOfRole(c, a, j, r);
  }

  lemma ObservedJobs(h: set<set<JobId>>, m: nat, b: set<JobId>)
    requires PeakJobs(h, m)
    ensures PeakJobs(h + {b}, Max(m, |b|))
  {
    var x :| x in h && |x| == m;
    assert x in h + {b} && b in h + {b};
  }

  lemma ObservedProblems(c: Config, h: set<set<JobId>>, m: nat, b: set<JobId>)
    requires PeakProblems(c, h, m)
    ensures PeakProblems(c, h + {b}, Max(m, |ProblemsOf(c, b)|))
  {
    var x :| x in h && |ProblemsOf(c, x)| == m;
    assert x in h + {b} && b in h + {b};
  }

  lemma ObservedPerProblem(c: Config, h: set<set<JobId>>, m: nat, a: set<JobId>, j: JobId)
    requires PeakPerProblem(c, h, m) && a in h && a <= c.jobs.Keys && j in c.jobs && j !in a
    ensures PeakPerProblem(c, h + {a + {j}}, Max(m, |InProblem(c, a + {j}, c.jobs[j].problem)|))
  {
    var b := a + {j};
    LoadSets(c, a, j);
    var x, p :| x in h && |InProblem(c, x, p)| == m;
    assert x in h + {b} && b in h + {b} && |InProblem(c, x, p)| == m;
    forall q ensures |InProblem(c, b, q)| <= Max(m, |InProblem(c, b, c.jobs[j].problem)|) {
      if q != c.jobs[j].problem {
        assert |InProblem(c, b, q)| == |InProblem(c, a, q)|;
      }
    }
  }

  lemma ObservedRole(c: Config, h: set<set<JobId>>, r: Role, m: nat, b: set<JobId>)
    requires PeakRole(c, h, r, m)
    ensures PeakRole(c, h + {b}, r, Max(m, |InRole(c, b, r)|))
  {
    var x :| x in h && |InRole(c, x, r)| == m;
    assert x in h + {b} && b in h + {b};
  }

  lemma ShrunkMaxima(c: Config, h: set<set<JobId>>, m: Maxima, a: set<JobId>, b: set<JobId>)
    requires MaximaExact(c, h, m) && a in h && b <= a
    ensures MaximaExact(c, h + {b}, m)
  {
    LoadIsMonotone(c, b, a);
    ObservedJobs(h, m.jobs, b);
    ObservedProblems(c, h, m.problems, b);
    assert PeakPerProblem(c, h + {b}, m.perProblem) by {
      var x, p :| x in h && |InProblem(c, x, p)| == m.perProblem;
      assert x in h + {b};
    }
    forall r ensures PeakRole(c, h + {b}, r, Get(m.byRole, r)) {
      ObservedRole(c, h, r, Get(m.byRole, r), b);
      assert |InRole(c, a, r)| <= Get(m.byRole, r);
    }
  }

  // ---------------------------------------------------------------- one conjunct at a time

  /** Results are only ever added, so what was ready stays ready and what failed stays failed. */
  lemma ReadinessExtends(c: Config, s: map<JobId, JobResult>, t: map<JobId, JobResult>, j: JobId)
    requires j in c.deps
    requires forall d :: d in s ==> d in t && t[d] == s[d]
    ensures Ready(c, s, j) ==> Ready(c, t, j)
    ensures HasFailedDependency(c, s, j) ==> HasFailedDependency(c, t, j)
  {
    if HasFailedDependency(c, s, j) {
      var d :| d in c.deps[j] && d in s && s[d].status != Complete;
      assert d in t;
    }
  }

  ghost predicate Extends(s: map<JobId, JobResult>, t: map<JobId, JobResult>)
  {
    forall d :: d in s ==> d in t && t[d] == s[d]
  }

  lemma OrderExtends(c: Config, s: State, t: State)
    requires OrderLinear(c, s) && t.order == s.order && Extends(s.results, t.results)
    ensures OrderLinear(c, t)
  {
    hide Ready;
    forall j | j in t.order && j in c.jobs && j in c.deps ensures Ready(c, t.results, j) && !Skipped(c, j) {
      ReadinessExtends(c, s.results, t.results, j);
    }
  }

  lemma ResultKept(c: Config, s: State, t: State, k: JobId)
    requires k in c.jobs && k in c.deps && k in s.results && k in s.attempts && ResultOk(c, s, k)
    requires Extends(s.results, t.results) && k in t.attempts && t.attempts[k] == s.attempts[k]
    ensures ResultOk(c, t, k)
  {
    ReadinessExtends(c, s.results, t.results, k);
  }

  /** One more result, or one more attempt of an unfinished job, disturbs no other result. */
  lemma ResultsExtend(c: Config, s: State, t: State, j: JobId)
    requires ResultsOk(c, s) && j in c.jobs && j in c.deps && j !in s.results && Extends(s.results, t.results)
    requires forall k :: k in c.jobs <==> k in t.attempts
    requires forall k :: k in t.results ==> k in s.results || k == j
    requires forall k :: k in c.jobs && k != j ==> t.attempts[k] == s.attempts[k]
    requires j in t.results ==> ResultOk(c, t, j)
    ensures ResultsOk(c, t)
  {
    forall k | k in t.results ensures ResultOk(c, t, k) {
      if k != j {
        ResultKept(c, s, t, k);
      }
    }
  }

  lemma NeverDispatched(c: Config, s: State, j: JobId)
    requires AttemptsExact(c, s) && OrderLinear(c, s) && j in c.jobs && j in c.deps
    requires !Ready(c, s.results, j)
    ensures s.attempts[j] == 0
  {
    assert s.attempts[j] == multiset(s.order)[j];
    assert j in multiset(s.order) ==> j in s.order;
  }

  lemma AttemptsAfterDispatch(c: Config, s: State, j: JobId)
    requires NoRepeats(c.ids) && j in c.ids && AttemptsExact(c, s) && j in s.pending && j in c.jobs
    ensures AttemptsExact(c, Dispatch(c, s, j))
  {
    hide Dispatch, NoRepeats, Total;
    DispatchCounts(c, s, j);
    TotalUpdate(c.ids, s.attempts, j, s.attempts[j] + 1);
    var t := Dispatch(c, s, j);
    forall x | x in t.attempts ensures t.attempts[x] == multiset(t.order)[x] <= c.jobs[x].maxAttempts {
      OneMore(s.order, j, x);
    }
    forall x | x in t.order ensures x in c.jobs {
      assert x in s.order || x == j;
    }
  }

  lemma DispatchCounts(c: Config, s: State, j: JobId)
    requires j in c.jobs && j in s.attempts
    ensures var t := Dispatch(c, s, j);
      && t.attempts == s.attempts[j := s.attempts[j] + 1] && t.order == s.order + [j]
      && t.pending == s.pending - {j} && t.active == s.active + {j}
  {
  }

  lemma OneMore(order: seq<JobId>, j: JobId, x: JobId)
    ensures multiset(order + [j])[x] == multiset(order)[x] + if x == j then 1 else 0
  {
  }

  lemma OrderAfterDispatch(c: Config, s: State, j: JobId)
    requires AttemptsExact(c, s) && OrderLinear(c, s) && j in c.jobs && j !in s.results
    requires WellTyped(c) && Ready(c, s.results, j) && !Skipped(c, j)
    ensures OrderLinear(c, Dispatch(c, s, j))
  {
    var t := s.order + [j];
    forall i, k | 0 <= i < |t| && 0 <= k < |t| && t[k] in c.deps && t[i] in c.deps[t[k]]
      ensures i < k
    {
      assert Ready(c, s.results, t[k]) by {
        if k < |s.order| { assert t[k] in s.order; }
      }
      assert i < |s.order|;
      if k < |s.order| {
        assert s.order[i] in c.deps[s.order[k]];
      }
    }
  }

  lemma LoadAfterDispatch(c: Config, s: State, j: JobId)
    requires LoadOk(c, s) && s.active <= c.jobs.Keys && j in c.jobs && j !in s.active
    requires j in s.attempts && HasCapacity(c.limits, c.jobs[j], s.counters)
    ensures LoadOk(c, Dispatch(c, s, j))
  {
    hide CountersExact, WithinLimits, MaximaExact, HasCapacity;
    AddingOneMore(c, s.active, s.counters, j);
    CapacityKeepsLimits(c, s.active, s.counters, j);
    ObservedMaxima(c, s.history, s.maxima, s.active, Increment(c.jobs[j], s.counters), j);
  }

  lemma LoadAfterFinish(c: Config, s: State, j: JobId, o: WorkerOutcome)
    requires LoadOk(c, s) && s.active <= c.jobs.Keys && j in s.active && j in s.attempts
    ensures CountsJob(c, s, j) && LoadOk(c, Finish(c, s, j, o))
  {
    hide CountersExact, MaximaExact;
    RemovingOne(c, s.active, s.counters, j);
    LoadIsMonotone(c, s.active - {j}, s.active);
    ShrunkMaxima(c, s.history, s.maxima, s.active, s.active - {j});
  }

  // ---------------------------------------------------------------- steps

  lemma StartLoad(c: Config)
    ensures LoadOk(c, Start(c))
  {
    forall p ensures InProblem(c, {}, p) == {} {}
    forall r ensures InRole(c, {}, r) == {} {}
    assert ProblemsOf(c, {}) == {};
    assert {} in Start(c).history && |InProblem(c, {}, 0)| == 0;
  }

  lemma StartKeepsInv(c: Config)
    requires ValidConfig(c)
    ensures Inv(c, Start(c))
  {
    hide LoadOk, Partitioned, AttemptsExact, OrderLinear, ResultsOk;
    StartLoad(c);
    StartPlaces(c);
    StartResults(c);
  }

  lemma StartPlaces(c: Config)
    ensures Partitioned(c, Start(c)) && AttemptsExact(c, Start(c)) && OrderLinear(c, Start(c))
  {
    TotalZero(c.ids, Start(c).attempts);
  }

  lemma StartResults(c: Config)
    requires WellTyped(c)
    ensures ResultsOk(c, Start(c))
  {
  }

  /** Where a job is decides where it is not. */
  lemma Places(c: Config, s: State, j: JobId)
    requires ValidConfig(c) && Partitioned(c, s) && j in s.pending + s.active
    ensures j in c.jobs && j in c.deps && j in c.ids && c.jobs[j].id == j && j !in s.results
    ensures j in s.pending <==> j !in s.active
    ensures s.active <= c.jobs.Keys
  {
  }

  lemma BlockKeepsInv(c: Config, s: State, j: JobId)
    requires ValidConfig(c) && Inv(c, s) && j in s.pending && Blocked(c, s.results, j)
    ensures Inv(c, Block(c, s, j)) && Work(c, Block(c, s, j)) < Work(c, s)
  {
    hide Partitioned, AttemptsExact, OrderLinear, ResultsOk, LoadOk, ValidConfig, Blocked, Work;
    Places(c, s, j);
    var t := Block(c, s, j);
    BlockMoves(c, s, j);
    BlockResults(c, s, j);
    OrderExtends(c, s, t);
    SameLoad(c, s, t);
  }

  lemma BlockMoves(c: Config, s: State, j: JobId)
    requires ValidConfig(c) && Partitioned(c, s) && AttemptsExact(c, s) && j in s.pending && j in c.jobs
    ensures Partitioned(c, Block(c, s, j)) && AttemptsExact(c, Block(c, s, j))
    ensures Work(c, Block(c, s, j)) < Work(c, s)
  {
    hide Listed, WellTyped, Closed, Acyclic, Work;
    var t := Block(c, s, j);
    assert AttemptsExact(c, t) && Weight(c, s, j) > 0;
    hide AttemptsExact;
    WorkAfter(c, s, t, j);
  }

  lemma BlockResults(c: Config, s: State, j: JobId)
    requires AttemptsExact(c, s) && OrderLinear(c, s) && ResultsOk(c, s) && j in c.jobs && j in c.deps
    requires j !in s.results && Blocked(c, s.results, j) && c.jobs[j].id == j
    ensures ResultsOk(c, Block(c, s, j))
  {
    BlockedResult(c, s, j);
    hide OrderLinear, AttemptsExact, Blocked, ResultOk;
    ResultsExtend(c, s, Block(c, s, j), j);
  }

  lemma BlockedResult(c: Config, s: State, j: JobId)
    requires AttemptsExact(c, s) && OrderLinear(c, s) && ResultsOk(c, s) && j in c.jobs && j in c.deps
    requires j !in s.results && Blocked(c, s.results, j) && c.jobs[j].id == j
    ensures ResultOk(c, Block(c, s, j), j)
  {
    assert j in s.attempts;
    hide AttemptsExact, OrderLinear, ResultsOk;
    NeverDispatched(c, s, j);
    assert HasFailedDependency(c, s.results, j);
    ReadinessExtends(c, s.results, Block(c, s, j).results, j);
    NotSkipped(c, s, j);
  }

  lemma SameLoad(c: Config, s: State, t: State)
    requires LoadOk(c, s) && t.active == s.active && t.history == s.history
    requires t.counters == s.counters && t.maxima == s.maxima
    ensures LoadOk(c, t)
  {
    hide CountersExact, WithinLimits, MaximaExact;
  }

  lemma NotSkipped(c: Config, s: State, j: JobId)
    requires ResultsOk(c, s) && j in c.jobs && j !in s.results
    ensures !Skipped(c, j)
  {
  }

  lemma DispatchKeepsInv(c: Config, s: State, j: JobId)
    requires ValidConfig(c) && Inv(c, s) && j in s.pending
    requires Ready(c, s.results, j) && HasCapacity(c.limits, c.jobs[j], s.counters)
    ensures Inv(c, Dispatch(c, s, j)) && Work(c, Dispatch(c, s, j)) < Work(c, s)
  {
    assert j in c.jobs && j in s.attempts;
    hide Partitioned, AttemptsExact, OrderLinear, ResultsOk, LoadOk, Ready, HasCapacity, Work;
    hide Closed, Acyclic;
    Places(c, s, j);
    DispatchMoves(c, s, j);
    DispatchResults(c, s, j);
    AttemptsAfterDispatch(c, s, j);
    OrderAfterDispatch(c, s, j);
    LoadAfterDispatch(c, s, j);
    hide Dispatch, ValidConfig;
  }

  lemma DispatchResults(c: Config, s: State, j: JobId)
    requires ResultsOk(c, s) && j in c.jobs && j in c.deps && j !in s.results
    ensures !Skipped(c, j) && ResultsOk(c, Dispatch(c, s, j))
  {
    hide ResultOk;
    ResultsExtend(c, s, Dispatch(c, s, j), j);
  }

  lemma DispatchMoves(c: Config, s: State, j: JobId)
    requires ValidConfig(c) && Partitioned(c, s) && AttemptsExact(c, s) && j in s.pending && j in c.jobs
    ensures Partitioned(c, Dispatch(c, s, j)) && Work(c, Dispatch(c, s, j)) < Work(c, s)
  {
    hide Dispatch, Weight, Work, NoRepeats, Closed, Acyclic, WellTyped, Partitioned;
    assert j in s.attempts;
    DispatchPartition(c, s, j);
    DispatchWork(c, s, j);
  }

  lemma DispatchPartition(c: Config, s: State, j: JobId)
    requires Partitioned(c, s) && j in s.pending && j in c.jobs && j in s.attempts
    ensures Partitioned(c, Dispatch(c, s, j))
  {
    hide Increment, Observe;
  }

  lemma DispatchWork(c: Config, s: State, j: JobId)
    requires Listed(c) && AttemptsExact(c, s) && Partitioned(c, s) && j in s.pending && j in c.jobs && j in s.attempts
    ensures Work(c, Dispatch(c, s, j)) < Work(c, s)
  {
    hide Dispatch, Weight, Work, Listed, AttemptsExact, Partitioned;
    DispatchWeights(c, s, j);
    WorkAfter(c, s, Dispatch(c, s, j), j);
  }

  lemma DispatchWeights(c: Config, s: State, j: JobId)
    requires AttemptsExact(c, s) && Partitioned(c, s) && j in s.pending && j in c.jobs
    ensures Weight(c, Dispatch(c, s, j), j) < Weight(c, s, j)
    ensures forall k :: k in c.jobs && k != j ==> Weight(c, Dispatch(c, s, j), k) == Weight(c, s, k)
  {
    DispatchCounts(c, s, j);
    hide Dispatch, Total;
  }

  lemma FinishKeepsInv(c: Config, s: State, j: JobId, o: WorkerOutcome)
    requires ValidConfig(c) && Inv(c, s) && j in s.active
    ensures CountsJob(c, s, j)
    ensures Inv(c, Finish(c, s, j, o)) && Work(c, Finish(c, s, j, o)) < Work(c, s)
  {
    hide Partitioned, OrderLinear, ResultsOk, LoadOk, Listed, WellTyped, Closed, Acyclic, Work;
    Places(c, s, j);
    assert Listed(c);
    LoadAfterFinish(c, s, j, o);
    FinishMoves(c, s, j, o);
    FinishResults(c, s, j, o);
    OrderExtends(c, s, Finish(c, s, j, o));
    hide AttemptsExact, CountsJob, Finish;
  }

  lemma FinishResults(c: Config, s: State, j: JobId, o: WorkerOutcome)
    requires ResultsOk(c, s) && j in c.jobs && j in c.deps && j !in s.results && CountsJob(c, s, j)
    requires s.attempts[j] > 0
    ensures ResultsOk(c, Finish(c, s, j, o))
  {
    FinishedResult(c, s, j, o);
    hide ResultOk;
    ResultsExtend(c, s, Finish(c, s, j, o), j);
  }

  lemma FinishMoves(c: Config, s: State, j: JobId, o: WorkerOutcome)
    requires Listed(c) && Partitioned(c, s) && AttemptsExact(c, s) && j in s.active
    requires j in c.jobs && j in s.attempts && CountsJob(c, s, j)
    ensures Partitioned(c, Finish(c, s, j, o))
    ensures AttemptsExact(c, Finish(c, s, j, o))
    ensures Work(c, Finish(c, s, j, o)) < Work(c, s)
  {
    hide Listed, Decrement, AttemptsExact, Work, CountsJob;
    FinishAttempts(c, s, j, o);
    WorkAfter(c, s, Finish(c, s, j, o), j);
  }

  lemma FinishAttempts(c: Config, s: State, j: JobId, o: WorkerOutcome)
    requires AttemptsExact(c, s) && j in s.active && j in c.jobs && CountsJob(c, s, j)
    ensures AttemptsExact(c, Finish(c, s, j, o))
    ensures Weight(c, Finish(c, s, j, o), j) < Weight(c, s, j) || j in s.results
  {
    hide Decrement;
  }

  lemma FinishedResult(c: Config, s: State, j: JobId, o: WorkerOutcome)
    requires j in c.jobs && j in c.deps && j in s.attempts && s.attempts[j] > 0 && CountsJob(c, s, j)
    requires j !in s.results
    ensures var t := Finish(c, s, j, o); j in t.results ==> ResultOk(c, t, j)
  {
  }

  /** With nothing active every ready job fits, so the fallback only meets jobs that are not ready. */
  lemma IdleFitsEverything(c: Config, s: State, j: JobId)
    requires ValidConfig(c) && LoadOk(c, s) && s.active == {} && j in c.jobs
    ensures HasCapacity(c.limits, c.jobs[j], s.counters)
  {
    assert InProblem(c, {}, c.jobs[j].problem) == {} && InRole(c, {}, c.jobs[j].role) == {};
    CountedAreActive(c, {}, s.counters);
    assert ProblemsOf(c, {}) == {};
  }

  lemma StrandedResult(c: Config, s: State, j: JobId)
    requires Partitioned(c, s) && WellTyped(c) && Closed(c.deps) && s.active == {}
    requires j in s.pending && !Ready(c, s.results, j) && j in c.jobs && !Skipped(c, j)
    requires j in s.attempts && s.attempts[j] == 0
    ensures ResultOk(c, Strand(c, s), j)
  {
    var d := OpenDependency(c, s, j);
    hide Partitioned, Ready, Closed;
    var t := Strand(c, s);
    assert d in t.results && t.results[d].status != Complete;
  }

  lemma StrandedResults(c: Config, s: State)
    requires Partitioned(c, s) && AttemptsExact(c, s) && OrderLinear(c, s) && ResultsOk(c, s)
    requires WellTyped(c) && Closed(c.deps) && s.active == {}
    requires forall j :: j in s.pending ==> !Ready(c, s.results, j)
    ensures ResultsOk(c, Strand(c, s))
  {
    hide OrderLinear, AttemptsExact, Closed, Ready, ResultOk;
    var t := Strand(c, s);
    assert Extends(s.results, t.results);
    forall k | k in t.results ensures ResultOk(c, t, k) {
      if k in s.pending {
        NeverDispatched(c, s, k);
        StrandedResult(c, s, k);
      } else {
        ResultKept(c, s, t, k);
      }
    }
  }

  lemma StrandKeepsInv(c: Config, s: State)
    requires ValidConfig(c) && Inv(c, s) && s.active == {}
    requires forall j :: j in s.pending ==> !Ready(c, s.results, j)
    ensures Inv(c, Strand(c, s)) && Strand(c, s).pending == {}
  {
    hide AttemptsExact, OrderLinear, ResultsOk, LoadOk, Listed, WellTyped, Closed, Acyclic, Ready;
    var t := Strand(c, s);
    StrandMoves(c, s);
    StrandedResults(c, s);
    OrderExtends(c, s, t);
    SameLoad(c, s, t);
    hide Partitioned;
  }

  lemma StrandMoves(c: Config, s: State)
    requires Partitioned(c, s) && AttemptsExact(c, s)
    ensures Partitioned(c, Strand(c, s)) && AttemptsExact(c, Strand(c, s))
  {
  }

  /** The walk from a stranded job through pending dependencies: it ends at a job that already
      finished without completing, for otherwise it would be longer than the acyclic graph allows. */
  ghost predicate NoneReady(c: Config, s: State)
  {
    forall j :: j in s.pending && j in c.deps ==> !Ready(c, s.results, j)
  }

  lemma {:induction false} ToFailedAncestor(c: Config, s: State, w: seq<JobId>) returns (x: seq<JobId>)
    requires ValidConfig(c) && Partitioned(c, s) && s.active == {} && NoneReady(c, s)
    requires |w| >= 1 && w[|w| - 1] in s.pending && WalkInside(c.deps, w)
    ensures |x| >= 2 && x[0] == w[0] && WalkInside(c.deps, x) && FinishedBadly(s.results, x[|x| - 1])
    decreases |c.deps.Keys| - |w|
  {
    hide ValidConfig, Partitioned, WalkInside, NoneReady, FinishedBadly;
    var d := NextOnTheWay(c, s, w[|w| - 1]);
    x := w + [d];
    StillInside(c, w, d);
    if d in s.pending {
      x := ToFailedAncestor(c, s, x);
    }
  }

  lemma NextOnTheWay(c: Config, s: State, j: JobId) returns (d: JobId)
    requires ValidConfig(c) && Partitioned(c, s) && s.active == {} && NoneReady(c, s) && j in s.pending
    ensures j in c.deps && d in c.deps[j] && d in c.deps
    ensures d in s.pending || FinishedBadly(s.results, d)
  {
    PendingInGraph(c, s, j);
    hide Listed, Acyclic, Ready, FinishedBadly, Partitioned, NoneReady;
    d := OpenDependency(c, s, j);
  }

  lemma PendingInGraph(c: Config, s: State, j: JobId)
    requires ValidConfig(c) && Partitioned(c, s) && NoneReady(c, s) && j in s.pending
    ensures j in c.deps && !Ready(c, s.results, j)
  {
    hide Listed, Acyclic, Closed, Ready;
  }

  ghost predicate WalkInside(g: Graph, w: seq<JobId>)
  {
    IsWalk(g, w) && forall i :: 0 <= i < |w| ==> w[i] in g
  }

  lemma StillInside(c: Config, w: seq<JobId>, d: JobId)
    requires ValidConfig(c) && |w| >= 1 && WalkInside(c.deps, w) && d in c.deps
    requires w[|w| - 1] in c.deps && d in c.deps[w[|w| - 1]]
    ensures WalkInside(c.deps, w + [d]) && |w| < |c.deps.Keys|
  {
    hide NoRepeats, Closed, Acyclic;
    WalkGrows(c.deps, w, d);
    if |w| >= |c.deps.Keys| {
      LongWalkHasCycle(c.deps, w + [d]);
    }
  }

  predicate FinishedBadly(results: map<JobId, JobResult>, j: JobId)
  {
    j in results && results[j].status != Complete
  }

  lemma OpenDependency(c: Config, s: State, j: JobId) returns (d: JobId)
    requires Partitioned(c, s) && WellTyped(c) && Closed(c.deps) && s.active == {}
    requires j in s.pending && !Ready(c, s.results, j)
    ensures j in c.deps && d in c.deps[j] && d in c.deps && j !in s.results
    ensures d in s.pending || FinishedBadly(s.results, d)
  {
    assert j in c.jobs;
    d :| d in c.deps[j] && !(d in s.results && s.results[d].status == Complete);
    var i :| 0 <= i < |c.deps[j]| && c.deps[j][i] == d;
  }
}
