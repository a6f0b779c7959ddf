/** What the scheduler accepts and what it makes of an accepted input, in the jobs' own fields
    (src/scan_tool/application/scheduler.py:222-241, 365-431). */
module SchedulerLaws {
  import opened Basics
  import opened DependencyGraph
  import opened SchedulerModel
  import opened SchedulerPass
  import opened Scheduler
  import opened SchedulerExecution

  function DepsOf(dependencies: Graph, j: JobId): seq<JobId>
  {
    if j in dependencies then dependencies[j] else []
  }

  // ---------------------------------------------------------------- what is accepted

  /** Identifiers are unique and nothing has started. */
  ghost predicate FreshJobs(jobs: seq<Job>)
  {
    && (forall i, k :: 0 <= i < k < |jobs| ==> jobs[i].id != jobs[k].id)
    && forall i :: 0 <= i < |jobs| ==> jobs[i].status == Queued
  }

  /** The jobs of one idempotency key do the same for the same problem. */
  ghost predicate KeysMatch(jobs: seq<Job>)
  {
    forall i, k :: 0 <= i < |jobs| && 0 <= k < |jobs| && jobs[i].key == jobs[k].key ==>
      jobs[i].problem == jobs[k].problem && jobs[i].jobType == jobs[k].jobType && jobs[i].role == jobs[k].role
  }

  /** The jobs of one key wait for jobs of the same keys. */
  ghost predicate KeysWaitAlike(jobs: seq<Job>, dependencies: Graph)
  {
    forall i, k :: 0 <= i < |jobs| && 0 <= k < |jobs| && jobs[i].key == jobs[k].key ==> WaitsLike(jobs, dependencies, i, k)
  }

  ghost predicate WaitsLike(jobs: seq<Job>, dependencies: Graph, i: nat, k: nat)
    requires i < |jobs| && k < |jobs|
  {
    forall m :: 0 <= m < |jobs| && jobs[m].id in DepsOf(dependencies, jobs[i].id) ==>
      exists n :: 0 <= n < |jobs| && jobs[n].id in DepsOf(dependencies, jobs[k].id) && jobs[n].key == jobs[m].key
  }

  /** Job `i` names each dependency once, and each is another job of its problem. */
  ghost predicate WaitsForOthers(jobs: seq<Job>, dependencies: Graph, i: nat)
    requires i < |jobs|
  {
    var items := DepsOf(dependencies, jobs[i].id);
    && (forall m, n :: 0 <= m < n < |items| ==> items[m] != items[n])
    && forall m :: 0 <= m < |items| ==> exists k :: 0 <= k < |jobs| && k != i && jobs[k].id == items[m] && jobs[k].problem == jobs[i].problem
  }

  /** No job waits for itself, however indirectly. */
  ghost predicate NoCircle(dependencies: Graph)
  {
    forall w: seq<JobId> :: !Circle(dependencies, w)
  }

  ghost predicate Circle(dependencies: Graph, w: seq<JobId>)
  {
    |w| >= 2 && w[0] == w[|w| - 1] && forall i :: 0 <= i < |w| - 1 ==> w[i + 1] in DepsOf(dependencies, w[i])
  }

  ghost predicate WellFormed(jobs: seq<Job>, dependencies: Graph)
  {
    && FreshJobs(jobs) && KeysMatch(jobs) && KeysWaitAlike(jobs, dependencies) && NoCircle(dependencies)
    && (forall j :: j in dependencies ==> HasId(jobs, j))
    && forall i :: 0 <= i < |jobs| ==> WaitsForOthers(jobs, dependencies, i)
  }

  lemma FreshIff(jobs: seq<Job>)
    ensures FreshJobs(jobs) <==> UniqueIds(jobs) && AllQueued(jobs)
    ensures KeysMatch(jobs) <==> KeysAgree(jobs)
  {
    forall i, k | 0 <= i < |jobs| && 0 <= k < |jobs|
      ensures SameScope(jobs[i], jobs[k])
        <==> jobs[i].problem == jobs[k].problem && jobs[i].jobType == jobs[k].jobType && jobs[i].role == jobs[k].role
    {
    }
    hide SameScope;
  }

  lemma NormalizedIs(byId: map<JobId, Job>, dependencies: Graph, j: JobId)
    requires j in byId
    ensures j in Normalized(byId, dependencies) && Normalized(byId, dependencies)[j] == DepsOf(dependencies, j)
  {
  }

  lemma ListOkIff(jobs: seq<Job>, byId: map<JobId, Job>, dependencies: Graph, i: nat)
    requires UniqueIds(jobs) && JobsById(jobs, byId) && i < |jobs|
    ensures jobs[i].id in byId
    ensures DependencyListOk(byId, jobs[i].id, DepsOf(dependencies, jobs[i].id)) <==> WaitsForOthers(jobs, dependencies, i)
  {
    var items := DepsOf(dependencies, jobs[i].id);
    NoRepeatsIff(items);
    forall m | 0 <= m < |items|
      ensures (items[m] in byId && byId[items[m]].problem == byId[jobs[i].id].problem && items[m] != jobs[i].id)
        <==> exists k :: 0 <= k < |jobs| && k != i && jobs[k].id == items[m] && jobs[k].problem == jobs[i].problem
    {
      OtherJobIff(jobs, byId, i, items[m]);
    }
    hide DepsOf, NoRepeats, JobsById, UniqueIds;
  }

  lemma OtherJobIff(jobs: seq<Job>, byId: map<JobId, Job>, i: nat, d: JobId)
    requires UniqueIds(jobs) && JobsById(jobs, byId) && i < |jobs|
    ensures jobs[i].id in byId && byId[jobs[i].id] == jobs[i]
    ensures (d in byId && byId[d].problem == jobs[i].problem && d != jobs[i].id)
      <==> exists k :: 0 <= k < |jobs| && k != i && jobs[k].id == d && jobs[k].problem == jobs[i].problem
  {
    if d in byId {
      var k := IndexOf(jobs, byId, d);
    }
  }

  lemma CircleIff(byId: map<JobId, Job>, dependencies: Graph, w: seq<JobId>)
    requires forall j :: j in dependencies ==> j in byId
    ensures IsCycle(Normalized(byId, dependencies), w) <==> Circle(dependencies, w)
  {
    var g := Normalized(byId, dependencies);
    forall i: nat | i + 1 < |w| ensures Step(g, w, i) <==> w[i + 1] in DepsOf(dependencies, w[i]) {
      if w[i] in byId {
        NormalizedIs(byId, dependencies, w[i]);
      }
    }
    hide DepsOf, Normalized;
    if Circle(dependencies, w) {
      forall i: nat | i + 1 < |w| ensures Step(g, w, i) {
        assert w[i + 1] in DepsOf(dependencies, w[i]);
      }
    }
    if IsCycle(g, w) {
      forall i | 0 <= i < |w| - 1 ensures w[i + 1] in DepsOf(dependencies, w[i]) {
        assert i + 1 < |w| && Step(g, w, i);
      }
    }
  }

  lemma AcyclicIff(byId: map<JobId, Job>, dependencies: Graph)
    requires forall j :: j in dependencies ==> j in byId
    ensures Acyclic(Normalized(byId, dependencies)) <==> NoCircle(dependencies)
  {
    hide IsCycle, Circle, Normalized;
    forall w ensures IsCycle(Normalized(byId, dependencies), w) <==> Circle(dependencies, w) {
      CircleIff(byId, dependencies, w);
    }
  }

  lemma KnownIff(jobs: seq<Job>, byId: map<JobId, Job>, j: JobId)
    requires JobsById(jobs, byId)
    ensures j in byId <==> HasId(jobs, j)
  {
  }

  lemma DependenciesIff(jobs: seq<Job>, byId: map<JobId, Job>, dependencies: Graph)
    requires UniqueIds(jobs) && JobsById(jobs, byId)
    ensures DependenciesOk(byId, dependencies)
      <==> (forall j :: j in dependencies ==> HasId(jobs, j)) && forall i :: 0 <= i < |jobs| ==> WaitsForOthers(jobs, dependencies, i)
  {
    hide DependencyListOk, WaitsForOthers, UniqueIds, JobsById, HasId, Normalized;
    forall j ensures j in byId <==> HasId(jobs, j) {
      KnownIff(jobs, byId, j);
    }
    forall j | j in byId ensures j in Normalized(byId, dependencies) && Normalized(byId, dependencies)[j] == DepsOf(dependencies, j) {
      NormalizedIs(byId, dependencies, j);
    }
    hide DepsOf;
    forall i | 0 <= i < |jobs|
      ensures jobs[i].id in byId && (DependencyListOk(byId, jobs[i].id, DepsOf(dependencies, jobs[i].id)) <==> WaitsForOthers(jobs, dependencies, i))
    {
      ListOkIff(jobs, byId, dependencies, i);
    }
    forall j | j in byId ensures exists i :: 0 <= i < |jobs| && jobs[i].id == j {
      var i := IndexOf(jobs, byId, j);
    }
  }

  lemma KeysOfMeans(jobs: seq<Job>, byId: map<JobId, Job>, dependencies: Graph, i: nat, k: nat)
    requires JobsById(jobs, byId) && i < |jobs| && k < |jobs|
    requires forall m :: 0 <= m < |DepsOf(dependencies, jobs[i].id)| ==> DepsOf(dependencies, jobs[i].id)[m] in byId
    requires forall m :: 0 <= m < |DepsOf(dependencies, jobs[k].id)| ==> DepsOf(dependencies, jobs[k].id)[m] in byId
    ensures KeysOf(byId, DepsOf(dependencies, jobs[i].id)) <= KeysOf(byId, DepsOf(dependencies, jobs[k].id)) <==> WaitsLike(jobs, dependencies, i, k)
  {
    var a, b := DepsOf(dependencies, jobs[i].id), DepsOf(dependencies, jobs[k].id);
    hide DepsOf;
    if KeysOf(byId, a) <= KeysOf(byId, b) {
      forall m | 0 <= m < |jobs| && jobs[m].id in a
        ensures exists n :: 0 <= n < |jobs| && jobs[n].id in b && jobs[n].key == jobs[m].key
      {
        JobById(jobs, byId, m);
        assert byId[jobs[m].id].key in KeysOf(byId, a);
        var d :| d in b && d in byId && byId[d].key == jobs[m].key;
        var n := IndexOf(jobs, byId, d);
      }
    }
    if WaitsLike(jobs, dependencies, i, k) {
      forall d | d in a && d in byId ensures byId[d].key in KeysOf(byId, b) {
        var m := IndexOf(jobs, byId, d);
        var n :| 0 <= n < |jobs| && jobs[n].id in b && jobs[n].key == jobs[m].key;
        JobById(jobs, byId, n);
      }
    }
  }

  lemma AlikeIff(jobs: seq<Job>, byId: map<JobId, Job>, dependencies: Graph)
    requires JobsById(jobs, byId) && DependenciesOk(byId, dependencies)
    ensures EquivalentDependencies(byId, Normalized(byId, dependencies)) <==> KeysWaitAlike(jobs, dependencies)
  {
    hide WaitsLike, KeysOf, NoRepeats, Normalized;
    var g := Normalized(byId, dependencies);
    forall j | j in byId ensures j in g && g[j] == DepsOf(dependencies, j)
      && forall m :: 0 <= m < |DepsOf(dependencies, j)| ==> DepsOf(dependencies, j)[m] in byId
    {
      NormalizedIs(byId, dependencies, j);
      assert DependencyListOk(byId, j, g[j]);
    }
    assert g.Keys == byId.Keys by { DomainOf(byId, dependencies); }
    hide DepsOf;
    forall i, k | 0 <= i < |jobs| && 0 <= k < |jobs|
      ensures (KeysOf(byId, g[jobs[i].id]) <= KeysOf(byId, g[jobs[k].id]) <==> WaitsLike(jobs, dependencies, i, k))
    {
      JobById(jobs, byId, i);
      JobById(jobs, byId, k);
      KeysOfMeans(jobs, byId, dependencies, i, k);
    }
    EveryPair(jobs, byId, dependencies, g);
  }

  lemma DomainOf(byId: map<JobId, Job>, dependencies: Graph)
    ensures Normalized(byId, dependencies).Keys == byId.Keys
  {
  }

  lemma EveryPair(jobs: seq<Job>, byId: map<JobId, Job>, dependencies: Graph, g: Graph)
    requires JobsById(jobs, byId) && g.Keys == byId.Keys
    requires forall i, k :: 0 <= i < |jobs| && 0 <= k < |jobs| && jobs[i].id in g && jobs[k].id in g ==>
      (KeysOf(byId, g[jobs[i].id]) <= KeysOf(byId, g[jobs[k].id]) <==> WaitsLike(jobs, dependencies, i, k))
    ensures EquivalentDependencies(byId, g) <==> KeysWaitAlike(jobs, dependencies)
  {
    hide WaitsLike, KeysOf;
    if KeysWaitAlike(jobs, dependencies) {
      forall j, k | j in g && k in g && byId[j].key == byId[k].key ensures KeysOf(byId, g[j]) == KeysOf(byId, g[k]) {
        var m := IndexOf(jobs, byId, j);
        var n := IndexOf(jobs, byId, k);
        assert WaitsLike(jobs, dependencies, m, n) && WaitsLike(jobs, dependencies, n, m);
      }
    }
    if EquivalentDependencies(byId, g) {
      forall i, k | 0 <= i < |jobs| && 0 <= k < |jobs| && jobs[i].key == jobs[k].key ensures WaitsLike(jobs, dependencies, i, k) {
        JobById(jobs, byId, i);
        JobById(jobs, byId, k);
      }
    }
  }

  function ById(jobs: seq<Job>): map<JobId, Job>
  {
    if jobs == [] then map[] else ById(jobs[..|jobs| - 1])[jobs[|jobs| - 1].id := jobs[|jobs| - 1]]
  }

  lemma {:induction false} ByIdHolds(jobs: seq<Job>)
    requires UniqueIds(jobs)
    ensures JobsById(jobs, ById(jobs))
  {
    if jobs != [] {
      var n := |jobs| - 1;
      LastIsNew(jobs);
      ByIdHolds(jobs[..n]);
      forall i | 0 <= i < |jobs| ensures jobs[i].id in ById(jobs) && ById(jobs)[jobs[i].id] == jobs[i] {
        if i < n {
          assert jobs[..n][i] == jobs[i];
          assert HasId(jobs[..n], jobs[i].id);
        }
      }
      forall j | j in ById(jobs) ensures HasId(jobs, j) {
        if j == jobs[n].id {
          assert jobs[n].id == j;
        } else {
          assert HasId(jobs[..n], j);
          var i :| 0 <= i < n && jobs[..n][i].id == j;
          assert jobs[i].id == j;
        }
      }
    }
  }

  /** Exactly which inputs are accepted. */
  lemma AcceptedIff(jobs: seq<Job>, dependencies: Graph)
    ensures Accepted(jobs, dependencies) <==> WellFormed(jobs, dependencies)
  {
    hide FreshJobs, KeysMatch, KeysWaitAlike, NoCircle, WaitsForOthers, UniqueIds, AllQueued, KeysAgree, DependenciesOk, Acyclic, EquivalentDependencies, Normalized, HasId, JobsById;
    FreshIff(jobs);
    if UniqueIds(jobs) {
      var byId := ById(jobs);
      ByIdHolds(jobs);
      AcceptedMeans(jobs, dependencies, byId);
      DependenciesIff(jobs, byId, dependencies);
      if DependenciesOk(byId, dependencies) {
        KnownDependencies(byId, dependencies);
        AcyclicIff(byId, dependencies);
        AlikeIff(jobs, byId, dependencies);
      }
      hide Accepted;
    }
  }

  lemma KnownDependencies(byId: map<JobId, Job>, dependencies: Graph)
    requires DependenciesOk(byId, dependencies)
    ensures forall j :: j in dependencies ==> j in byId
  {
    hide DependencyListOk;
  }

  // ---------------------------------------------------------------- what is run

  /** The job that stands for a key: the first of it in dispatch order. */
  ghost predicate StandsFor(jobs: seq<Job>, i: nat, k: nat)
    requires i < |jobs| && k < |jobs|
  {
    && jobs[k].key == jobs[i].key
    && forall m :: 0 <= m < |jobs| && jobs[m].key == jobs[i].key ==> jobs[m] == jobs[k] || ComesFirst(jobs[k], jobs[m])
  }

  /** More urgent, or as urgent and queued earlier, or both alike with the lesser identifier. */
  predicate ComesFirst(a: JobFields, b: JobFields)
  {
    || MoreUrgent(a.priority, b.priority)
    || (a.priority == b.priority && a.queuedAt < b.queuedAt)
    || (a.priority == b.priority && a.queuedAt == b.queuedAt && a.id < b.id)
  }

  /** The job waits for the jobs that stand for what it was told to wait for. */
  ghost predicate MergedWaits(dependencies: Graph, p: Plan, c: Config, j: JobId)
  {
    j in c.deps && forall d :: d in c.deps[j] <==> (exists e :: e in DepsOf(dependencies, j) && e in p.canon && d == p.canon[e])
  }

  /** The jobs run are those that stand for their key, as they were given, and each waits for the jobs
      that stand for what it was told to wait for. */
  lemma PlanMeans(jobs: seq<Job>, dependencies: Graph, p: Plan, c: Config)
    requires Planned(jobs, dependencies, p) && c == ConfigOf(jobs, dependencies, p, c.limits, c.cancelled, c.paused)
    ensures forall i :: 0 <= i < |jobs| ==> HasStandIn(jobs, p, i)
    ensures forall j :: j in c.jobs <==> exists i :: 0 <= i < |jobs| && jobs[i].id == j && StandsIn(jobs, p, i, i)
    ensures forall i :: 0 <= i < |jobs| && jobs[i].id in c.jobs ==> c.jobs[jobs[i].id] == jobs[i]
    ensures forall j :: j in c.jobs ==> MergedWaits(dependencies, p, c, j)
  {
    hide UniqueIds, JobsById, CanonicalMap, Acyclic, IsRepresentative, StandsIn, HasId, CanonicalIds;
    PlannedIds(jobs, dependencies, p);
    forall i | 0 <= i < |jobs| ensures HasStandIn(jobs, p, i) {
      var k := StandIn(jobs, p, i);
    }
    forall i | 0 <= i < |jobs| ensures (jobs[i].id in c.jobs <==> StandsIn(jobs, p, i, i))
                                    && (jobs[i].id in c.jobs ==> c.jobs[jobs[i].id] == jobs[i]) {
      JobById(jobs, p.byId, i);
      StandsItself(jobs, p, i);
    }
    forall j | j in c.jobs ensures exists i :: 0 <= i < |jobs| && jobs[i].id == j {
      var i := IndexOf(jobs, p.byId, j);
    }
    forall j | j in c.jobs ensures MergedWaits(dependencies, p, c, j) {
      MergedMeans(dependencies, p, c, j);
    }
  }

  lemma MergedMeans(dependencies: Graph, p: Plan, c: Config, j: JobId)
    requires p.deps == Normalized(p.byId, dependencies) && Closed(p.deps) && IsRepresentative(p.deps, p.canon)
    requires c.deps == Merged(p.deps, p.canon) && j in p.byId && j in p.canon && p.canon[j] == j
    ensures MergedWaits(dependencies, p, c, j)
  {
    NormalizedIs(p.byId, dependencies, j);
    var items := p.deps[j];
    assert c.deps[j] == Renamed(items, p.canon);
    assert forall i :: 0 <= i < |items| ==> items[i] in p.deps && items[i] in p.canon;
    hide DepsOf, Normalized, Merged, Closed, IsRepresentative;
    forall d ensures d in c.deps[j] <==> exists e :: e in items && e in p.canon && d == p.canon[e] {
      if d in c.deps[j] {
        var i :| 0 <= i < |items| && c.deps[j][i] == d;
        assert items[i] in items;
      }
      if e :| e in items && e in p.canon && d == p.canon[e] {
        var i :| 0 <= i < |items| && items[i] == e;
        assert c.deps[j][i] == d;
      }
    }
  }

  ghost predicate HasStandIn(jobs: seq<Job>, p: Plan, i: nat)
    requires i < |jobs|
  {
    exists k :: 0 <= k < |jobs| && StandsIn(jobs, p, i, k)
  }

  ghost predicate StandsIn(jobs: seq<Job>, p: Plan, i: nat, k: nat)
    requires i < |jobs| && k < |jobs|
  {
    jobs[i].id in p.canon && p.canon[jobs[i].id] == jobs[k].id && StandsFor(jobs, i, k)
  }

  lemma StandIn(jobs: seq<Job>, p: Plan, i: nat) returns (k: nat)
    requires CanonicalMap(jobs, p.canon) && i < |jobs|
    ensures k < |jobs| && StandsIn(jobs, p, i, k)
  {
    k := Representative(jobs, p.canon, i);
    hide CanonicalMap;
    forall m | 0 <= m < |jobs| && jobs[m].key == jobs[i].key ensures jobs[m] == jobs[k] || ComesFirst(jobs[k], jobs[m]) {
      BeforeMeans(jobs[k], jobs[m]);
    }
  }

  lemma StandsItself(jobs: seq<Job>, p: Plan, i: nat)
    requires CanonicalMap(jobs, p.canon) && UniqueIds(jobs) && i < |jobs|
    ensures jobs[i].id in p.canon && (p.canon[jobs[i].id] == jobs[i].id <==> StandsIn(jobs, p, i, i))
  {
    var k := StandIn(jobs, p, i);
    if p.canon[jobs[i].id] == jobs[i].id {
      assert k == i;
    }
  }
}
