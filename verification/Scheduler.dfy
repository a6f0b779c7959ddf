/** Admission, deduplication and reporting around the main loop
    (src/scan_tool/application/scheduler.py:193-355, 365-431). */
module Scheduler {
  import opened Basics
  import opened DependencyGraph
  import opened SchedulerModel
  import opened SchedulerSteps
  import opened SchedulerPass
  import opened SchedulerRun

  datatype Error =
    | DuplicateJobId | NotQueued | UnknownJob | RepeatedDependency | UnknownDependency
    | CrossProblem | SelfDependency | Cycle | KeyCollision | UnlikeDuplicates

  datatype Result<T> = Ok(value: T) | Err(error: Error)

  datatype Execution = Execution(results: seq<JobResult>, order: seq<JobId>, maxima: Maxima)

  // ---------------------------------------------------------------- jobs

  ghost predicate JobsById(jobs: seq<Job>, byId: map<JobId, Job>)
  {
    && (forall i :: 0 <= i < |jobs| ==> jobs[i].id in byId && byId[jobs[i].id] == jobs[i])
    && (forall j :: j in byId ==> HasId(jobs, j))
  }

  ghost predicate AllQueued(jobs: seq<Job>)
  {
    forall i :: 0 <= i < |jobs| ==> jobs[i].status == Queued
  }

  function IdsOf(jobs: seq<Job>): set<JobId>
  {
    if jobs == [] then {} else IdsOf(jobs[..|jobs| - 1]) + {jobs[|jobs| - 1].id}
  }

  ghost predicate HasId(jobs: seq<Job>, j: JobId)
  {
    exists i :: 0 <= i < |jobs| && jobs[i].id == j
  }

  lemma {:induction false} IdsListed(jobs: seq<Job>, j: JobId)
    ensures j in IdsOf(jobs) <==> HasId(jobs, j)
  {
    if jobs != [] {
      var n := |jobs| - 1;
      var front := jobs[..n];
      IdsListed(front, j);
      if HasId(front, j) {
        var i :| 0 <= i < |front| && front[i].id == j;
        assert jobs[i].id == j;
      }
      if HasId(jobs, j) {
        var i :| 0 <= i < |jobs| && jobs[i].id == j;
        assert i < n ==> front[i].id == j;
      }
    }
  }

  lemma LastIsNew(jobs: seq<Job>)
    requires jobs != []
    ensures UniqueIds(jobs) <==> UniqueIds(jobs[..|jobs| - 1]) && !HasId(jobs[..|jobs| - 1], jobs[|jobs| - 1].id)
  {
    var n := |jobs| - 1;
    var front := jobs[..n];
    assert forall i :: 0 <= i < n ==> front[i] == jobs[i];
    if UniqueIds(front) && !HasId(front, jobs[n].id) {
      forall i, k | 0 <= i < k < |jobs| ensures jobs[i].id != jobs[k].id {
        assert front[i].id == jobs[i].id;
      }
    }
  }

  lemma {:induction false} IdsCount(jobs: seq<Job>)
    ensures |IdsOf(jobs)| <= |jobs| && (|IdsOf(jobs)| == |jobs| <==> UniqueIds(jobs))
  {
    if jobs != [] {
      hide UniqueIds, HasId;
      var n := |jobs| - 1;
      IdsCount(jobs[..n]);
      IdsListed(jobs[..n], jobs[n].id);
      LastIsNew(jobs);
    }
  }

  method ValidateJobs(jobs: seq<Job>) returns (r: Result<map<JobId, Job>>)
    ensures r.Ok? <==> UniqueIds(jobs) && AllQueued(jobs)
    ensures r.Ok? ==> JobsById(jobs, r.value)
    ensures !UniqueIds(jobs) ==> r == Err(DuplicateJobId)
  {
    hide UniqueIds, HasId;
    var byId: map<JobId, Job> := map[];
    var queued := true;
    for n := 0 to |jobs|
      invariant byId.Keys == IdsOf(jobs[..n])
      invariant forall i :: 0 <= i < n ==> jobs[i].id in byId
      invariant UniqueIds(jobs) ==> forall i :: 0 <= i < n ==> byId[jobs[i].id] == jobs[i]
      invariant queued <==> forall i :: 0 <= i < n ==> jobs[i].status == Queued
    {
      queued := queued && jobs[n].status == Queued;
      assert jobs[..n + 1][..n] == jobs[..n];
      EarlierIdsDiffer(jobs, n);
      byId := byId[jobs[n].id := jobs[n]];
    }
    assert jobs[..|jobs|] == jobs;
    IdsCount(jobs);
    IdsAreListed(jobs);
    assert |byId| == |byId.Keys|;
    if |byId| != |jobs| {
      return Err(DuplicateJobId);
    }
    if !queued {
      return Err(NotQueued);
    }
    return Ok(byId);
  }

  lemma IdsAreListed(jobs: seq<Job>)
    ensures forall j :: j in IdsOf(jobs) ==> HasId(jobs, j)
  {
    forall j | j in IdsOf(jobs) ensures HasId(jobs, j) { IdsListed(jobs, j); }
  }

  lemma EarlierIdsDiffer(jobs: seq<Job>, n: nat)
    requires n < |jobs|
    ensures UniqueIds(jobs) ==> forall i :: 0 <= i < n ==> jobs[i].id != jobs[n].id
  {
  }

  // ---------------------------------------------------------------- dependencies

  function Normalized(byId: map<JobId, Job>, dependencies: Graph): Graph
  {
    map j | j in byId :: if j in dependencies then dependencies[j] else []
  }

  ghost predicate DependencyListOk(byId: map<JobId, Job>, j: JobId, items: seq<JobId>)
    requires j in byId
  {
    && NoRepeats(items)
    && forall i :: 0 <= i < |items| ==> items[i] in byId && byId[items[i]].problem == byId[j].problem && items[i] != j
  }

  ghost predicate DependenciesOk(byId: map<JobId, Job>, dependencies: Graph)
  {
    && (forall j :: j in dependencies ==> j in byId)
    && (forall j :: j in byId ==> DependencyListOk(byId, j, Normalized(byId, dependencies)[j]))
  }

  lemma {:induction false} SizeTellsRepeats(items: seq<JobId>)
    ensures |Elements(items)| <= |items|
    ensures |Elements(items)| == |items| <==> NoRepeats(items)
  {
    if items == [] {
      assert Elements(items) == {};
    } else {
      SizeTellsRepeats(items[1..]);
      assert Elements(items) == Elements(items[1..]) + {items[0]};
    }
  }

  method CheckDependencyList(byId: map<JobId, Job>, j: JobId, items: seq<JobId>) returns (e: Option<Error>)
    requires j in byId
    ensures e.None? <==> DependencyListOk(byId, j, items)
    ensures e != Some(Cycle)
  {
    SizeTellsRepeats(items);
    if |items| != |Elements(items)| {
      return Some(RepeatedDependency);
    }
    for n := 0 to |items|
      invariant forall i :: 0 <= i < n ==> items[i] in byId && byId[items[i]].problem == byId[j].problem && items[i] != j
    {
      if items[n] !in byId {
        return Some(UnknownDependency);
      }
      if byId[items[n]].problem != byId[j].problem {
        return Some(CrossProblem);
      }
      if items[n] == j {
        return Some(SelfDependency);
      }
    }
    return None;
  }

  method NormalizeDependencies(jobs: seq<Job>, byId: map<JobId, Job>, dependencies: Graph) returns (r: Result<Graph>)
    requires JobsById(jobs, byId)
    ensures r.Ok? <==> DependenciesOk(byId, dependencies)
    ensures r.Ok? ==> r.value == Normalized(byId, dependencies)
    ensures r != Err(Cycle)
  {
    hide DependencyListOk, NoRepeats, DependenciesOk, Checked, Normalized;
    var unknown := dependencies.Keys - byId.Keys;
    if unknown != {} {
      var j := AnyOf(unknown);
      UnknownRefuses(byId, dependencies, j);
      return Err(UnknownJob);
    }
    assert forall j :: j in dependencies && j !in byId ==> j in unknown;
    var g: Graph := map[];
    for n := 0 to |jobs|
      invariant forall i :: 0 <= i < n ==> jobs[i].id in g
      invariant forall j :: j in g ==> j in byId && Checked(byId, dependencies, j, g[j])
    {
      var j := jobs[n].id;
      var items := if j in dependencies then dependencies[j] else [];
      JobById(jobs, byId, n);
      var e := CheckDependencyList(byId, j, items);
      CheckedIff(byId, dependencies, j, items);
      if e.Some? {
        return Err(e.value);
      }
      g := g[j := items];
    }
    AllNormalized(jobs, byId, dependencies, g);
    return Ok(g);
  }

  /** One job's list, as the dependency map has it, is in order. */
  ghost predicate Checked(byId: map<JobId, Job>, dependencies: Graph, j: JobId, items: seq<JobId>)
    requires j in byId
  {
    items == (if j in dependencies then dependencies[j] else []) && DependencyListOk(byId, j, items)
  }

  lemma UnknownRefuses(byId: map<JobId, Job>, dependencies: Graph, j: JobId)
    requires j in dependencies && j !in byId
    ensures !DependenciesOk(byId, dependencies)
  {
  }

  lemma CheckedIff(byId: map<JobId, Job>, dependencies: Graph, j: JobId, items: seq<JobId>)
    requires j in byId && items == if j in dependencies then dependencies[j] else []
    ensures Checked(byId, dependencies, j, items) <==> DependencyListOk(byId, j, items)
    ensures !DependencyListOk(byId, j, items) ==> !DependenciesOk(byId, dependencies)
  {
    assert items == Normalized(byId, dependencies)[j];
    hide DependencyListOk;
  }

  lemma AllNormalized(jobs: seq<Job>, byId: map<JobId, Job>, dependencies: Graph, g: Graph)
    requires JobsById(jobs, byId) && forall j :: j in dependencies ==> j in byId
    requires forall i :: 0 <= i < |jobs| ==> jobs[i].id in g
    requires forall j :: j in g ==> j in byId && Checked(byId, dependencies, j, g[j])
    ensures g == Normalized(byId, dependencies) && DependenciesOk(byId, dependencies)
  {
    hide DependencyListOk;
    var full := Normalized(byId, dependencies);
    forall j | j in full ensures j in g && g[j] == full[j] && DependencyListOk(byId, j, full[j]) {
      assert HasId(jobs, j);
      assert Checked(byId, dependencies, j, g[j]);
    }
    assert g.Keys == full.Keys;
  }

  method ValidateDependencies(jobs: seq<Job>, byId: map<JobId, Job>, dependencies: Graph) returns (r: Result<Graph>)
    requires JobsById(jobs, byId)
    ensures r.Ok? <==> DependenciesOk(byId, dependencies) && Acyclic(Normalized(byId, dependencies))
    ensures r.Ok? ==> r.value == Normalized(byId, dependencies) && Closed(r.value)
    ensures r == Err(Cycle) <==> DependenciesOk(byId, dependencies) && !Acyclic(Normalized(byId, dependencies))
  {
    hide Acyclic;
    r := NormalizeDependencies(jobs, byId, dependencies);
    if r.Ok? {
      NormalizedClosed(byId, dependencies);
      hide DependenciesOk;
      var ok := RequireAcyclic(r.value);
      if !ok {
        return Err(Cycle);
      }
    }
  }

  lemma NormalizedClosed(byId: map<JobId, Job>, dependencies: Graph)
    requires DependenciesOk(byId, dependencies)
    ensures Closed(Normalized(byId, dependencies))
  {
    var g := Normalized(byId, dependencies);
    forall j, i | j in g && 0 <= i < |g[j]| ensures g[j][i] in g {
      assert DependencyListOk(byId, j, g[j]);
    }
  }

  // ---------------------------------------------------------------- duplicates

  predicate SameScope(a: Job, b: Job)
  {
    a.problem == b.problem && a.jobType == b.jobType && a.role == b.role
  }

  /** Jobs that share an idempotency key share their scope. */
  ghost predicate KeysAgree(jobs: seq<Job>)
  {
    forall i, k :: 0 <= i < |jobs| && 0 <= k < |jobs| && jobs[i].key == jobs[k].key ==> SameScope(jobs[i], jobs[k])
  }

  /** `first` is the job with its key that comes first in dispatch order. */
  ghost predicate FirstOfKey(jobs: seq<Job>, first: Job)
  {
    && (exists i :: 0 <= i < |jobs| && jobs[i] == first)
    && (forall k :: 0 <= k < |jobs| && jobs[k].key == first.key ==> jobs[k] == first || Before(first, jobs[k]))
  }

  /** Every job is represented by the first job with its key. */
  ghost predicate CanonicalMap(jobs: seq<Job>, canon: map<JobId, JobId>)
  {
    && (forall j :: j in canon ==> HasId(jobs, j))
    && (forall i :: 0 <= i < |jobs| ==> Represented(jobs, canon, jobs[i]))
  }

  ghost predicate Represented(jobs: seq<Job>, canon: map<JobId, JobId>, a: Job)
  {
    a.id in canon && exists b :: FirstOfKey(jobs, b) && b.key == a.key && b.id == canon[a.id]
  }

  method DeduplicationMap(jobs: seq<Job>) returns (r: Result<map<JobId, JobId>>)
    requires UniqueIds(jobs)
    ensures r.Ok? <==> KeysAgree(jobs)
    ensures r.Ok? ==> CanonicalMap(jobs, r.value)
    ensures r.Err? ==> r.error == KeyCollision
  {
    hide KeysAgree, UniqueIds, CanonicalMap, KeyTable, IdTable;
    var s := Sorted(jobs);
    var byKey: map<nat, Job> := map[];
    var canon: map<JobId, JobId> := map[];
    EmptyTables(jobs, s);
    for n := 0 to |s|
      invariant KeyTable(jobs, s, n, byKey) && IdTable(s, n, byKey, canon)
    {
      var job := s[n];
      if job.key !in byKey {
        NewKey(jobs, s, n, byKey, canon);
        byKey := byKey[job.key := job];
      } else {
        var first := byKey[job.key];
        if first.problem != job.problem || first.jobType != job.jobType || first.role != job.role {
          KeyClash(jobs, s, n, byKey);
          return Err(KeyCollision);
        }
        SeenKey(jobs, s, n, byKey);
      }
      NewId(jobs, s, n, byKey, canon);
      canon := canon[job.id := byKey[job.key].id];
    }
    TablesComplete(jobs, s, byKey, canon);
    return Ok(canon);
  }

  /** What the loop of the source knows after `n` jobs: the first job of every key seen. */
  ghost predicate KeyTable(jobs: seq<Job>, s: seq<Job>, n: nat, byKey: map<nat, Job>)
  {
    && n <= |s|
    && (forall k :: k in byKey ==> byKey[k].key == k && FirstOfKey(jobs, byKey[k]))
    && (forall i :: 0 <= i < n ==> s[i].key in byKey && SameScope(byKey[s[i].key], s[i]))
  }

  ghost predicate IdTable(s: seq<Job>, n: nat, byKey: map<nat, Job>, canon: map<JobId, JobId>)
  {
    && n <= |s|
    && (forall i :: 0 <= i < n ==> s[i].key in byKey && s[i].id in canon && canon[s[i].id] == byKey[s[i].key].id)
    && (forall j :: j in canon ==> exists i :: 0 <= i < n && s[i].id == j)
  }

  lemma EmptyTables(jobs: seq<Job>, s: seq<Job>)
    ensures KeyTable(jobs, s, 0, map[]) && IdTable(s, 0, map[], map[])
  {
  }

  lemma NewKey(jobs: seq<Job>, s: seq<Job>, n: nat, byKey: map<nat, Job>, canon: map<JobId, JobId>)
    requires KeyTable(jobs, s, n, byKey) && IdTable(s, n, byKey, canon)
    requires SortedJobs(s) && multiset(s) == multiset(jobs) && n < |s| && s[n].key !in byKey
    ensures KeyTable(jobs, s, n + 1, byKey[s[n].key := s[n]])
    ensures IdTable(s, n, byKey[s[n].key := s[n]], canon)
  {
    hide FirstOfKey;
    SameMembers(jobs, s);
    FirstSeen(jobs, s, n);
  }

  lemma SeenKey(jobs: seq<Job>, s: seq<Job>, n: nat, byKey: map<nat, Job>)
    requires KeyTable(jobs, s, n, byKey) && n < |s| && s[n].key in byKey && SameScope(byKey[s[n].key], s[n])
    ensures KeyTable(jobs, s, n + 1, byKey)
  {
    hide FirstOfKey;
  }

  lemma KeyClash(jobs: seq<Job>, s: seq<Job>, n: nat, byKey: map<nat, Job>)
    requires KeyTable(jobs, s, n, byKey) && multiset(s) == multiset(jobs) && n < |s|
    requires s[n].key in byKey && !SameScope(byKey[s[n].key], s[n])
    ensures !KeysAgree(jobs)
  {
    SameMembers(jobs, s);
    assert s[n] in jobs;
    assert FirstOfKey(jobs, byKey[s[n].key]);
    ClashingPair(jobs, byKey[s[n].key], s[n]);
  }

  lemma NewId(jobs: seq<Job>, s: seq<Job>, n: nat, byKey: map<nat, Job>, canon: map<JobId, JobId>)
    requires UniqueIds(jobs) && SortedJobs(s) && multiset(s) == multiset(jobs)
    requires IdTable(s, n, byKey, canon) && n < |s| && s[n].key in byKey
    ensures IdTable(s, n + 1, byKey, canon[s[n].id := byKey[s[n].key].id])
  {
    SameMembers(jobs, s);
    SortedIdsDiffer(jobs, s, n);
  }

  lemma TablesComplete(jobs: seq<Job>, s: seq<Job>, byKey: map<nat, Job>, canon: map<JobId, JobId>)
    requires KeyTable(jobs, s, |s|, byKey) && IdTable(s, |s|, byKey, canon) && multiset(s) == multiset(jobs)
    ensures KeysAgree(jobs) && CanonicalMap(jobs, canon)
  {
    SameMembers(jobs, s);
    hide FirstOfKey, SameScope, CanonicalMap, KeysAgree;
    AllAgree(jobs, s, byKey);
    CanonicalFromKeys(jobs, s, byKey, canon);
  }

  lemma CanonicalFromKeys(jobs: seq<Job>, s: seq<Job>, byKey: map<nat, Job>, canon: map<JobId, JobId>)
    requires forall a :: a in jobs <==> a in s
    requires forall k :: k in byKey ==> byKey[k].key == k && FirstOfKey(jobs, byKey[k])
    requires forall i :: 0 <= i < |s| ==> s[i].key in byKey && s[i].id in canon && canon[s[i].id] == byKey[s[i].key].id
    requires forall j :: j in canon ==> exists i :: 0 <= i < |s| && s[i].id == j
    ensures CanonicalMap(jobs, canon)
  {
    hide FirstOfKey;
    forall i | 0 <= i < |jobs| ensures Represented(jobs, canon, jobs[i]) {
      assert jobs[i] in s;
      assert FirstOfKey(jobs, byKey[jobs[i].key]);
    }
    forall j | j in canon ensures HasId(jobs, j) {
      var i :| 0 <= i < |s| && s[i].id == j;
      assert s[i] in jobs;
    }
  }

  lemma SortedIdsDiffer(jobs: seq<Job>, s: seq<Job>, n: nat)
    requires UniqueIds(jobs) && SortedJobs(s) && n < |s| && forall a :: a in jobs <==> a in s
    ensures forall i :: 0 <= i < n ==> s[i].id != s[n].id
  {
    forall i | 0 <= i < n ensures s[i].id != s[n].id {
      assert Before(s[i], s[n]);
      DifferentIds(jobs, s[i], s[n]);
    }
  }

  lemma SameMembers(jobs: seq<Job>, s: seq<Job>)
    requires multiset(s) == multiset(jobs)
    ensures forall a :: a in jobs <==> a in s
  {
    forall a ensures a in jobs <==> a in s {
      assert a in multiset(jobs) <==> a in jobs;
      assert a in multiset(s) <==> a in s;
    }
  }

  lemma DifferentIds(jobs: seq<Job>, a: Job, b: Job)
    requires UniqueIds(jobs) && a in jobs && b in jobs && Before(a, b)
    ensures a.id != b.id
  {
    var i :| 0 <= i < |jobs| && jobs[i] == a;
    var k :| 0 <= k < |jobs| && jobs[k] == b;
  }

  lemma FirstSeen(jobs: seq<Job>, s: seq<Job>, n: nat)
    requires SortedJobs(s) && n < |s| && forall a :: a in jobs <==> a in s
    requires forall i :: 0 <= i < n ==> s[i].key != s[n].key
    ensures FirstOfKey(jobs, s[n])
  {
    assert s[n] in jobs;
    forall i | 0 <= i < |jobs| && jobs[i].key == s[n].key ensures jobs[i] == s[n] || Before(s[n], jobs[i]) {
      assert jobs[i] in s;
      var k :| 0 <= k < |s| && s[k] == jobs[i];
    }
  }

  lemma ClashingPair(jobs: seq<Job>, a: Job, b: Job)
    requires a in jobs && b in jobs && a.key == b.key && !SameScope(a, b)
    ensures !KeysAgree(jobs)
  {
    var i :| 0 <= i < |jobs| && jobs[i] == a;
    var k :| 0 <= k < |jobs| && jobs[k] == b;
  }

  lemma AllAgree(jobs: seq<Job>, s: seq<Job>, byKey: map<nat, Job>)
    requires forall a :: a in jobs <==> a in s
    requires forall i :: 0 <= i < |s| ==> s[i].key in byKey && SameScope(byKey[s[i].key], s[i])
    ensures KeysAgree(jobs)
  {
    forall i, k | 0 <= i < |jobs| && 0 <= k < |jobs| && jobs[i].key == jobs[k].key
      ensures SameScope(jobs[i], jobs[k])
    {
      assert jobs[i] in s && jobs[k] in s;
    }
  }

  lemma CanonicalJob(jobs: seq<Job>, byId: map<JobId, Job>, canon: map<JobId, JobId>, j: JobId)
    requires JobsById(jobs, byId) && CanonicalMap(jobs, canon) && j in byId
    ensures j in canon && canon[j] in byId && byId[canon[j]].id == canon[j]
    ensures byId[canon[j]].key == byId[j].key && FirstOfKey(jobs, byId[canon[j]])
  {
    hide JobsById, CanonicalMap, FirstOfKey;
    var i := IndexOf(jobs, byId, j);
    var k := Representative(jobs, canon, i);
    JobById(jobs, byId, k);
  }

  lemma IndexOf(jobs: seq<Job>, byId: map<JobId, Job>, j: JobId) returns (i: nat)
    requires JobsById(jobs, byId) && j in byId
    ensures i < |jobs| && jobs[i].id == j && byId[j] == jobs[i]
  {
    assert HasId(jobs, j);
    i :| 0 <= i < |jobs| && jobs[i].id == j;
  }

  lemma MapRepresents(jobs: seq<Job>, canon: map<JobId, JobId>, i: nat)
    requires CanonicalMap(jobs, canon) && i < |jobs|
    ensures Represented(jobs, canon, jobs[i])
  {
    hide Represented;
  }

  lemma Representative(jobs: seq<Job>, canon: map<JobId, JobId>, i: nat) returns (k: nat)
    requires CanonicalMap(jobs, canon) && i < |jobs|
    ensures jobs[i].id in canon
    ensures k < |jobs| && FirstOfKey(jobs, jobs[k]) && jobs[k].key == jobs[i].key && jobs[k].id == canon[jobs[i].id]
  {
    MapRepresents(jobs, canon, i);
    hide CanonicalMap;
    var b :| FirstOfKey(jobs, b) && b.key == jobs[i].key && b.id == canon[jobs[i].id];
    k :| 0 <= k < |jobs| && jobs[k] == b;
  }

  lemma JobById(jobs: seq<Job>, byId: map<JobId, Job>, k: nat)
    requires JobsById(jobs, byId) && k < |jobs|
    ensures jobs[k].id in byId && byId[jobs[k].id] == jobs[k]
  {
  }

  lemma FirstIsUnique(jobs: seq<Job>, a: Job, b: Job)
    requires FirstOfKey(jobs, a) && FirstOfKey(jobs, b) && a.key == b.key
    ensures a == b
  {
    assert a == b || (Before(a, b) && Before(b, a));
  }

  lemma CanonicalByKey(jobs: seq<Job>, byId: map<JobId, Job>, canon: map<JobId, JobId>, j: JobId, k: JobId)
    requires JobsById(jobs, byId) && CanonicalMap(jobs, canon) && j in byId && k in byId
    ensures j in canon && k in canon && (canon[j] == canon[k] <==> byId[j].key == byId[k].key)
  {
    hide JobsById, CanonicalMap, FirstOfKey;
    CanonicalJob(jobs, byId, canon, j);
    CanonicalJob(jobs, byId, canon, k);
    if byId[j].key == byId[k].key {
      FirstIsUnique(jobs, byId[canon[j]], byId[canon[k]]);
    }
  }

  ghost predicate SameKeySameJob(byId: map<JobId, Job>, canon: map<JobId, JobId>)
    requires canon.Keys == byId.Keys
  {
    forall j, k :: j in canon && k in canon ==> (canon[j] == canon[k] <==> byId[j].key == byId[k].key)
  }

  lemma CanonicalKeys(jobs: seq<Job>, byId: map<JobId, Job>, canon: map<JobId, JobId>)
    requires JobsById(jobs, byId) && CanonicalMap(jobs, canon)
    ensures canon.Keys == byId.Keys
  {
    hide Represented;
    forall j | j in canon ensures j in byId {
      assert HasId(jobs, j);
    }
    hide JobsById, CanonicalMap;
    forall j | j in byId ensures j in canon {
      CanonicalJob(jobs, byId, canon, j);
    }
  }

  lemma CanonicalIsIdempotent(jobs: seq<Job>, byId: map<JobId, Job>, canon: map<JobId, JobId>, j: JobId)
    requires JobsById(jobs, byId) && CanonicalMap(jobs, canon) && j in byId
    ensures j in canon && canon[j] in canon && canon[canon[j]] == canon[j]
  {
    hide JobsById, CanonicalMap, FirstOfKey;
    CanonicalJob(jobs, byId, canon, j);
    CanonicalByKey(jobs, byId, canon, j, canon[j]);
  }

  lemma CanonicalRepresents(jobs: seq<Job>, byId: map<JobId, Job>, g: Graph, canon: map<JobId, JobId>)
    requires JobsById(jobs, byId) && CanonicalMap(jobs, canon) && g.Keys == byId.Keys
    ensures IsRepresentative(g, canon)
  {
    hide JobsById, CanonicalMap;
    CanonicalKeys(jobs, byId, canon);
    forall j | j in canon ensures canon[j] in canon && canon[canon[j]] == canon[j] {
      CanonicalIsIdempotent(jobs, byId, canon, j);
    }
  }

  lemma CanonicalMatchesKeys(jobs: seq<Job>, byId: map<JobId, Job>, canon: map<JobId, JobId>)
    requires JobsById(jobs, byId) && CanonicalMap(jobs, canon) && canon.Keys == byId.Keys
    ensures SameKeySameJob(byId, canon)
  {
    hide JobsById, CanonicalMap;
    forall j, k | j in canon && k in canon ensures canon[j] == canon[k] <==> byId[j].key == byId[k].key {
      CanonicalByKey(jobs, byId, canon, j, k);
    }
  }

  function KeysOf(byId: map<JobId, Job>, items: seq<JobId>): set<nat>
  {
    set d | d in items && d in byId :: byId[d].key
  }

  /** Jobs that share a key depend on jobs with the same keys. */
  ghost predicate EquivalentDependencies(byId: map<JobId, Job>, g: Graph)
    requires g.Keys == byId.Keys
  {
    forall j, k :: j in g && k in g && byId[j].key == byId[k].key ==> KeysOf(byId, g[j]) == KeysOf(byId, g[k])
  }

  lemma SameKeysSameRepresentatives(byId: map<JobId, Job>, g: Graph, canon: map<JobId, JobId>, j: JobId, k: JobId)
    requires g.Keys == byId.Keys && Closed(g) && IsRepresentative(g, canon) && j in g && k in g
    requires SameKeySameJob(byId, canon)
    ensures Elements(Renamed(g[j], canon)) == Elements(Renamed(g[k], canon)) <==> KeysOf(byId, g[j]) == KeysOf(byId, g[k])
  {
    RepresentativesCover(byId, g, canon, j, k);
    RepresentativesCover(byId, g, canon, k, j);
  }

  lemma RepresentativesCover(byId: map<JobId, Job>, g: Graph, canon: map<JobId, JobId>, j: JobId, k: JobId)
    requires g.Keys == byId.Keys && Closed(g) && IsRepresentative(g, canon) && j in g && k in g
    requires SameKeySameJob(byId, canon)
    ensures Elements(Renamed(g[j], canon)) <= Elements(Renamed(g[k], canon)) <==> KeysOf(byId, g[j]) <= KeysOf(byId, g[k])
  {
    var x, y := Renamed(g[j], canon), Renamed(g[k], canon);
    if Elements(x) <= Elements(y) {
      forall i | 0 <= i < |g[j]| ensures byId[g[j][i]].key in KeysOf(byId, g[k]) {
        assert x[i] in Elements(y);
        var m :| 0 <= m < |y| && y[m] == x[i];
        assert g[k][m] in g[k];
      }
    }
    if KeysOf(byId, g[j]) <= KeysOf(byId, g[k]) {
      forall i | 0 <= i < |x| ensures x[i] in Elements(y) {
        assert g[j][i] in g[j] && byId[g[j][i]].key in KeysOf(byId, g[j]);
        var d :| d in g[k] && d in byId && byId[d].key == byId[g[j][i]].key;
        var m :| 0 <= m < |g[k]| && g[k][m] == d;
        assert y[m] == x[i];
      }
    }
  }

  method EveryJobAgrees(jobs: seq<Job>, g: Graph, canon: map<JobId, JobId>) returns (ok: bool)
    requires Closed(g) && IsRepresentative(g, canon) && forall i :: 0 <= i < |jobs| ==> jobs[i].id in g
    ensures ok <==> forall i :: 0 <= i < |jobs| ==> Agrees(g, canon, jobs[i].id)
  {
    hide Agrees, Closed;
    for n := 0 to |jobs|
      invariant forall i :: 0 <= i < n ==> Agrees(g, canon, jobs[i].id)
    {
      var j := jobs[n].id;
      if canon[j] != j && !Agrees(g, canon, j) {
        return false;
      }
    }
    return true;
  }

  method CheckDuplicates(jobs: seq<Job>, byId: map<JobId, Job>, g: Graph, canon: map<JobId, JobId>) returns (ok: bool)
    requires JobsById(jobs, byId) && g.Keys == byId.Keys && Closed(g) && CanonicalMap(jobs, canon)
    ensures IsRepresentative(g, canon) && (ok <==> DuplicatesAgree(g, canon))
    ensures ok <==> EquivalentDependencies(byId, g)
  {
    CanonicalRepresents(jobs, byId, g, canon);
    CanonicalMatchesKeys(jobs, byId, canon);
    hide CanonicalMap;
    AgreementByKeys(byId, g, canon);
    AgreementByJobs(jobs, byId, g, canon);
    hide SameKeySameJob, EquivalentDependencies, DuplicatesAgree, Agrees, Closed;
    ok := EveryJobAgrees(jobs, g, canon);
  }

  lemma AgreementByJobs(jobs: seq<Job>, byId: map<JobId, Job>, g: Graph, canon: map<JobId, JobId>)
    requires JobsById(jobs, byId) && g.Keys == byId.Keys && Closed(g) && IsRepresentative(g, canon)
    ensures DuplicatesAgree(g, canon) <==> forall i :: 0 <= i < |jobs| ==> Agrees(g, canon, jobs[i].id)
  {
    if forall i :: 0 <= i < |jobs| ==> Agrees(g, canon, jobs[i].id) {
      forall j | j in g ensures Agrees(g, canon, j) {
        assert HasId(jobs, j);
      }
    }
  }

  lemma AgreementByKeys(byId: map<JobId, Job>, g: Graph, canon: map<JobId, JobId>)
    requires g.Keys == byId.Keys && Closed(g) && IsRepresentative(g, canon)
    requires SameKeySameJob(byId, canon)
    ensures DuplicatesAgree(g, canon) <==> EquivalentDependencies(byId, g)
  {
    forall j | j in g
      ensures Agrees(g, canon, j)
        <==> KeysOf(byId, g[j]) == KeysOf(byId, g[canon[j]])
    {
      SameKeysSameRepresentatives(byId, g, canon, j, canon[j]);
    }
    if DuplicatesAgree(g, canon) {
      forall j, k | j in g && k in g && byId[j].key == byId[k].key ensures KeysOf(byId, g[j]) == KeysOf(byId, g[k]) {
        assert canon[j] == canon[k];
      }
    } else {
      var j :| j in g && !Agrees(g, canon, j);
      assert byId[j].key == byId[canon[j]].key;
    }
  }
}
