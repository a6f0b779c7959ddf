/** The whole of `execute`: admission, the run, and what a caller can rely on in its result
    (src/scan_tool/application/scheduler.py:193-355). */
module SchedulerExecution {
  import opened Basics
  import opened DependencyGraph
  import opened SchedulerModel
  import opened SchedulerSteps
  import opened SchedulerPass
  import opened SchedulerOutcomes
  import opened SchedulerRun
  import opened Scheduler

  datatype Plan = Plan(byId: map<JobId, Job>, deps: Graph, canon: map<JobId, JobId>)

  // ---------------------------------------------------------------- admission

  ghost predicate GraphOk(byId: map<JobId, Job>, dependencies: Graph)
  {
    && DependenciesOk(byId, dependencies) && Acyclic(Normalized(byId, dependencies))
    && EquivalentDependencies(byId, Normalized(byId, dependencies))
  }

  /** Exactly what the scheduler asks of its input. */
  ghost predicate Accepted(jobs: seq<Job>, dependencies: Graph)
  {
    && UniqueIds(jobs) && AllQueued(jobs) && KeysAgree(jobs)
    && exists byId :: JobsById(jobs, byId) && GraphOk(byId, dependencies)
  }

  ghost predicate Planned(jobs: seq<Job>, dependencies: Graph, p: Plan)
  {
    && UniqueIds(jobs) && JobsById(jobs, p.byId) && CanonicalMap(jobs, p.canon)
    && p.deps == Normalized(p.byId, dependencies) && Closed(p.deps) && IsRepresentative(p.deps, p.canon)
    && Acyclic(p.deps) && Acyclic(Merged(p.deps, p.canon))
  }

  lemma JobsByIdUnique(jobs: seq<Job>, a: map<JobId, Job>, b: map<JobId, Job>)
    requires JobsById(jobs, a) && JobsById(jobs, b)
    ensures a == b
  {
    forall j | j in a ensures j in b && b[j] == a[j] { assert HasId(jobs, j); }
    forall j | j in b ensures j in a { assert HasId(jobs, j); }
  }

  lemma AcceptedMeans(jobs: seq<Job>, dependencies: Graph, byId: map<JobId, Job>)
    requires JobsById(jobs, byId)
    ensures Accepted(jobs, dependencies)
      <==> UniqueIds(jobs) && AllQueued(jobs) && KeysAgree(jobs) && GraphOk(byId, dependencies)
  {
    hide GraphOk, UniqueIds, KeysAgree, AllQueued;
    if Accepted(jobs, dependencies) {
      var b :| JobsById(jobs, b) && GraphOk(b, dependencies);
      JobsByIdUnique(jobs, b, byId);
    }
  }

  /** The merged graph is checked for cycles a second time; that check never fails. */
  method Admit(jobs: seq<Job>, dependencies: Graph) returns (r: Result<Plan>)
    ensures r.Ok? <==> Accepted(jobs, dependencies)
    ensures r.Ok? ==> Planned(jobs, dependencies, r.value)
  {
    hide UniqueIds, JobsById, CanonicalMap, KeysAgree, DependenciesOk, EquivalentDependencies, AllQueued;
    hide Acyclic, IsRepresentative, Closed, DuplicatesAgree;
    var byId := ValidateJobs(jobs);
    if byId.Err? {
      return Err(byId.error);
    }
    AcceptedMeans(jobs, dependencies, byId.value);
    hide Accepted;
    var deps := ValidateDependencies(jobs, byId.value, dependencies);
    if deps.Err? {
      return Err(deps.error);
    }
    var canon := DeduplicationMap(jobs);
    if canon.Err? {
      return Err(canon.error);
    }
    var agree := CheckDuplicates(jobs, byId.value, deps.value, canon.value);
    if !agree {
      return Err(UnlikeDuplicates);
    }
    var again := RequireAcyclic(Merged(deps.value, canon.value));
    MergedStaysAcyclic(deps.value, canon.value);
    assert again;
    return Ok(Plan(byId.value, deps.value, canon.value));
  }

  // ---------------------------------------------------------------- the run

  function CanonicalIds(jobs: seq<Job>, canon: map<JobId, JobId>): seq<JobId>
    requires forall i :: 0 <= i < |jobs| ==> jobs[i].id in canon
  {
    if jobs == [] then []
    else (if canon[jobs[0].id] == jobs[0].id then [jobs[0].id] else []) + CanonicalIds(jobs[1..], canon)
  }

  lemma {:induction false} CanonicalIdsListed(jobs: seq<Job>, canon: map<JobId, JobId>, j: JobId)
    requires forall i :: 0 <= i < |jobs| ==> jobs[i].id in canon
    ensures j in CanonicalIds(jobs, canon) <==> HasId(jobs, j) && j in canon && canon[j] == j
  {
    if jobs != [] {
      CanonicalIdsListed(jobs[1..], canon, j);
      if HasId(jobs, j) {
        var i :| 0 <= i < |jobs| && jobs[i].id == j;
        assert i > 0 ==> jobs[1..][i - 1].id == j;
      }
      if HasId(jobs[1..], j) {
        var i :| 0 <= i < |jobs[1..]| && jobs[1..][i].id == j;
        assert jobs[i + 1].id == j;
      }
      assert jobs[0].id == j ==> HasId(jobs, j);
    }
  }

  lemma FirstIdIsNew(jobs: seq<Job>)
    requires jobs != [] && UniqueIds(jobs)
    ensures UniqueIds(jobs[1..]) && !HasId(jobs[1..], jobs[0].id)
  {
    forall i | 0 <= i < |jobs[1..]| ensures jobs[1..][i].id != jobs[0].id {
      assert jobs[0].id != jobs[i + 1].id;
    }
  }

  lemma {:induction false} CanonicalIdsDistinct(jobs: seq<Job>, canon: map<JobId, JobId>)
    requires UniqueIds(jobs) && forall i :: 0 <= i < |jobs| ==> jobs[i].id in canon
    ensures NoRepeats(CanonicalIds(jobs, canon))
  {
    if jobs != [] {
      FirstIdIsNew(jobs);
      CanonicalIdsDistinct(jobs[1..], canon);
      CanonicalIdsListed(jobs[1..], canon, jobs[0].id);
      var rest := CanonicalIds(jobs[1..], canon);
      assert ([jobs[0].id] + rest)[1..] == rest && [] + rest == rest;
    }
  }

  function CanonicalJobs(byId: map<JobId, Job>, canon: map<JobId, JobId>): map<JobId, Job>
    requires canon.Keys == byId.Keys
  {
    map j | j in byId && canon[j] == j :: byId[j]
  }

  ghost function ConfigOf(jobs: seq<Job>, dependencies: Graph, p: Plan, limits: QueueLimits,
                          cancelled: set<JobId>, paused: set<ProblemId>): Config
    requires Planned(jobs, dependencies, p)
  {
    PlannedIds(jobs, dependencies, p);
    Config(CanonicalIds(jobs, p.canon), CanonicalJobs(p.byId, p.canon),
           Merged(p.deps, p.canon), limits, cancelled, paused)
  }

  lemma PlannedIds(jobs: seq<Job>, dependencies: Graph, p: Plan)
    requires Planned(jobs, dependencies, p)
    ensures forall i :: 0 <= i < |jobs| ==> jobs[i].id in p.canon && jobs[i].id in p.byId
    ensures p.canon.Keys == p.byId.Keys
  {
    hide UniqueIds, CanonicalMap, Acyclic;
  }

  lemma ConfigIsValid(jobs: seq<Job>, dependencies: Graph, p: Plan, c: Config)
    requires Planned(jobs, dependencies, p)
    requires c == ConfigOf(jobs, dependencies, p, c.limits, c.cancelled, c.paused)
    ensures ValidConfig(c)
  {
    hide UniqueIds, JobsById, CanonicalMap, Acyclic, Closed, IsRepresentative, CanonicalIds, CanonicalJobs;
    PlannedIds(jobs, dependencies, p);
    CanonicalIdsDistinct(jobs, p.canon);
    CanonicalJobsListed(jobs, p, c.ids, c.jobs);
    SameDomain(p, c.jobs);
    hide Planned, ConfigOf, NoRepeats;
  }

  lemma SameDomain(p: Plan, m: map<JobId, Job>)
    requires Closed(p.deps) && IsRepresentative(p.deps, p.canon) && p.canon.Keys == p.byId.Keys
    requires m == CanonicalJobs(p.byId, p.canon)
    ensures forall j :: j in m <==> j in Merged(p.deps, p.canon)
  {
  }

  lemma CanonicalJobsListed(jobs: seq<Job>, p: Plan, ids: seq<JobId>, m: map<JobId, Job>)
    requires JobsById(jobs, p.byId) && p.canon.Keys == p.byId.Keys
    requires forall i :: 0 <= i < |jobs| ==> jobs[i].id in p.canon
    requires ids == CanonicalIds(jobs, p.canon)
    requires m == CanonicalJobs(p.byId, p.canon)
    ensures forall j :: j in ids <==> j in m
    ensures forall j :: j in m ==> m[j].id == j
  {
    forall j ensures j in ids <==> j in m {
      CanonicalIdsListed(jobs, p.canon, j);
    }
    forall j | j in m ensures m[j].id == j {
      assert HasId(jobs, j);
    }
  }

  // ---------------------------------------------------------------- the report

  function CopyFor(job: JobFields, canonical: JobResult): JobResult
  {
    JobResult(job.id, job.problem, canonical.status, 0, canonical.error, canonical.checkpoint, Some(canonical.id))
  }

  ghost function Published(job: JobFields, canon: map<JobId, JobId>, results: map<JobId, JobResult>): JobResult
    requires job.id in canon && canon[job.id] in results
  {
    if canon[job.id] == job.id then results[job.id] else CopyFor(job, results[canon[job.id]])
  }

  /** Copies the canonical results to the duplicates and lists one result per input job. */
  method Report(jobs: seq<Job>, canon: map<JobId, JobId>, final: map<JobId, JobResult>) returns (out: seq<JobResult>)
    requires UniqueIds(jobs)
    requires forall i :: 0 <= i < |jobs| ==> jobs[i].id in canon && canon[jobs[i].id] in final
    requires forall j :: j in final ==> j in canon && canon[j] == j
    ensures |out| == |jobs| && forall i :: 0 <= i < |jobs| ==> out[i] == Published(jobs[i], canon, final)
  {
    hide UniqueIds;
    var results := final;
    for n := 0 to |jobs|
      invariant forall j :: j in final ==> j in results && results[j] == final[j]
      invariant forall i :: 0 <= i < n ==> jobs[i].id in results && results[jobs[i].id] == Published(jobs[i], canon, final)
    {
      var job := jobs[n];
      EarlierIdsDiffer(jobs, n);
      if canon[job.id] != job.id {
        results := results[job.id := CopyFor(job, results[canon[job.id]])];
      }
    }
    out := seq(|jobs|, i requires 0 <= i < |jobs| && jobs[i].id in results => results[jobs[i].id]);
  }

  // ---------------------------------------------------------------- what a caller can rely on

  ghost predicate Finished(c: Config, s: State)
  {
    ValidConfig(c) && Inv(c, s) && s.pending == {} && s.active == {}
  }

  /** No runnable job is stranded: a job ran exactly when it was not held back and everything it
      depends on completed; the order of dispatch respects dependencies through all retries; and
      attempts are what the order shows. */
  ghost predicate RunFacts(c: Config, s: State)
  {
    && WellTyped(c) && Closed(c.deps)
    && (forall j :: j in c.jobs <==> j in s.results)
    && (forall j :: j in c.jobs && j in c.deps ==> (j in s.order <==> !Skipped(c, j) && Ready(c, s.results, j)))
    && (forall j :: j in s.order ==> j in c.jobs)
    && Linear(c.deps, s.order)
    && (forall j :: j in c.jobs && j in s.results ==> ResultFacts(c, s, j))
    && Total(c.ids, s.attempts) == |s.order|
  }

  ghost predicate ResultFacts(c: Config, s: State, j: JobId)
    requires j in c.jobs && j in s.results
  {
    && s.results[j].id == j && s.results[j].deduplicatedFrom == None
    && s.results[j].attempts == multiset(s.order)[j] <= c.jobs[j].maxAttempts
    && Get(s.attempts, j) == s.results[j].attempts
    && s.results[j] == (if s.results[j].attempts > 0 then s.results[j] else IdleResult(c, j))
    && (s.results[j].attempts > 0 ==> s.results[j].status in {Complete, Partial, Failed, Cancelled})
  }

  /** What a job that never ran reports: held back, or waiting for a dependency. */
  function IdleResult(c: Config, j: JobId): JobResult
    requires j in c.jobs
  {
    if Skipped(c, j) then SkipResult(c, j) else NotRun(c.jobs[j], Waiting, DependencyIncomplete)
  }

  lemma FinishedRun(c: Config, s: State)
    requires Finished(c, s)
    ensures RunFacts(c, s)
  {
    hide LoadOk, Listed, Acyclic, Closed, Ready, Skipped, Linear;
    FinishedResults(c, s);
    hide AttemptsExact, OrderLinear, ResultsOk;
  }

  lemma FinishedResults(c: Config, s: State)
    requires WellTyped(c) && Partitioned(c, s) && AttemptsExact(c, s) && OrderLinear(c, s) && ResultsOk(c, s)
    requires s.pending == {} && s.active == {}
    ensures forall j :: j in c.jobs && j in c.deps ==> (j in s.order <==> !Skipped(c, j) && Ready(c, s.results, j))
    ensures forall j :: j in c.jobs && j in s.results ==> ResultFacts(c, s, j)
    ensures forall j :: j in s.order ==> j in c.jobs
    ensures Linear(c.deps, s.order) && Total(c.ids, s.attempts) == |s.order|
  {
    hide Linear;
    forall j | j in c.jobs && j in c.deps ensures j in s.order <==> !Skipped(c, j) && Ready(c, s.results, j) {
      assert ResultOk(c, s, j);
      RanIffRunnable(c, s, j);
    }
    forall j | j in c.jobs && j in s.results ensures ResultFacts(c, s, j) {
      assert ResultOk(c, s, j);
    }
  }

  lemma RanIffRunnable(c: Config, s: State, j: JobId)
    requires AttemptsExact(c, s) && OrderLinear(c, s) && j in c.jobs && j in c.deps && j in s.results && j in s.attempts
    requires ResultOk(c, s, j)
    ensures j in s.order <==> !Skipped(c, j) && Ready(c, s.results, j)
  {
    assert s.attempts[j] == multiset(s.order)[j];
    assert j in multiset(s.order) <==> j in s.order;
    if s.attempts[j] == 0 && !Skipped(c, j) {
      assert HasFailedDependency(c, s.results, j);
    }
  }

  /** The reported maxima never exceed the limits. */
  lemma MaximaWithinLimits(c: Config, s: State)
    requires LoadOk(c, s)
    ensures s.maxima.jobs <= c.limits.maxActiveJobs && s.maxima.problems <= c.limits.maxActiveProblems
    ensures s.maxima.perProblem <= c.limits.maxActiveJobsPerProblem
    ensures Get(s.maxima.byRole, Planner) <= c.limits.maxPlannerJobs && Get(s.maxima.byRole, Verifier) <= c.limits.maxVerifierJobs
  {
    var x :| x in s.history && |x| == s.maxima.jobs;
    var y :| y in s.history && |ProblemsOf(c, y)| == s.maxima.problems;
    var z, p :| z in s.history && |InProblem(c, z, p)| == s.maxima.perProblem;
    assert WithinLimits(c, x) && WithinLimits(c, y) && WithinLimits(c, z);
    assert PeakRole(c, s.history, Planner, Get(s.maxima.byRole, Planner)) && PeakRole(c, s.history, Verifier, Get(s.maxima.byRole, Verifier));
    var u :| u in s.history && |InRole(c, u, Planner)| == Get(s.maxima.byRole, Planner);
    var v :| v in s.history && |InRole(c, v, Verifier)| == Get(s.maxima.byRole, Verifier);
    assert WithinLimits(c, u) && WithinLimits(c, v);
  }

  function SumAttempts(results: seq<JobResult>): nat
  {
    if results == [] then 0 else SumAttempts(results[1..]) + results[0].attempts
  }

  lemma PublishedAttempts(job: Job, canon: map<JobId, JobId>, final: map<JobId, JobResult>)
    requires job.id in canon && canon[job.id] in final
    ensures Published(job, canon, final).attempts == if canon[job.id] == job.id then final[job.id].attempts else 0
  {
  }

  lemma {:induction false} AttemptsAddUp(jobs: seq<Job>, canon: map<JobId, JobId>, final: map<JobId, JobResult>,
                                         attempts: map<JobId, nat>, out: seq<JobResult>)
    requires forall i :: 0 <= i < |jobs| ==> jobs[i].id in canon && canon[jobs[i].id] in final
    requires |out| == |jobs| && forall i :: 0 <= i < |jobs| ==> out[i] == Published(jobs[i], canon, final)
    requires forall j :: j in final ==> final[j].attempts == Get(attempts, j)
    ensures SumAttempts(out) == Total(CanonicalIds(jobs, canon), attempts)
  {
    hide Published;
    if jobs != [] {
      AttemptsAddUp(jobs[1..], canon, final, attempts, out[1..]);
      PublishedAttempts(jobs[0], canon, final);
      var rest := CanonicalIds(jobs[1..], canon);
      assert ([jobs[0].id] + rest)[1..] == rest && [] + rest == rest;
      assert out[0] == Published(jobs[0], canon, final);
    }
  }

  // ---------------------------------------------------------------- execute

  ghost predicate OnePerJob(jobs: seq<Job>, e: Execution)
  {
    |e.results| == |jobs| && forall i :: 0 <= i < |jobs| ==> e.results[i].id == jobs[i].id
  }

  ghost predicate EndsComplete(jobs: seq<Job>, e: Execution, d: JobId)
  {
    exists k :: 0 <= k < |jobs| && k < |e.results| && jobs[k].id == d && e.results[k].status == Complete
  }

  /** A job that stands for its key is dispatched exactly when it is neither cancelled nor paused
      and every job it depends on, after merging, ends complete. */
  ghost predicate NoneStranded(jobs: seq<Job>, c: Config, e: Execution)
  {
    forall j :: j in c.jobs && j in c.deps ==>
      (j in e.order <==> j !in c.cancelled && c.jobs[j].problem !in c.paused && forall d :: d in c.deps[j] ==> EndsComplete(jobs, e, d))
  }

  /** Attempts are what the dispatch order shows, within each job's allowance. */
  ghost predicate AttemptsShown(jobs: seq<Job>, e: Execution)
    requires |e.results| == |jobs|
  {
    && (forall i :: 0 <= i < |jobs| ==> e.results[i].attempts == multiset(e.order)[jobs[i].id] <= jobs[i].maxAttempts)
    && SumAttempts(e.results) == |e.order|
  }

  /** A duplicate reports the outcome of the job that stands for it, under its own name. */
  ghost predicate DuplicatesCopy(jobs: seq<Job>, canon: map<JobId, JobId>, e: Execution)
    requires |e.results| == |jobs|
  {
    forall i, k :: 0 <= i < |jobs| && 0 <= k < |jobs| && jobs[i].id in canon && canon[jobs[i].id] == jobs[k].id ==>
      if i == k then e.results[i].deduplicatedFrom == None else Copies(jobs[i], e.results[k], e.results[i])
  }

  /** The outcome of another job, under the duplicate's own name, with no attempt of its own. */
  predicate Copies(job: JobFields, original: JobResult, r: JobResult)
  {
    && r.id == job.id && r.problem == job.problem && r.attempts == 0 && r.deduplicatedFrom == Some(original.id)
    && r.status == original.status && r.error == original.error && r.checkpoint == original.checkpoint
  }

  /** A job that was never dispatched reports why. */
  ghost predicate IdleExplained(jobs: seq<Job>, c: Config, e: Execution)
    requires |e.results| == |jobs|
  {
    forall i :: 0 <= i < |jobs| && jobs[i].id in c.jobs && jobs[i].id !in e.order
      ==> SaysIdle(jobs[i], c.cancelled, c.paused, e.results[i])
  }

  /** Cancellation comes before a pause, and either before a dependency that did not complete. */
  predicate SaysIdle(job: JobFields, cancelled: set<JobId>, paused: set<ProblemId>, r: JobResult)
  {
    && r.id == job.id && r.problem == job.problem && r.attempts == 0 && r.checkpoint == job.checkpoint && r.deduplicatedFrom == None
    && if job.id in cancelled then r.status == Cancelled && r.error == Some(CancelledCode)
       else if job.problem in paused then r.status == Waiting && r.error == Some(ProblemPaused)
       else r.status == Waiting && r.error == Some(DependencyIncomplete)
  }

  ghost predicate MaximaBounded(l: LimitFields, m: Maxima)
  {
    && m.jobs <= l.maxActiveJobs && m.problems <= l.maxActiveProblems
    && m.perProblem <= l.maxActiveJobsPerProblem && Get(m.byRole, Planner) <= l.maxPlannerJobs && Get(m.byRole, Verifier) <= l.maxVerifierJobs
  }

  ghost predicate Sound(jobs: seq<Job>, c: Config, canon: map<JobId, JobId>, e: Execution)
  {
    && OnePerJob(jobs, e) && NoneStranded(jobs, c, e) && Linear(c.deps, e.order) && AttemptsShown(jobs, e)
    && DuplicatesCopy(jobs, canon, e) && IdleExplained(jobs, c, e) && MaximaBounded(c.limits, e.maxima)
  }

  /** What ties the report to the finished run, in the form the lemmas below use. */
  ghost predicate Reported(jobs: seq<Job>, c: Config, canon: map<JobId, JobId>, s: State, e: Execution)
  {
    && UniqueIds(jobs) && |e.results| == |jobs| && e.order == s.order && e.maxima == s.maxima
    && (forall i :: 0 <= i < |jobs| ==> jobs[i].id in canon && canon[jobs[i].id] in s.results)
    && (forall i :: 0 <= i < |jobs| ==> e.results[i] == Published(jobs[i], canon, s.results))
    && (forall i :: 0 <= i < |jobs| ==> (jobs[i].id in c.jobs <==> canon[jobs[i].id] == jobs[i].id))
    && (forall i :: 0 <= i < |jobs| && jobs[i].id in c.jobs ==> c.jobs[jobs[i].id] == jobs[i])
    && (forall j :: j in c.jobs ==> HasId(jobs, j) && j in canon && canon[j] == j)
    && c.ids == CanonicalIds(jobs, canon)
  }

  lemma ReportIds(jobs: seq<Job>, c: Config, canon: map<JobId, JobId>, s: State, e: Execution)
    requires RunFacts(c, s) && Reported(jobs, c, canon, s, e)
    ensures OnePerJob(jobs, e)
  {
    hide UniqueIds, CanonicalIds, Linear, Closed;
    forall i | 0 <= i < |jobs| ensures e.results[i].id == jobs[i].id {
      assert e.results[i] == Published(jobs[i], canon, s.results);
    }
  }

  lemma ReportStatus(jobs: seq<Job>, c: Config, canon: map<JobId, JobId>, s: State, e: Execution, d: JobId)
    requires RunFacts(c, s) && Reported(jobs, c, canon, s, e) && d in c.jobs
    ensures d in s.results && (EndsComplete(jobs, e, d) <==> s.results[d].status == Complete)
  {
    hide UniqueIds, CanonicalIds, Linear, Closed;
    assert HasId(jobs, d);
    var i :| 0 <= i < |jobs| && jobs[i].id == d;
    assert e.results[i] == Published(jobs[i], canon, s.results);
    if EndsComplete(jobs, e, d) {
      var k :| 0 <= k < |jobs| && k < |e.results| && jobs[k].id == d && e.results[k].status == Complete;
      assert e.results[k] == Published(jobs[k], canon, s.results);
    }
  }

  lemma SkippedMeans(c: Config, j: JobId)
    requires j in c.jobs
    ensures Skipped(c, j) <==> j in c.cancelled || c.jobs[j].problem in c.paused
  {
  }

  lemma ReportStranding(jobs: seq<Job>, c: Config, canon: map<JobId, JobId>, s: State, e: Execution)
    requires RunFacts(c, s) && Reported(jobs, c, canon, s, e)
    ensures NoneStranded(jobs, c, e)
  {
    hide UniqueIds, CanonicalIds, Linear, EndsComplete, Skipped, ResultFacts, Published, HasId;
    forall j | j in c.jobs && j in c.deps
      ensures j in e.order
        <==> j !in c.cancelled && c.jobs[j].problem !in c.paused && forall d :: d in c.deps[j] ==> EndsComplete(jobs, e, d)
    {
      SkippedMeans(c, j);
      forall d | d in c.deps[j] ensures d in s.results && (EndsComplete(jobs, e, d) <==> s.results[d].status == Complete) {
        var i :| 0 <= i < |c.deps[j]| && c.deps[j][i] == d;
        ReportStatus(jobs, c, canon, s, e, d);
      }
    }
  }

  lemma ReportAttempts(jobs: seq<Job>, c: Config, canon: map<JobId, JobId>, s: State, e: Execution)
    requires RunFacts(c, s) && Reported(jobs, c, canon, s, e)
    ensures AttemptsShown(jobs, e)
  {
    hide UniqueIds, CanonicalIds, Linear, Closed, Ready, Skipped, HasId;
    forall i | 0 <= i < |jobs|
      ensures e.results[i].attempts == multiset(e.order)[jobs[i].id] <= jobs[i].maxAttempts
    {
      assert e.results[i] == Published(jobs[i], canon, s.results);
      NotDispatched(c, s, jobs[i].id);
    }
    AttemptsAddUp(jobs, canon, s.results, s.attempts, e.results);
  }

  lemma NotDispatched(c: Config, s: State, j: JobId)
    requires forall k :: k in s.order ==> k in c.jobs
    ensures j !in c.jobs ==> multiset(s.order)[j] == 0
  {
    assert j in multiset(s.order) <==> j in s.order;
  }

  lemma ReportCopies(jobs: seq<Job>, c: Config, canon: map<JobId, JobId>, s: State, e: Execution)
    requires RunFacts(c, s) && Reported(jobs, c, canon, s, e)
    ensures DuplicatesCopy(jobs, canon, e)
  {
    hide CanonicalIds, Linear, Closed, Ready, Skipped, HasId;
    forall i, k | 0 <= i < |jobs| && 0 <= k < |jobs| && jobs[i].id in canon && canon[jobs[i].id] == jobs[k].id
      ensures if i == k then e.results[i].deduplicatedFrom == None else Copies(jobs[i], e.results[k], e.results[i])
    {
      assert e.results[i] == Published(jobs[i], canon, s.results);
      assert e.results[k] == Published(jobs[k], canon, s.results);
    }
  }

  lemma IdleMeans(c: Config, j: JobId)
    requires j in c.jobs && c.jobs[j].id == j
    ensures SaysIdle(c.jobs[j], c.cancelled, c.paused, IdleResult(c, j))
  {
  }

  lemma ReportIdle(jobs: seq<Job>, c: Config, canon: map<JobId, JobId>, s: State, e: Execution)
    requires RunFacts(c, s) && Reported(jobs, c, canon, s, e)
    ensures IdleExplained(jobs, c, e)
  {
    hide UniqueIds, CanonicalIds, Linear, Closed, Ready, Skipped, HasId, IdleResult;
    forall i | 0 <= i < |jobs| && jobs[i].id in c.jobs && jobs[i].id !in e.order
      ensures SaysIdle(jobs[i], c.cancelled, c.paused, e.results[i])
    {
      IdleMeans(c, jobs[i].id);
      assert e.results[i] == Published(jobs[i], canon, s.results);
      assert ResultFacts(c, s, jobs[i].id);
      assert jobs[i].id !in multiset(s.order);
    }
  }

  lemma ReportIsSound(jobs: seq<Job>, c: Config, canon: map<JobId, JobId>, s: State, e: Execution)
    requires Finished(c, s) && Reported(jobs, c, canon, s, e)
    ensures Sound(jobs, c, canon, e)
  {
    FinishedRun(c, s);
    assert LoadOk(c, s);
    MaximaWithinLimits(c, s);
    assert Linear(c.deps, e.order) && MaximaBounded(c.limits, e.maxima);
    hide Finished, Reported, RunFacts, OnePerJob, NoneStranded, AttemptsShown, DuplicatesCopy, Linear, MaximaBounded;
    ReportIds(jobs, c, canon, s, e);
    ReportStranding(jobs, c, canon, s, e);
    ReportAttempts(jobs, c, canon, s, e);
    ReportCopies(jobs, c, canon, s, e);
    hide IdleExplained;
    ReportIdle(jobs, c, canon, s, e);
  }

  lemma RunIsReported(jobs: seq<Job>, dependencies: Graph, p: Plan, c: Config, s: State, e: Execution)
    requires Planned(jobs, dependencies, p) && Finished(c, s)
    requires c == ConfigOf(jobs, dependencies, p, c.limits, c.cancelled, c.paused)
    requires |e.results| == |jobs| && e.order == s.order && e.maxima == s.maxima
    requires forall i :: 0 <= i < |jobs| ==> jobs[i].id in p.canon && p.canon[jobs[i].id] in s.results
    requires forall i :: 0 <= i < |jobs| ==> e.results[i] == Published(jobs[i], p.canon, s.results)
    ensures Reported(jobs, c, p.canon, s, e)
  {
    hide UniqueIds, JobsById, CanonicalMap, Acyclic, Closed, IsRepresentative, CanonicalIds, CanonicalJobs;
    hide Finished, HasId, Published;
    PlannedIds(jobs, dependencies, p);
    CanonicalJobsKnown(jobs, p, c.jobs);
  }

  lemma CanonicalJobsKnown(jobs: seq<Job>, p: Plan, m: map<JobId, Job>)
    requires JobsById(jobs, p.byId) && p.canon.Keys == p.byId.Keys
    requires m == CanonicalJobs(p.byId, p.canon)
    ensures forall i :: 0 <= i < |jobs| ==> jobs[i].id in p.canon && (jobs[i].id in m <==> p.canon[jobs[i].id] == jobs[i].id)
    ensures forall i :: 0 <= i < |jobs| && jobs[i].id in m ==> m[jobs[i].id] == jobs[i]
    ensures forall j :: j in m ==> HasId(jobs, j) && j in p.canon && p.canon[j] == j
  {
    hide HasId;
  }

  lemma EveryJobHasResult(jobs: seq<Job>, dependencies: Graph, p: Plan, c: Config, s: State)
    requires Planned(jobs, dependencies, p) && Finished(c, s)
    requires c == ConfigOf(jobs, dependencies, p, c.limits, c.cancelled, c.paused)
    ensures forall i :: 0 <= i < |jobs| ==> jobs[i].id in p.canon && p.canon[jobs[i].id] in s.results
    ensures forall j :: j in s.results ==> j in p.canon && p.canon[j] == j
  {
    FinishedRun(c, s);
    PlannedIds(jobs, dependencies, p);
    hide Finished, Acyclic, CanonicalMap, UniqueIds, CanonicalIds;
  }

  /** The result of a job that stands for its key and was dispatched is its last attempt's outcome;
      every earlier attempt asked for a retry, and the last did not or had used up the allowance. */
  ghost predicate OutcomesReported(jobs: seq<Job>, c: Config, w: Workers, e: Execution)
    requires |e.results| == |jobs|
  {
    forall i :: 0 <= i < |jobs| && jobs[i].id in c.jobs && e.results[i].attempts > 0 ==> Reports(jobs[i], w, e.results[i])
  }

  /** The result is the worker's answer to the last attempt; every earlier attempt failed and asked for
      another, and the last did not or was the last allowed. */
  ghost predicate Reports(job: JobFields, w: Workers, r: JobResult)
  {
    var o := w(job.id, r.attempts);
    && r.id == job.id && r.problem == job.problem && r.deduplicatedFrom == None
    && r.status == o.status && r.error == o.error && r.checkpoint == (if o.checkpoint.Some? then o.checkpoint else job.checkpoint)
    && (forall m :: 1 <= m < r.attempts ==> w(job.id, m).status == Failed && w(job.id, m).retryable)
    && (o.status == Failed && o.retryable ==> r.attempts >= job.maxAttempts)
  }

  lemma EndedReports(c: Config, w: Workers, j: JobId, r: JobResult)
    requires j in c.jobs && c.jobs[j].id == j && EndedWith(c, w, j, r) && r.attempts > 0
    ensures Reports(c.jobs[j], w, r)
  {
    forall m | 1 <= m < r.attempts ensures w(j, m).status == Failed && w(j, m).retryable {
      assert AsksRetry(w, j, m);
    }
  }

  lemma ReportOutcomes(jobs: seq<Job>, c: Config, canon: map<JobId, JobId>, w: Workers, s: State, e: Execution)
    requires Reported(jobs, c, canon, s, e) && Faithful(c, w, s) && Finished(c, s)
    ensures OutcomesReported(jobs, c, w, e)
  {
    FinishedRun(c, s);
    hide Finished, UniqueIds, CanonicalIds, Linear, Closed, HasId, EndedWith, Reports;
    forall i | 0 <= i < |jobs| && jobs[i].id in c.jobs && e.results[i].attempts > 0 ensures Reports(jobs[i], w, e.results[i]) {
      assert e.results[i] == Published(jobs[i], canon, s.results);
      AttemptsKnown(c, s, jobs[i].id);
      assert JobFaithful(c, w, s, jobs[i].id);
      EndedReports(c, w, jobs[i].id, e.results[i]);
    }
  }

  lemma AttemptsKnown(c: Config, s: State, j: JobId)
    requires Finished(c, s) && j in c.jobs
    ensures j in s.attempts
  {
    hide OrderLinear, ResultsOk, LoadOk;
  }

  /** The run came about in rounds, each of which started all it could. */
  ghost predicate InRounds(c: Config, w: Workers, s: State)
  {
    exists rounds :: Rounds(c, w, Start(c), rounds, s)
  }

  method RunPlan(c: Config, w: Workers) returns (order: seq<JobId>, results: map<JobId, JobResult>, maxima: Maxima, ghost s: State)
    requires ValidConfig(c)
    ensures Finished(c, s) && order == s.order && results == s.results && maxima == s.maxima && Faithful(c, w, s)
    ensures InRounds(c, w, s)
  {
    hide ValidConfig, Inv, Faithful, Rounds;
    var run := new Run(c, w);
    run.SkipUnrunnable();
    StartKeepsInv(c);
    StartFaithful(c, w);
    ghost var rounds := run.Drain();
    assert Rounds(c, w, Start(c), rounds, run.View());
    s := run.View();
    order, results, maxima := run.order, run.results, run.maxima;
  }

  /** The report of a finished run of the planned jobs, faithful to the workers. */
  ghost predicate Ran(jobs: seq<Job>, dependencies: Graph, w: Workers, p: Plan, c: Config, s: State, e: Execution)
  {
    && Planned(jobs, dependencies, p) && c == ConfigOf(jobs, dependencies, p, c.limits, c.cancelled, c.paused)
    && Finished(c, s) && Faithful(c, w, s) && Reported(jobs, c, p.canon, s, e) && InRounds(c, w, s)
  }

  /** Accepts exactly the well-formed inputs, and whatever the workers do, in whatever order tasks
      finish, the report of an accepted input is sound. */
  method Execute(jobs: seq<Job>, dependencies: Graph, limits: QueueLimits, paused: set<ProblemId>, cancelled: set<JobId>, w: Workers)
    returns (r: Result<Execution>, ghost p: Plan, ghost c: Config, ghost s: State)
    ensures r.Ok? <==> Accepted(jobs, dependencies)
    ensures r.Ok? ==> Ran(jobs, dependencies, w, p, c, s, r.value)
    ensures r.Ok? ==> c.limits == limits && c.cancelled == cancelled && c.paused == paused
    ensures r.Ok? ==> Sound(jobs, c, p.canon, r.value)
    ensures r.Ok? ==> |r.value.results| == |jobs| && OutcomesReported(jobs, c, w, r.value)
  {
    hide Accepted, Sound, Finished, Acyclic, Reported, Faithful, OutcomesReported, InRounds;
    var plan := Admit(jobs, dependencies);
    if plan.Err? {
      return Err(plan.error), *, *, *;
    }
    p := plan.value;
    PlannedIds(jobs, dependencies, plan.value);
    var config := Config(CanonicalIds(jobs, plan.value.canon),
                         CanonicalJobs(plan.value.byId, plan.value.canon),
                         Merged(plan.value.deps, plan.value.canon), limits, cancelled, paused);
    c := config;
    ConfigIsValid(jobs, dependencies, p, c);
    var order, results, maxima, final := RunPlan(config, w);
    s := final;
    EveryJobHasResult(jobs, dependencies, p, c, s);
    var out := Report(jobs, plan.value.canon, results);
    var e := Execution(out, order, maxima);
    RunIsReported(jobs, dependencies, p, c, s, e);
    ReportIsSound(jobs, c, p.canon, s, e);
    ReportOutcomes(jobs, c, p.canon, w, s, e);
    r := Ok(e);
  }
}
