/** The scheduler's records, its state, the four kinds of step a run takes, and the
    invariant that every step keeps (src/scan_tool/application/scheduler.py). */
module SchedulerModel {
  import opened Basics
  import opened DependencyGraph

  // ---------------------------------------------------------------- records

  type JobId = Id
  type ProblemId = nat

  datatype Role = Planner | Evidence | Verifier | Reporter
  datatype Status = Queued | Running | Waiting | Complete | Partial | Failed | Cancelled
  datatype Priority = Critical | High | Normal | Deferred
  datatype ErrorCode = CancelledCode | ProblemPaused | DependencyIncomplete | WorkerCode(code: nat)

  datatype JobFields = Job(
    id: JobId, problem: ProblemId, role: Role, jobType: nat, status: Status, priority: Priority,
    key: nat, maxAttempts: nat, queuedAt: nat, checkpoint: Option<nat>)

  /** The job contract guarantees at least one attempt. */
  type Job = j: JobFields | j.maxAttempts >= 1
    witness Job(0, 0, Planner, 0, Queued, Critical, 0, 1, 0, None)

  datatype LimitFields = QueueLimits(
    maxActiveProblems: nat, maxActiveJobs: nat, maxActiveJobsPerProblem: nat,
    maxPlannerJobs: nat, maxVerifierJobs: nat)
  {
    function RoleLimit(r: Role): nat
    {
      match r
      case Planner => maxPlannerJobs
      case Verifier => maxVerifierJobs
      case _ => maxActiveJobs
    }
  }

  /** A non-positive limit is refused when the record is built. */
  type QueueLimits = l: LimitFields |
    l.maxActiveProblems >= 1 && l.maxActiveJobs >= 1 && l.maxActiveJobsPerProblem >= 1 &&
    l.maxPlannerJobs >= 1 && l.maxVerifierJobs >= 1
    witness QueueLimits(1, 1, 1, 1, 1)

  datatype OutcomeFields = WorkerOutcome(
    status: Status, error: Option<ErrorCode>, checkpoint: Option<nat>, retryable: bool)

  /** A worker ends in a terminal status, and only a failure may ask for a retry. */
  type WorkerOutcome = o: OutcomeFields |
    o.status in {Complete, Partial, Failed, Cancelled} && (o.retryable ==> o.status == Failed)
    witness WorkerOutcome(Complete, None, None, false)

  datatype JobResult = JobResult(
    id: JobId, problem: ProblemId, status: Status, attempts: nat,
    error: Option<ErrorCode>, checkpoint: Option<nat>, deduplicatedFrom: Option<JobId>)

  function NotRun(job: Job, status: Status, error: ErrorCode): JobResult
  {
    JobResult(job.id, job.problem, status, 0, Some(error), job.checkpoint, None)
  }

  // ---------------------------------------------------------------- counters

  datatype Counters = Counters(total: nat, byProblem: map<ProblemId, nat>, byRole: map<Role, nat>)

  function Get<K>(m: map<K, nat>, k: K): nat
  {
    if k in m then m[k] else 0
  }

  function CountedProblems(n: Counters): set<ProblemId>
  {
    set p | p in n.byProblem && n.byProblem[p] != 0
  }

  predicate HasCapacity(l: LimitFields, job: JobFields, n: Counters)
  {
    && n.total < l.maxActiveJobs
    && Get(n.byProblem, job.problem) < l.maxActiveJobsPerProblem
    && Get(n.byRole, job.role) < l.RoleLimit(job.role)
    && (Get(n.byProblem, job.problem) > 0 || |CountedProblems(n)| < l.maxActiveProblems)
  }

  function Increment(job: JobFields, n: Counters): Counters
  {
    Counters(n.total + 1,
             n.byProblem[job.problem := Get(n.byProblem, job.problem) + 1],
             n.byRole[job.role := Get(n.byRole, job.role) + 1])
  }

  function Decrement(job: JobFields, n: Counters): Counters
    requires n.total >= 1 && Get(n.byProblem, job.problem) >= 1 && Get(n.byRole, job.role) >= 1
  {
    Counters(n.total - 1,
             n.byProblem[job.problem := n.byProblem[job.problem] - 1],
             n.byRole[job.role := n.byRole[job.role] - 1])
  }

  /** Once a job does not fit, admitting another job that fits cannot make room for it. */
  lemma NoCapacityIsMonotone(l: LimitFields, job: JobFields, other: JobFields, n: Counters)
    requires !HasCapacity(l, job, n) && HasCapacity(l, other, n)
    ensures !HasCapacity(l, job, Increment(other, n))
  {
    var m := Increment(other, n);
    if Get(n.byProblem, other.problem) > 0 {
      assert CountedProblems(m) == CountedProblems(n);
    } else {
      assert CountedProblems(m) == CountedProblems(n) + {other.problem};
    }
  }

  // ---------------------------------------------------------------- state

  datatype Config = Config(
    ids: seq<JobId>, jobs: map<JobId, Job>, deps: Graph, limits: QueueLimits,
    cancelled: set<JobId>, paused: set<ProblemId>)

  /** `ids` lists every job once. */
  ghost predicate Listed(c: Config)
  {
    NoRepeats(c.ids) && forall j :: j in c.ids <==> j in c.jobs
  }

  ghost predicate WellTyped(c: Config)
  {
    (forall j :: j in c.jobs <==> j in c.deps) && (forall j :: j in c.jobs ==> c.jobs[j].id == j)
  }

  ghost predicate ValidConfig(c: Config)
  {
    Listed(c) && WellTyped(c) && Closed(c.deps) && Acyclic(c.deps)
  }

  /** Cancelled jobs and jobs of paused problems never enter the queue. */
  predicate Skipped(c: Config, j: JobId)
    requires j in c.jobs
  {
    j in c.cancelled || c.jobs[j].problem in c.paused
  }

  function SkipResult(c: Config, j: JobId): JobResult
    requires j in c.jobs
  {
    if j in c.cancelled then NotRun(c.jobs[j], Cancelled, CancelledCode)
    else NotRun(c.jobs[j], Waiting, ProblemPaused)
  }

  datatype Maxima = Maxima(jobs: nat, problems: nat, perProblem: nat, byRole: map<Role, nat>)

  /** `order` lists the dispatches so far; `history` holds every set of simultaneously
      active jobs the run has gone through. */
  datatype State = State(
    pending: set<JobId>, active: set<JobId>, results: map<JobId, JobResult>,
    attempts: map<JobId, nat>, order: seq<JobId>, counters: Counters, maxima: Maxima,
    history: set<set<JobId>>)

  predicate Ready(c: Config, results: map<JobId, JobResult>, j: JobId)
    requires j in c.deps
  {
    forall d :: d in c.deps[j] ==> d in results && results[d].status == Complete
  }

  predicate Blocked(c: Config, results: map<JobId, JobResult>, j: JobId)
    requires j in c.deps
  {
    exists d :: d in c.deps[j] && d in results
      && results[d].status in {Waiting, Partial, Failed, Cancelled}
  }

  // ---------------------------------------------------------------- steps

  function Start(c: Config): State
  {
    State(set j | j in c.jobs && !Skipped(c, j), {},
          map j | j in c.jobs && Skipped(c, j) :: SkipResult(c, j),
          map j | j in c.jobs :: 0, [], Counters(0, map[], map[]), Maxima(0, 0, 0, map[]), {{}})
  }

  function Block(c: Config, s: State, j: JobId): State
    requires j in c.jobs
  {
    s.(pending := s.pending - {j},
       results := s.results[j := NotRun(c.jobs[j], Waiting, DependencyIncomplete)])
  }

  function Observe(job: JobFields, n: Counters, m: Maxima): Maxima
  {
    Maxima(Max(m.jobs, n.total), Max(m.problems, |CountedProblems(n)|),
           Max(m.perProblem, Get(n.byProblem, job.problem)),
           m.byRole[job.role := Max(Get(m.byRole, job.role), Get(n.byRole, job.role))])
  }

  function Dispatch(c: Config, s: State, j: JobId): State
    requires j in c.jobs && j in s.attempts
  {
    var n := Increment(c.jobs[j], s.counters);
    s.(pending := s.pending - {j}, active := s.active + {j},
       attempts := s.attempts[j := s.attempts[j] + 1], order := s.order + [j],
       counters := n, maxima := Observe(c.jobs[j], n, s.maxima),
       history := s.history + {s.active + {j}})
  }

  predicate Retries(c: Config, s: State, j: JobId, o: OutcomeFields)
    requires j in c.jobs && j in s.attempts
  {
    o.status == Failed && o.retryable && s.attempts[j] < c.jobs[j].maxAttempts
  }

  function RunResult(c: Config, s: State, j: JobId, o: OutcomeFields): JobResult
    requires j in c.jobs && j in s.attempts
  {
    JobResult(j, c.jobs[j].problem, o.status, s.attempts[j], o.error,
              if o.checkpoint.Some? then o.checkpoint else c.jobs[j].checkpoint, None)
  }

  ghost predicate CountsJob(c: Config, s: State, j: JobId)
    requires j in c.jobs
  {
    && s.counters.total >= 1 && Get(s.counters.byProblem, c.jobs[j].problem) >= 1
    && Get(s.counters.byRole, c.jobs[j].role) >= 1
  }

  ghost function Finish(c: Config, s: State, j: JobId, o: OutcomeFields): State
    requires j in c.jobs && j in s.attempts && CountsJob(c, s, j)
  {
    var t := s.(active := s.active - {j}, counters := Decrement(c.jobs[j], s.counters),
                history := s.history + {s.active - {j}});
    if Retries(c, s, j, o) then t.(pending := t.pending + {j})
    else t.(results := t.results[j := RunResult(c, s, j, o)])
  }

  function Strand(c: Config, s: State): State
    requires s.pending <= c.jobs.Keys
  {
    s.(pending := {},
       results := s.results + map j | j in s.pending :: NotRun(c.jobs[j], Waiting, DependencyIncomplete))
  }

  // ---------------------------------------------------------------- invariant

  ghost predicate Partitioned(c: Config, s: State)
  {
    && (forall j :: j in s.pending ==> j in c.jobs && j !in s.active && j !in s.results)
    && (forall j :: j in s.active ==> j in c.jobs && j !in s.results)
    && (forall j :: j in s.results ==> j in c.jobs)
    && (forall j :: j in c.jobs ==> j in s.pending || j in s.active || j in s.results)
  }

  ghost predicate AttemptsExact(c: Config, s: State)
  {
    && (forall j :: j in c.jobs <==> j in s.attempts)
    && (forall j :: j in s.order ==> j in c.jobs)
    && (forall j :: j in s.attempts ==> s.attempts[j] == multiset(s.order)[j] <= c.jobs[j].maxAttempts)
    && (forall j :: j in s.pending && j in s.attempts ==> s.attempts[j] < c.jobs[j].maxAttempts)
    && (forall j :: j in s.active && j in s.attempts ==> s.attempts[j] > 0)
    && Total(c.ids, s.attempts) == |s.order|
  }

  /** Whatever was dispatched had all its dependencies finished as Complete, and every
      dispatch of a dependency comes before every dispatch of its dependent. */
  ghost predicate OrderLinear(c: Config, s: State)
  {
    && (forall j :: j in s.order && j in c.jobs && j in c.deps ==> Ready(c, s.results, j) && !Skipped(c, j))
    && Linear(c.deps, s.order)
  }

  ghost predicate Linear(g: Graph, order: seq<JobId>)
  {
    forall i, k :: 0 <= i < |order| && 0 <= k < |order| && order[k] in g && order[i] in g[order[k]] ==> i < k
  }

  ghost predicate HasFailedDependency(c: Config, results: map<JobId, JobResult>, j: JobId)
    requires j in c.deps
  {
    exists d :: d in c.deps[j] && d in results && results[d].status != Complete
  }

  ghost predicate ResultOk(c: Config, s: State, j: JobId)
    requires j in c.jobs && j in c.deps && j in s.results && j in s.attempts
  {
    var r := s.results[j];
    && r.id == j && r.problem == c.jobs[j].problem && r.deduplicatedFrom == None
    && r.attempts == s.attempts[j]
    && (r.attempts > 0 ==> r.status in {Complete, Partial, Failed, Cancelled})
    && (r.attempts == 0 ==>
          if Skipped(c, j) then r == SkipResult(c, j)
          else r == NotRun(c.jobs[j], Waiting, DependencyIncomplete) && HasFailedDependency(c, s.results, j))
  }

  ghost predicate ResultsOk(c: Config, s: State)
  {
    && (forall j :: j in c.jobs <==> j in s.attempts)
    && (forall j :: j in s.results ==> j in c.jobs && j in c.deps && ResultOk(c, s, j))
    && (forall j :: j in c.jobs && Skipped(c, j) ==> j in s.results && s.attempts[j] == 0)
  }

  function InProblem(c: Config, a: set<JobId>, p: ProblemId): set<JobId>
  {
    set j | j in a && j in c.jobs && c.jobs[j].problem == p
  }

  function InRole(c: Config, a: set<JobId>, r: Role): set<JobId>
  {
    set j | j in a && j in c.jobs && c.jobs[j].role == r
  }

  function ProblemsOf(c: Config, a: set<JobId>): set<ProblemId>
  {
    set j | j in a && j in c.jobs :: c.jobs[j].problem
  }

  /** The incremental counters equal the counts recomputed from the active jobs. */
  ghost predicate CountersExact(c: Config, a: set<JobId>, n: Counters)
  {
    && n.total == |a|
    && (forall p :: Get(n.byProblem, p) == |InProblem(c, a, p)|)
    && (forall r :: Get(n.byRole, r) == |InRole(c, a, r)|)
  }

  ghost predicate WithinLimits(c: Config, a: set<JobId>)
  {
    && |a| <= c.limits.maxActiveJobs
    && |ProblemsOf(c, a)| <= c.limits.maxActiveProblems
    && (forall p :: |InProblem(c, a, p)| <= c.limits.maxActiveJobsPerProblem)
    && |InRole(c, a, Planner)| <= c.limits.maxPlannerJobs
    && |InRole(c, a, Verifier)| <= c.limits.maxVerifierJobs
  }

  /** `m` is the largest of the loads that the active sets of the run put on one limit. */
  ghost predicate PeakJobs(h: set<set<JobId>>, m: nat)
  {
    (forall a :: a in h ==> |a| <= m) && (exists a :: a in h && |a| == m)
  }

  ghost predicate PeakProblems(c: Config, h: set<set<JobId>>, m: nat)
  {
    (forall a :: a in h ==> |ProblemsOf(c, a)| <= m) && (exists a :: a in h && |ProblemsOf(c, a)| == m)
  }

  ghost predicate PeakPerProblem(c: Config, h: set<set<JobId>>, m: nat)
  {
    (forall a, p :: a in h ==> |InProblem(c, a, p)| <= m) && (exists a, p :: a in h && |InProblem(c, a, p)| == m)
  }

  ghost predicate PeakRole(c: Config, h: set<set<JobId>>, r: Role, m: nat)
  {
    (forall a :: a in h ==> |InRole(c, a, r)| <= m) && (exists a :: a in h && |InRole(c, a, r)| == m)
  }

  /** The reported maxima bound every active set of the run, and each is attained by one. */
  ghost predicate MaximaExact(c: Config, h: set<set<JobId>>, m: Maxima)
  {
    && PeakJobs(h, m.jobs) && PeakProblems(c, h, m.problems) && PeakPerProblem(c, h, m.perProblem)
    && forall r :: PeakRole(c, h, r, Get(m.byRole, r))
  }

  ghost predicate LoadOk(c: Config, s: State)
  {
    && s.active in s.history
    && CountersExact(c, s.active, s.counters)
    && (forall a :: a in s.history ==> WithinLimits(c, a))
    && MaximaExact(c, s.history, s.maxima)
  }

  ghost predicate Inv(c: Config, s: State)
  {
    && Partitioned(c, s) && AttemptsExact(c, s) && OrderLinear(c, s) && ResultsOk(c, s)
    && LoadOk(c, s)
  }

  // ---------------------------------------------------------------- sums over the job list

  function Total(ids: seq<JobId>, m: map<JobId, nat>): nat
  {
    if ids == [] then 0 else Total(ids[1..], m) + Get(m, ids[0])
  }

  lemma {:induction false} TotalUnchanged(ids: seq<JobId>, m: map<JobId, nat>, j: JobId, v: nat)
    requires j !in ids
    ensures Total(ids, m[j := v]) == Total(ids, m)
  {
    if ids != [] {
      TotalUnchanged(ids[1..], m, j, v);
    }
  }

  lemma {:induction false} TotalUpdate(ids: seq<JobId>, m: map<JobId, nat>, j: JobId, v: nat)
    requires j in ids && NoRepeats(ids)
    ensures Total(ids, m[j := v]) + Get(m, j) == Total(ids, m) + v
  {
    if ids[0] == j {
      TotalUnchanged(ids[1..], m, j, v);
    } else {
      TotalUpdate(ids[1..], m, j, v);
    }
  }

  lemma {:induction false} TotalZero(ids: seq<JobId>, m: map<JobId, nat>)
    requires forall j :: j in m ==> m[j] == 0
    ensures Total(ids, m) == 0
  {
    if ids != [] {
      TotalZero(ids[1..], m);
    }
  }

  // ---------------------------------------------------------------- the measure

  function Weight(c: Config, s: State, j: JobId): nat
    requires j in c.jobs
  {
    if j in s.results then 0
    else (if Get(s.attempts, j) <= c.jobs[j].maxAttempts then 2 * (c.jobs[j].maxAttempts - Get(s.attempts, j)) else 0)
         + (if j in s.active then 1 else 0)
  }

  function Weights(c: Config, s: State): map<JobId, nat>
  {
    map j | j in c.jobs :: Weight(c, s, j)
  }

  /** Attempts still allowed, counted twice, plus tasks in flight: every step lowers it. */
  function Work(c: Config, s: State): nat
  {
    Total(c.ids, Weights(c, s))
  }

  lemma WorkAfter(c: Config, s: State, t: State, j: JobId)
    requires Listed(c) && j in c.jobs
    requires forall k :: k in c.jobs && k != j ==> Weight(c, s, k) == Weight(c, t, k)
    ensures Work(c, t) + Weight(c, s, j) == Work(c, s) + Weight(c, t, j)
  {
    assert Weights(c, t) == Weights(c, s)[j := Weight(c, t, j)];
    TotalUpdate(c.ids, Weights(c, s), j, Weight(c, t, j));
  }
}
