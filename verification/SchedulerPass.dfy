/** One dispatch pass as a function of the sorted ready list, and the proof that it is
    work-conserving (src/scan_tool/application/scheduler.py:269-296, 433-448, 475-497). */
module SchedulerPass {
  import opened DependencyGraph
  import opened SchedulerModel
  import opened SchedulerSteps

  // ---------------------------------------------------------------- the dispatch order

  function Rank(p: Priority): nat
  {
    match p
    case Critical => 0
    case High => 1
    case Normal => 2
    case Deferred => 3
  }

  /** Urgent first, then earlier queued, then by identifier. */
  predicate Before(a: JobFields, b: JobFields)
  {
    || Rank(a.priority) < Rank(b.priority)
    || (a.priority == b.priority && a.queuedAt < b.queuedAt)
    || (a.priority == b.priority && a.queuedAt == b.queuedAt && a.id < b.id)
  }

  predicate SortedJobs(jobs: seq<Job>)
  {
    forall i, k :: 0 <= i < k < |jobs| ==> Before(jobs[i], jobs[k])
  }

  function Insert(job: Job, jobs: seq<Job>): (r: seq<Job>)
    ensures multiset(r) == multiset(jobs) + multiset{job}
  {
    if jobs == [] then [job]
    else if Before(job, jobs[0]) then [job] + jobs
    else
      assert jobs == [jobs[0]] + jobs[1..];
      [jobs[0]] + Insert(job, jobs[1..])
  }

  lemma {:induction false} InsertMembers(job: Job, jobs: seq<Job>)
    ensures forall x :: x in Insert(job, jobs) ==> x == job || x in jobs
  {
    forall x | x in Insert(job, jobs) ensures x == job || x in jobs {
      assert x in multiset(Insert(job, jobs));
      assert x in multiset(jobs) ==> x in jobs;
    }
  }

  lemma FirstIsBefore(jobs: seq<Job>, job: Job, x: Job)
    requires SortedJobs(jobs) && jobs != [] && jobs[0].id != job.id && !Before(job, jobs[0])
    requires x == job || x in jobs[1..]
    ensures Before(jobs[0], x)
  {
    if x != job {
      var i :| 0 <= i < |jobs[1..]| && jobs[1..][i] == x;
      assert Before(jobs[0], jobs[i + 1]);
    }
  }

  lemma SortedCons(x: Job, rest: seq<Job>)
    requires SortedJobs(rest) && forall k :: 0 <= k < |rest| ==> Before(x, rest[k])
    ensures SortedJobs([x] + rest)
  {
    hide Before;
  }

  lemma {:induction false} InsertSorted(job: Job, jobs: seq<Job>)
    requires SortedJobs(jobs) && forall k :: 0 <= k < |jobs| ==> jobs[k].id != job.id
    ensures SortedJobs(Insert(job, jobs))
  {
    if jobs != [] && !Before(job, jobs[0]) {
      var rest := Insert(job, jobs[1..]);
      InsertSorted(job, jobs[1..]);
      InsertMembers(job, jobs[1..]);
      hide Insert;
      forall k | 0 <= k < |rest| ensures Before(jobs[0], rest[k]) {
        assert rest[k] in rest;
        FirstIsBefore(jobs, job, rest[k]);
      }
      SortedCons(jobs[0], rest);
    } else if jobs != [] {
      forall k | 0 <= k < |jobs| ensures Before(job, jobs[k]) {
        assert k > 0 ==> Before(jobs[0], jobs[k]);
      }
    }
  }

  predicate UniqueIds(jobs: seq<Job>)
  {
    forall i, k :: 0 <= i < k < |jobs| ==> jobs[i].id != jobs[k].id
  }

  /** The sort of the source: the one ordering of the jobs by priority, queue time and identifier. */
  function Sorted(jobs: seq<Job>): (r: seq<Job>)
    requires UniqueIds(jobs)
    ensures SortedJobs(r) && multiset(r) == multiset(jobs)
  {
    if jobs == [] then []
    else
      var r := Sorted(jobs[1..]);
      assert jobs == [jobs[0]] + jobs[1..];
      OthersDiffer(jobs, r);
      InsertSorted(jobs[0], r);
      Insert(jobs[0], r)
  }

  lemma OthersDiffer(jobs: seq<Job>, r: seq<Job>)
    requires UniqueIds(jobs) && jobs != [] && multiset(r) == multiset(jobs[1..])
    ensures forall k :: 0 <= k < |r| ==> r[k].id != jobs[0].id
  {
    forall k | 0 <= k < |r| ensures r[k].id != jobs[0].id {
      assert r[k] in multiset(jobs[1..]);
      var i :| 0 <= i < |jobs[1..]| && jobs[1..][i] == r[k];
      assert jobs[i + 1] == r[k];
    }
  }

  // ---------------------------------------------------------------- one pass

  /** Jobs are tried in turn; a job without capacity at its turn is passed over. */
  function PassOver(c: Config, ready: seq<Job>, s: State): (t: State)
    requires forall k :: 0 <= k < |ready| ==> ready[k].id in c.jobs && ready[k].id in s.attempts
    ensures forall j :: j in s.attempts ==> j in t.attempts
  {
    if ready == [] then s
    else
      var n := |ready| - 1;
      var t := PassOver(c, ready[..n], s);
      if HasCapacity(c.limits, ready[n], t.counters) then Dispatch(c, t, ready[n].id) else t
  }

  /** What a pass is given: different pending jobs whose dependencies are complete. */
  ghost predicate ReadyList(c: Config, ready: seq<Job>, s: State)
  {
    && SortedJobs(ready)
    && forall k :: 0 <= k < |ready| ==> ReadyJob(c, ready[k], s)
  }

  ghost predicate ReadyJob(c: Config, job: Job, s: State)
  {
    && job.id in s.pending && job.id in c.jobs && job.id in c.deps && job.id in s.attempts
    && c.jobs[job.id] == job && Ready(c, s.results, job.id)
  }

  ghost predicate Moved(s: State, t: State, ready: seq<Job>)
  {
    && t.results == s.results
    && (forall j :: j in t.pending ==> j in s.pending)
    && (forall j :: j in s.pending && j !in t.pending ==> exists k :: 0 <= k < |ready| && ready[k].id == j)
  }

  lemma ReadyIdsDiffer(c: Config, ready: seq<Job>, s: State, k: nat, n: nat)
    requires ReadyList(c, ready, s) && k < n < |ready|
    ensures ready[k].id != ready[n].id
  {
    assert Before(ready[k], ready[n]) && ReadyJob(c, ready[k], s) && ReadyJob(c, ready[n], s);
  }

  /** The earlier turns of a pass leave the next job of the list pending. */
  lemma NextStillPending(c: Config, ready: seq<Job>, s: State, t: State)
    requires ready != [] && ReadyList(c, ready, s) && Moved(s, t, ready[..|ready| - 1])
    ensures ready[|ready| - 1].id in t.pending
  {
    var n := |ready| - 1;
    assert ReadyJob(c, ready[n], s);
    forall k | 0 <= k < n ensures ready[..n][k].id != ready[n].id {
      ReadyIdsDiffer(c, ready, s, k, n);
    }
  }

  lemma {:induction false} PassKeepsInv(c: Config, ready: seq<Job>, s: State)
    requires ValidConfig(c) && Inv(c, s) && ReadyList(c, ready, s)
    ensures Inv(c, PassOver(c, ready, s)) && Work(c, PassOver(c, ready, s)) <= Work(c, s)
    ensures Moved(s, PassOver(c, ready, s), ready)
  {
    hide Inv, ValidConfig, Work, Ready, Moved, HasCapacity, Dispatch;
    if ready == [] {
      NothingMoved(s);
    } else {
      var n := |ready| - 1;
      PassKeepsInv(c, ready[..n], s);
      var t := PassOver(c, ready[..n], s);
      NextStillPending(c, ready, s, t);
      if HasCapacity(c.limits, ready[n], t.counters) {
        TurnKeepsInv(c, ready, s, t);
      } else {
        MovedOn(s, t, t, ready);
      }
    }
  }

  lemma NothingMoved(s: State)
    ensures Moved(s, s, [])
  {
  }

  lemma MovedOn(s: State, t: State, u: State, ready: seq<Job>)
    requires ready != [] && Moved(s, t, ready[..|ready| - 1]) && u.results == t.results
    requires forall j :: j in u.pending ==> j in t.pending
    requires forall j :: j in t.pending && j !in u.pending ==> j == ready[|ready| - 1].id
    ensures Moved(s, u, ready)
  {
    var n := |ready| - 1;
    forall j | j in s.pending && j !in u.pending ensures exists k :: 0 <= k < |ready| && ready[k].id == j {
      if j in t.pending {
        assert ready[n].id == j;
      } else {
        var k :| 0 <= k < n && ready[..n][k].id == j;
        assert ready[k].id == j;
      }
    }
  }

  lemma TurnKeepsInv(c: Config, ready: seq<Job>, s: State, t: State)
    requires ValidConfig(c) && Inv(c, t) && ready != [] && ReadyList(c, ready, s) && Moved(s, t, ready[..|ready| - 1])
    requires ready[|ready| - 1].id in t.pending && HasCapacity(c.limits, ready[|ready| - 1], t.counters)
    requires ready[|ready| - 1].id in t.attempts
    ensures var u := Dispatch(c, t, ready[|ready| - 1].id);
      Inv(c, u) && Work(c, u) < Work(c, t) && Moved(s, u, ready)
  {
    hide Inv, ValidConfig, Work, Ready, HasCapacity;
    var n := |ready| - 1;
    assert ReadyJob(c, ready[n], s);
    DispatchKeepsInv(c, t, ready[n].id);
    MovedOn(s, t, Dispatch(c, t, ready[n].id), ready);
  }

  /** By the counters, a job is passed over exactly when it lacked capacity at its turn, and then it
      still lacks it. */
  lemma {:induction false} CapacityDecides(c: Config, ready: seq<Job>, s: State, i: nat)
    requires ValidConfig(c) && Inv(c, s) && ReadyList(c, ready, s) && i < |ready|
    ensures LacksCapacity(c, ready, s, i, PassOver(c, ready, s))
    decreases |ready|
  {
    hide Inv, ValidConfig, Work, Ready, HasCapacity;
    var n := |ready| - 1;
    var t := PassOver(c, ready[..n], s);
    if i == n {
      PassKeepsInv(c, ready[..n], s);
      NextStillPending(c, ready, s, t);
    } else {
      CapacityDecides(c, ready[..n], s, i);
      assert ready[..n][..i] == ready[..i];
      ReadyIdsDiffer(c, ready, s, i, n);
      if !HasCapacity(c.limits, ready[i], t.counters) && HasCapacity(c.limits, ready[n], t.counters) {
        NoCapacityIsMonotone(c.limits, ready[i], ready[n], t.counters);
      }
    }
  }

  ghost predicate LacksCapacity(c: Config, ready: seq<Job>, s: State, i: nat, t: State)
    requires ReadyList(c, ready, s) && i < |ready|
  {
    && (ready[i].id in t.pending <==> !HasCapacity(c.limits, ready[i], PassOver(c, ready[..i], s).counters))
    && (ready[i].id in t.pending ==> !HasCapacity(c.limits, ready[i], t.counters))
  }

  lemma FitsInState(c: Config, s: State, j: JobId)
    requires Inv(c, s) && j in s.pending
    ensures j in c.jobs && (HasCapacity(c.limits, c.jobs[j], s.counters) <==> WithinLimits(c, s.active + {j}))
  {
    hide AttemptsExact, OrderLinear, ResultsOk, CountersExact, WithinLimits, MaximaExact, HasCapacity;
    assert LoadOk(c, s) && WithinLimits(c, s.active);
    FitsIff(c, s.active, s.counters, j);
  }

  lemma TurnPending(c: Config, ready: seq<Job>, s: State, i: nat)
    requires ValidConfig(c) && Inv(c, s) && ReadyList(c, ready, s) && i < |ready|
    ensures ready[i].id in PassOver(c, ready[..i], s).pending && ready[i].id in c.jobs && c.jobs[ready[i].id] == ready[i]
    ensures Inv(c, PassOver(c, ready[..i], s))
  {
    hide Inv, ValidConfig, Work, Ready, HasCapacity;
    assert ready[..i + 1][..i] == ready[..i];
    PassKeepsInv(c, ready[..i], s);
    NextStillPending(c, ready[..i + 1], s, PassOver(c, ready[..i], s));
    assert ReadyJob(c, ready[i], s);
  }

  /** Job `i` is still pending exactly when starting it at its turn would have broken a limit, and then
      starting it now would. */
  ghost predicate PassedOver(c: Config, ready: seq<Job>, s: State, i: nat, t: State)
    requires ReadyList(c, ready, s) && i < |ready|
  {
    && (ready[i].id in t.pending <==> !WithinLimits(c, PassOver(c, ready[..i], s).active + {ready[i].id}))
    && (ready[i].id in t.pending ==> !WithinLimits(c, t.active + {ready[i].id}))
  }

  /** A job is passed over exactly when starting it at its turn would have broken a limit, and then it
      still would at the end of the pass: no ready pending job is left that could be started. */
  lemma WorkConserving(c: Config, ready: seq<Job>, s: State, i: nat)
    requires ValidConfig(c) && Inv(c, s) && ReadyList(c, ready, s) && i < |ready|
    ensures PassedOver(c, ready, s, i, PassOver(c, ready, s))
  {
    hide Inv, ValidConfig, Work, HasCapacity, WithinLimits, PassOver, ReadyList, Moved;
    ListReady(c, ready, s);
    CapacityDecides(c, ready, s, i);
    PassKeepsInv(c, ready, s);
    TurnPending(c, ready, s, i);
    FitsInState(c, PassOver(c, ready[..i], s), ready[i].id);
    if ready[i].id in PassOver(c, ready, s).pending {
      FitsInState(c, PassOver(c, ready, s), ready[i].id);
    }
  }

  // ---------------------------------------------------------------- the order of a pass

  /** The urgency of the four priorities, pair by pair. */
  predicate MoreUrgent(x: Priority, y: Priority)
  {
    || (x == Critical && (y == High || y == Normal || y == Deferred))
    || (x == High && (y == Normal || y == Deferred))
    || (x == Normal && y == Deferred)
  }

  /** The dispatch order: urgency decides, among equals the earlier queued, and then the identifier. */
  lemma BeforeMeans(a: JobFields, b: JobFields)
    ensures Before(a, b)
      <==> (MoreUrgent(a.priority, b.priority)
            || (a.priority == b.priority && (a.queuedAt < b.queuedAt || (a.queuedAt == b.queuedAt && a.id < b.id))))
  {
  }

  lemma EarlierIsBefore(jobs: seq<Job>, i: nat, k: nat)
    requires SortedJobs(jobs) && i < k < |jobs|
    ensures Before(jobs[i], jobs[k])
  {
  }

  /** In a ready list the more urgent job has its turn first. */
  lemma UrgentFirst(c: Config, ready: seq<Job>, s: State, i: nat, k: nat)
    requires ReadyList(c, ready, s) && i < |ready| && k < |ready| && MoreUrgent(ready[i].priority, ready[k].priority)
    ensures i < k
  {
    hide ReadyJob, SortedJobs;
    if k < i {
      EarlierIsBefore(ready, k, i);
    }
  }

  /** The jobs that a pass starts, in turn. */
  function Started(c: Config, ready: seq<Job>, s: State): seq<Job>
    requires forall k :: 0 <= k < |ready| ==> ready[k].id in c.jobs && ready[k].id in s.attempts
  {
    if ready == [] then []
    else
      var n := |ready| - 1;
      Started(c, ready[..n], s) + if HasCapacity(c.limits, ready[n], PassOver(c, ready[..n], s).counters) then [ready[n]] else []
  }

  function IdsIn(jobs: seq<Job>): (ids: seq<JobId>)
    ensures |ids| == |jobs| && forall k :: 0 <= k < |jobs| ==> ids[k] == jobs[k].id
  {
    seq(|jobs|, k requires 0 <= k < |jobs| => jobs[k].id)
  }

  lemma {:induction false} StartedAre(c: Config, ready: seq<Job>, s: State)
    requires forall k :: 0 <= k < |ready| ==> ready[k].id in c.jobs && ready[k].id in s.attempts
    ensures PassOver(c, ready, s).order == s.order + IdsIn(Started(c, ready, s))
    ensures forall x :: x in Started(c, ready, s) ==> x in ready
  {
    hide HasCapacity, Increment, Observe;
    if ready != [] {
      var n := |ready| - 1;
      StartedAre(c, ready[..n], s);
      assert ready == ready[..n] + [ready[n]];
    }
  }

  lemma {:induction false} StartedSorted(c: Config, ready: seq<Job>, s: State)
    requires SortedJobs(ready) && forall k :: 0 <= k < |ready| ==> ready[k].id in c.jobs && ready[k].id in s.attempts
    ensures SortedJobs(Started(c, ready, s))
  {
    hide HasCapacity, Before, PassOver;
    if ready != [] {
      var n := |ready| - 1;
      var front := Started(c, ready[..n], s);
      StartedSorted(c, ready[..n], s);
      StartedAre(c, ready[..n], s);
      forall k | 0 <= k < |front| ensures Before(front[k], ready[n]) {
        assert front[k] in ready[..n];
        var m :| 0 <= m < n && ready[..n][m] == front[k];
        assert Before(ready[m], ready[n]);
      }
    }
  }

  /** A pass appends the jobs it starts to the dispatch order, the more urgent first. */
  lemma PassStartsInOrder(c: Config, ready: seq<Job>, s: State) returns (started: seq<Job>)
    requires ReadyList(c, ready, s)
    ensures PassOver(c, ready, s).order == s.order + IdsIn(started) && forall x :: x in started ==> x in ready
    ensures forall i, k :: 0 <= i < k < |started| ==> !MoreUrgent(started[k].priority, started[i].priority)
    ensures forall i, k :: 0 <= i < k < |started| && started[i].priority == started[k].priority ==> started[i].queuedAt <= started[k].queuedAt
  {
    hide ReadyJob, PassOver;
    ListReady(c, ready, s);
    started := Started(c, ready, s);
    StartedAre(c, ready, s);
    StartedSorted(c, ready, s);
    hide Started;
    forall i, k | 0 <= i < k < |started| ensures Before(started[i], started[k]) {
    }
  }

  lemma ListReady(c: Config, ready: seq<Job>, s: State)
    requires ReadyList(c, ready, s)
    ensures forall k :: 0 <= k < |ready| ==> ready[k].id in c.jobs && ready[k].id in s.attempts
  {
    hide Ready, SortedJobs;
    forall k | 0 <= k < |ready| ensures ready[k].id in c.jobs && ready[k].id in s.attempts {
      assert ReadyJob(c, ready[k], s);
    }
  }
}
