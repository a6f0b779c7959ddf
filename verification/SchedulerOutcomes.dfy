/** What each job's workers answer, and that a run reports exactly that: a job is tried again while
    its worker asks for it within the allowance, and its result is its last attempt's
    (src/scan_tool/application/scheduler.py:277-329). */
module SchedulerOutcomes {
  import opened Basics
  import opened DependencyGraph
  import opened SchedulerModel
  import opened SchedulerSteps
  import opened SchedulerPass

  /** The outcome of a job's n-th attempt, counted from one; an exception of the executor is one. */
  type Workers = (JobId, nat) -> WorkerOutcome

  predicate AsksRetry(w: Workers, j: JobId, n: nat)
  {
    w(j, n).status == Failed && w(j, n).retryable
  }

  /** Every attempt before the n-th asked to be retried. */
  ghost predicate RetriedBefore(w: Workers, j: JobId, n: nat)
  {
    forall m :: 1 <= m < n ==> AsksRetry(w, j, m)
  }

  function ResultOf(c: Config, j: JobId, n: nat, o: OutcomeFields): JobResult
    requires j in c.jobs
  {
    JobResult(j, c.jobs[j].problem, o.status, n, o.error,
              if o.checkpoint.Some? then o.checkpoint else c.jobs[j].checkpoint, None)
  }

  /** A dispatched job ended with its last attempt's outcome, which could not be retried. */
  ghost predicate EndedWith(c: Config, w: Workers, j: JobId, r: JobResult)
    requires j in c.jobs
  {
    r.attempts > 0 ==>
      && RetriedBefore(w, j, r.attempts) && r == ResultOf(c, j, r.attempts, w(j, r.attempts))
      && !(AsksRetry(w, j, r.attempts) && r.attempts < c.jobs[j].maxAttempts)
  }

  ghost predicate JobFaithful(c: Config, w: Workers, s: State, j: JobId)
    requires j in c.jobs && j in s.attempts
  {
    && (j in s.pending ==> RetriedBefore(w, j, s.attempts[j] + 1))
    && (j in s.active ==> RetriedBefore(w, j, s.attempts[j]))
    && (j in s.results ==> EndedWith(c, w, j, s.results[j]))
  }

  ghost predicate Faithful(c: Config, w: Workers, s: State)
  {
    forall j :: j in c.jobs && j in s.attempts ==> JobFaithful(c, w, s, j)
  }

  lemma StartFaithful(c: Config, w: Workers)
    ensures Faithful(c, w, Start(c))
  {
    forall j | j in c.jobs && j in Start(c).attempts ensures JobFaithful(c, w, Start(c), j) {
    }
  }

  lemma UnrunFaithful(c: Config, w: Workers, s: State, t: State)
    requires Faithful(c, w, s)
    requires t.attempts == s.attempts && t.active == s.active && t.pending <= s.pending
    requires forall j :: j in t.results ==> (j in s.results && t.results[j] == s.results[j]) || t.results[j].attempts == 0
    ensures Faithful(c, w, t)
  {
    forall j | j in c.jobs && j in t.attempts ensures JobFaithful(c, w, t, j) {
      assert JobFaithful(c, w, s, j);
    }
  }

  lemma DispatchFaithful(c: Config, w: Workers, s: State, j: JobId)
    requires Faithful(c, w, s) && j in c.jobs && j in s.attempts && j in s.pending && j !in s.results
    ensures Faithful(c, w, Dispatch(c, s, j))
  {
    hide Increment, Observe;
    var t := Dispatch(c, s, j);
    forall k | k in c.jobs && k in t.attempts ensures JobFaithful(c, w, t, k) {
      assert JobFaithful(c, w, s, k);
    }
  }

  lemma FinishFaithful(c: Config, w: Workers, s: State, j: JobId)
    requires Faithful(c, w, s) && j in c.jobs && j in s.attempts && s.attempts[j] > 0 && CountsJob(c, s, j)
    requires j in s.active && j !in s.pending && j !in s.results
    ensures Faithful(c, w, Finish(c, s, j, w(j, s.attempts[j])))
  {
    hide Decrement;
    var n := s.attempts[j];
    var t := Finish(c, s, j, w(j, n));
    forall k | k in c.jobs && k in t.attempts ensures JobFaithful(c, w, t, k) {
      assert JobFaithful(c, w, s, k);
      if k == j {
        assert Retries(c, s, j, w(j, n)) <==> AsksRetry(w, j, n) && n < c.jobs[j].maxAttempts;
        assert RunResult(c, s, j, w(j, n)) == ResultOf(c, j, n, w(j, n));
      }
    }
  }

  lemma ActivePlaces(c: Config, s: State, j: JobId)
    requires Inv(c, s) && j in s.active
    ensures j in c.jobs && j in s.attempts && s.attempts[j] > 0 && j !in s.pending && j !in s.results
  {
    hide OrderLinear, ResultsOk, LoadOk;
  }

  lemma PendingPlaces(c: Config, s: State, j: JobId)
    requires Inv(c, s) && j in s.pending
    ensures j !in s.results
  {
    hide AttemptsExact, OrderLinear, ResultsOk, LoadOk;
  }

  lemma {:induction false} PassFaithful(c: Config, w: Workers, ready: seq<Job>, s: State)
    requires ValidConfig(c) && Inv(c, s) && ReadyList(c, ready, s) && Faithful(c, w, s)
    requires forall k :: 0 <= k < |ready| ==> ready[k].id in c.jobs && ready[k].id in s.attempts
    ensures Faithful(c, w, PassOver(c, ready, s))
  {
    hide Inv, ValidConfig, Ready, HasCapacity, Faithful, Dispatch;
    if ready != [] {
      var n := |ready| - 1;
      var t := PassOver(c, ready[..n], s);
      PassFaithful(c, w, ready[..n], s);
      PassKeepsInv(c, ready[..n], s);
      NextStillPending(c, ready, s, t);
      PendingPlaces(c, t, ready[n].id);
      assert ReadyJob(c, ready[n], s);
      if HasCapacity(c.limits, ready[n], t.counters) {
        DispatchFaithful(c, w, t, ready[n].id);
      }
    }
  }
}
