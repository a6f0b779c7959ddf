/** What one call, one start and one end mean in the pool, and where a caller's answer comes from
    (src/scan_tool/application/scheduler.py:74-125). */
module PoolLaws {
  import opened Basics
  import opened InFlightPool

  /** The task has been started or created for this key and is not forgotten. */
  predicate Current(s: State, i: nat, k: Key)
  {
    i < |s.tasks| && s.tasks[i].key == k && !s.tasks[i].phase.Forgotten?
  }

  /** A call waits on the one current task of its capability and request; if there is none, exactly one
      new task is made for it, waiting for a permit. Nobody else is touched. */
  lemma CallWaits(s: State, c: Capability, r: Request)
    requires Inv(s) && c in s.limits && r != EMPTY
    ensures Enabled(s, Execute(c, r))
    ensures var t := Next(s, Execute(c, r));
      && |t.calls| == |s.calls| + 1 && t.calls[..|s.calls|] == s.calls && t.calls[|s.calls|].state == Awaiting
      && Current(t, t.calls[|s.calls|].task, Key(c, r))
      && t.tasks == (if exists i :: Current(s, i, Key(c, r)) then s.tasks else s.tasks + [Task(Key(c, r), Waiting)])
      && t.permits == s.permits && t.active == s.active && t.maxima == s.maxima
  {
    var k := Key(c, r);
    if k in s.inflight {
      assert Holds(s, k, s.inflight[k]);
      assert Current(s, s.inflight[k], k);
    }
    forall i | Current(s, i, k) ensures k in s.inflight && s.inflight[k] == i {
      assert Listed(s, i);
    }
  }

  /** A waiting task may start exactly when fewer operations of its capability run than the limit. */
  lemma MayStartIff(s: State, i: nat)
    requires Inv(s)
    ensures Enabled(s, Acquire(i))
      <==> (i < |s.tasks| && s.tasks[i].phase == Waiting && s.tasks[i].key.capability in s.limits
            && Count(s.tasks, s.tasks[i].key.capability) < s.limits[s.tasks[i].key.capability])
  {
    if i < |s.tasks| {
      assert Listed(s, i);
      assert CounterOk(s, s.tasks[i].key.capability);
    }
  }

  /** What happens to one task: a start makes it run, an end gives it the operation's outcome, giving up
      while waiting that of a cancellation, and the callback leaves its outcome. */
  predicate TaskMoves(was: Task, next: Task, i: nat, a: Step)
  {
    && next.key == was.key
    && match a
       case Acquire(k) => next.phase == if k == i then Running else was.phase
       case Finish(k, o) => next.phase == if k == i then Done(o) else was.phase
       case CancelWaiting(k) => next.phase == if k == i then Done(Cancelled) else was.phase
       case Forget(k) => if k == i then was.phase.Done? && next.phase == Forgotten(was.phase.outcome) else next.phase == was.phase
       case _ => next.phase == was.phase
  }

  lemma TasksMove(s: State, a: Step)
    requires Enabled(s, a)
    ensures |s.tasks| <= |Next(s, a).tasks| && forall i :: 0 <= i < |s.tasks| ==> TaskMoves(s.tasks[i], Next(s, a).tasks[i], i, a)
    ensures forall i :: |s.tasks| <= i < |Next(s, a).tasks| ==> Next(s, a).tasks[i].phase == Waiting
  {
  }

  /** A caller that returns has its task's outcome; one that leaves has none; other callers stay as they are. */
  lemma CallsMove(s: State, a: Step, j: nat)
    requires Inv(s) && Enabled(s, a) && j < |s.calls|
    ensures j < |Next(s, a).calls| && Next(s, a).calls[j].task == s.calls[j].task && s.calls[j].task < |s.tasks|
    ensures Next(s, a).calls[j].state
      == (if a == Return(j) then Got(OutcomeOf(s.tasks[s.calls[j].task])) else if a == Leave(j) then Left else s.calls[j].state)
  {
    assert CallOk(s, s.calls[j]);
  }

  function OutcomeOf(t: Task): Outcome
  {
    match t.phase
    case Done(o) => o
    case Forgotten(o) => o
    case _ => Cancelled
  }

  /** This step gave the task its outcome. */
  ghost predicate Ended(s: State, steps: seq<Step>, k: nat, i: nat, o: Outcome)
  {
    && k < |steps| && Enabled(Run(s, steps[..k]), steps[k])
    && (steps[k] == Finish(i, o) || (steps[k] == CancelWaiting(i) && o == Cancelled))
  }

  /** A finished task's outcome is what its operation ended with, or it was cancelled before it began. */
  lemma {:induction false} OutcomeIsTheOperations(limits: map<Capability, nat>, steps: seq<Step>, i: nat)
    requires i < |Run(Start(limits), steps).tasks| && Finished(Run(Start(limits), steps).tasks[i].phase)
    ensures exists k: nat :: Ended(Start(limits), steps, k, i, Run(Start(limits), steps).tasks[i].phase.outcome)
  {
    var s := Start(limits);
    if steps != [] {
      var n := |steps| - 1;
      var mid := Run(s, steps[..n]);
      var o := Run(s, steps).tasks[i].phase.outcome;
      if Enabled(mid, steps[n]) {
        TasksMove(mid, steps[n]);
      }
      if Enabled(mid, steps[n]) && (steps[n] == CancelWaiting(i) || (steps[n].Finish? && steps[n].task == i)) {
        assert Ended(s, steps, n, i, o);
      } else {
        hide Enabled, Next;
        assert i < |mid.tasks| && Finished(mid.tasks[i].phase) && mid.tasks[i].phase.outcome == o;
        OutcomeIsTheOperations(limits, steps[..n], i);
        var k: nat :| Ended(s, steps[..n], k, i, o);
        assert steps[..n][..k] == steps[..k];
        assert Ended(s, steps, k, i, o);
      }
    }
  }
}
