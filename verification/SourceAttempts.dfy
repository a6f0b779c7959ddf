/** Rules-gated retry and fallback over read-only sources
    (src/scan_tool/application/source_orchestration.py:34-251). */
module SourceAttempts {
  import opened Basics

  type SourceId = nat
  type ProviderId = nat
  type Body = nat

  datatype FailureKind = Timeout | RateLimited | Transient | Unavailable | InvalidResponse | Permanent
  datatype RuleStatus = Allowed | Restricted | Unconfirmed
  datatype Outcome = Success | Failed(kind: FailureKind)
  datatype Wait = NoWait | Wait(seconds: real)

  /** The parsed Retry-After value, if it has one. */
  datatype RetryAfter = NoHint | Hint(seconds: real)

  /** A jitter draw. */
  type Draw = x: real | 0.0 <= x < 1.0

  /** What an adapter answers to one call, with the draw made if a delay is needed. */
  datatype Reply = Payload(body: Body) | Failure(kind: FailureKind, after: RetryAfter, draw: Draw)

  datatype RetryPolicy = RetryPolicy(maxAttempts: nat, baseDelay: real, maxDelay: real, jitter: real)

  predicate ValidRetry(r: RetryPolicy)
  {
    r.maxAttempts >= 1 && r.baseDelay >= 0.0 && r.maxDelay >= 0.0 && 0.0 <= r.jitter <= 1.0
  }

  datatype Adapter = Adapter(source: SourceId, provider: ProviderId)

  datatype Attempt = Attempt(
    source: SourceId, provider: ProviderId, number: nat, outcome: Outcome, retryable: bool, wait: Wait)

  datatype Policy = Policy(rules: RuleStatus, allowed: set<SourceId>, order: seq<SourceId>, fallback: bool, offline: bool)

  datatype Response = Response(source: SourceId, provider: ProviderId, body: Body, fallbackFrom: seq<SourceId>)

  datatype ErrorCode = RuleRestricted | SourceUnavailable | SourcesRateLimited

  datatype Execution = Succeeded(response: Response, attempts: seq<Attempt>) | GaveUp(code: ErrorCode, attempts: seq<Attempt>)

  /** The answer to the n-th call of a source. */
  type World = (SourceId, nat) -> Reply

  // ---------------------------------------------------------------- delays

  predicate Retryable(kind: FailureKind)
  {
    kind.Timeout? || kind.RateLimited? || kind.Transient?
  }

  function Power(n: nat): real
  {
    if n == 0 then 1.0 else 2.0 * Power(n - 1)
  }

  function Least(a: real, b: real): real { if a < b then a else b }

  function RetryDelay(r: RetryPolicy, number: nat, after: RetryAfter, draw: Draw): real
    requires number >= 1
  {
    if after.Hint? then Least(if after.seconds < 0.0 then 0.0 else after.seconds, r.maxDelay)
    else
      var exponential := r.baseDelay * Power(number - 1);
      Least(exponential + exponential * r.jitter * draw, r.maxDelay)
  }

  lemma {:induction false} PowerPositive(n: nat)
    ensures Power(n) >= 1.0
  {
    if n > 0 { PowerPositive(n - 1); }
  }

  lemma ProductNonNegative(a: real, b: real)
    requires a >= 0.0 && b >= 0.0
    ensures a * b >= 0.0
  {
  }

  lemma DelayInBounds(r: RetryPolicy, number: nat, after: RetryAfter, draw: Draw)
    requires ValidRetry(r) && number >= 1
    ensures 0.0 <= RetryDelay(r, number, after, draw) <= r.maxDelay
  {
    PowerPositive(number - 1);
    ProductNonNegative(r.baseDelay, Power(number - 1));
    var exponential := r.baseDelay * Power(number - 1);
    ProductNonNegative(exponential, r.jitter);
    ProductNonNegative(exponential * r.jitter, draw);
  }

  // ---------------------------------------------------------------- one source

  /** The call is followed by another one. */
  predicate Continues(r: RetryPolicy, number: nat, reply: Reply)
  {
    reply.Failure? && Retryable(reply.kind) && number < r.maxAttempts
  }

  function AttemptOf(r: RetryPolicy, a: Adapter, number: nat, reply: Reply): Attempt
    requires number >= 1
  {
    Attempt(a.source, a.provider, number,
            if reply.Payload? then Success else Failed(reply.kind),
            Continues(r, number, reply),
            if Continues(r, number, reply) then Wait(RetryDelay(r, number, reply.after, reply.draw)) else NoWait)
  }

  /** The attempts at one source from the given number on. */
  function Ladder(r: RetryPolicy, a: Adapter, w: World, number: nat): seq<Attempt>
    requires 1 <= number <= r.maxAttempts
    decreases r.maxAttempts - number
  {
    var reply := w(a.source, number);
    [AttemptOf(r, a, number, reply)] + if Continues(r, number, reply) then Ladder(r, a, w, number + 1) else []
  }

  /** The last answer of a source. */
  function Final(r: RetryPolicy, a: Adapter, w: World, number: nat): Reply
    requires 1 <= number <= r.maxAttempts
    decreases r.maxAttempts - number
  {
    var reply := w(a.source, number);
    if Continues(r, number, reply) then Final(r, a, w, number + 1) else reply
  }

  lemma LadderStep(r: RetryPolicy, a: Adapter, w: World, number: nat)
    requires 1 <= number <= r.maxAttempts
    ensures var reply := w(a.source, number);
      && Ladder(r, a, w, number) == [AttemptOf(r, a, number, reply)] + (if Continues(r, number, reply) then Ladder(r, a, w, number + 1) else [])
      && Final(r, a, w, number) == if Continues(r, number, reply) then Final(r, a, w, number + 1) else reply
  {
  }

  /** Attempts first, first + 1, ... of one source; all but the last wait, within bounds, and failed. */
  ghost predicate Rungs(r: RetryPolicy, a: Adapter, first: nat, attempts: seq<Attempt>)
  {
    && attempts != [] && first + |attempts| <= r.maxAttempts + 1
    && forall i :: 0 <= i < |attempts| ==> Rung(r, a, first + i, i == |attempts| - 1, attempts[i])
  }

  ghost predicate Rung(r: RetryPolicy, a: Adapter, number: nat, last: bool, attempt: Attempt)
  {
    && attempt.source == a.source && attempt.provider == a.provider && attempt.number == number
    && (attempt.wait.NoWait? <==> last) && (attempt.retryable <==> !last)
    && (!last ==> attempt.outcome.Failed? && Retryable(attempt.outcome.kind))
    && (attempt.wait.Wait? ==> 0.0 <= attempt.wait.seconds <= r.maxDelay)
  }

  /** Whatever a source answers, its attempts are numbered 1..k with k at most the maximum; only the
      last lacks a wait, every wait is within bounds, and a success is the last attempt. */
  lemma {:induction false} LadderHasRungs(r: RetryPolicy, a: Adapter, w: World, number: nat)
    requires ValidRetry(r) && 1 <= number <= r.maxAttempts
    ensures Rungs(r, a, number, Ladder(r, a, w, number))
    ensures Ladder(r, a, w, number)[|Ladder(r, a, w, number)| - 1].outcome.Success? <==> Final(r, a, w, number).Payload?
    decreases r.maxAttempts - number
  {
    var reply := w(a.source, number);
    var rest := if Continues(r, number, reply) then Ladder(r, a, w, number + 1) else [];
    var all := [AttemptOf(r, a, number, reply)] + rest;
    if reply.Failure? {
      DelayInBounds(r, number, reply.after, reply.draw);
    }
    if Continues(r, number, reply) {
      LadderHasRungs(r, a, w, number + 1);
    }
    forall i | 0 <= i < |all| ensures Rung(r, a, number + i, i == |all| - 1, all[i]) {
      if i > 0 {
        assert Rung(r, a, number + 1 + (i - 1), i - 1 == |rest| - 1, rest[i - 1]);
      }
    }
  }

  // ---------------------------------------------------------------- fallback

  /** The sources tried, in order. */
  function Usable(adapters: map<SourceId, Adapter>, p: Policy): seq<Adapter>
  {
    Select(adapters, p, if p.fallback || p.order == [] then p.order else p.order[..1])
  }

  function Select(adapters: map<SourceId, Adapter>, p: Policy, ids: seq<SourceId>): seq<Adapter>
  {
    if ids == [] then []
    else
      var id := ids[|ids| - 1];
      Select(adapters, p, ids[..|ids| - 1]) + if id in adapters && id in p.allowed then [adapters[id]] else []
  }

  /** Adapters are filed under their own source. */
  predicate Filed(adapters: map<SourceId, Adapter>)
  {
    forall id :: id in adapters ==> adapters[id].source == id
  }

  /** How many of the sources are tried: up to and including the first that answers. */
  function Reached(r: RetryPolicy, sources: seq<Adapter>, w: World): (n: nat)
    requires r.maxAttempts >= 1
    ensures n <= |sources| && (sources != [] ==> n >= 1)
  {
    if sources == [] then 0
    else if Final(r, sources[0], w, 1).Payload? then 1
    else 1 + Reached(r, sources[1..], w)
  }

  /** The attempts at several sources, one after the other. */
  function Trail(r: RetryPolicy, sources: seq<Adapter>, w: World): seq<Attempt>
    requires r.maxAttempts >= 1
  {
    if sources == [] then []
    else Trail(r, sources[..|sources| - 1], w) + Ladder(r, sources[|sources| - 1], w, 1)
  }

  function Ids(sources: seq<Adapter>): seq<SourceId>
  {
    seq(|sources|, i requires 0 <= i < |sources| => sources[i].source)
  }

  function Run(r: RetryPolicy, adapters: map<SourceId, Adapter>, p: Policy, w: World): Execution
    requires r.maxAttempts >= 1
  {
    if p.rules == Restricted then GaveUp(RuleRestricted, [])
    else if p.offline then GaveUp(SourceUnavailable, [])
    else if p.rules != Allowed then GaveUp(RuleRestricted, [])
    else
      var sources := Usable(adapters, p);
      var n := Reached(r, sources, w);
      Conclude(r, sources[..n], w)
  }

  /** The result of trying these sources, of which only the last may have answered. */
  function Conclude(r: RetryPolicy, tried: seq<Adapter>, w: World): Execution
    requires r.maxAttempts >= 1
  {
    var attempts := Trail(r, tried, w);
    if tried == [] then GaveUp(SourceUnavailable, attempts)
    else
      var last := tried[|tried| - 1];
      match Final(r, last, w, 1)
      case Payload(body) => Succeeded(Response(last.source, last.provider, body, Ids(tried[..|tried| - 1])), attempts)
      case Failure(kind, _, _) => GaveUp(if kind == RateLimited then SourcesRateLimited else SourceUnavailable, attempts)
  }

  /** The sources that were tried, read back from the attempts: each starts at number one. */
  function Tried(r: RetryPolicy, adapters: map<SourceId, Adapter>, p: Policy, w: World): seq<Adapter>
    requires r.maxAttempts >= 1
  {
    if p.rules != Allowed || p.offline then []
    else Usable(adapters, p)[..Reached(r, Usable(adapters, p), w)]
  }

  lemma RunFollowsTrail(r: RetryPolicy, adapters: map<SourceId, Adapter>, p: Policy, w: World)
    requires r.maxAttempts >= 1
    ensures Run(r, adapters, p, w).attempts == Trail(r, Tried(r, adapters, p, w), w)
  {
  }

  lemma {:induction false} ReachedStops(r: RetryPolicy, sources: seq<Adapter>, w: World, i: nat)
    requires r.maxAttempts >= 1 && i < |sources|
    ensures i + 1 < Reached(r, sources, w) ==> Final(r, sources[i], w, 1).Failure?
    ensures i + 1 == Reached(r, sources, w) ==> Final(r, sources[i], w, 1).Payload? || i + 1 == |sources|
    decreases sources
  {
    if i > 0 && Final(r, sources[0], w, 1).Failure? {
      ReachedStops(r, sources[1..], w, i - 1);
    }
  }

  /** A response is the answer of the first usable source that answered; every usable source before it
      failed and is named as a fallback. */
  lemma ResponseIsFirstAnswer(r: RetryPolicy, adapters: map<SourceId, Adapter>, p: Policy, w: World)
    requires r.maxAttempts >= 1 && Filed(adapters)
    ensures var x := Run(r, adapters, p, w); var sources := Usable(adapters, p);
      && (x.Succeeded? <==> p.rules == Allowed && !p.offline && exists i :: 0 <= i < |sources| && Answers(r, sources[i], w))
      && (x.Succeeded? ==>
          var n := |x.response.fallbackFrom|;
          && n < |sources| && x.response.source == sources[n].source && x.response.provider == sources[n].provider
          && Final(r, sources[n], w, 1) == Payload(x.response.body)
          && forall i :: 0 <= i < n ==> !Answers(r, sources[i], w) && x.response.fallbackFrom[i] == sources[i].source)
  {
    var sources := Usable(adapters, p);
    var n := Reached(r, sources, w);
    forall i | 0 <= i < |sources| ensures
      && (i + 1 < n ==> !Answers(r, sources[i], w))
      && (i + 1 == n ==> Answers(r, sources[i], w) || n == |sources|)
    {
      ReachedStops(r, sources, w, i);
    }
    if n > 0 {
      assert sources[..n][n - 1] == sources[n - 1];
      assert sources[..n][..n - 1] == sources[..n - 1];
    }
  }

  predicate Answers(r: RetryPolicy, a: Adapter, w: World)
    requires r.maxAttempts >= 1
  {
    Final(r, a, w, 1).Payload?
  }

  // ---------------------------------------------------------------- the orchestrator

  class Orchestrator {
    const retry: RetryPolicy
    const adapters: map<SourceId, Adapter>

    constructor (retry: RetryPolicy, adapters: map<SourceId, Adapter>)
      requires ValidRetry(retry) && Filed(adapters)
      ensures this.retry == retry && this.adapters == adapters
    {
      this.retry, this.adapters := retry, adapters;
    }

    predicate Valid()
    {
      ValidRetry(retry) && Filed(adapters)
    }

    method ExecuteSource(a: Adapter, w: World) returns (reply: Reply, attempts: seq<Attempt>)
      requires Valid()
      ensures attempts == Ladder(retry, a, w, 1) && reply == Final(retry, a, w, 1)
    {
      hide Ladder, Final, RetryDelay;
      attempts := [];
      reply := w(a.source, 1);
      var number := 1;
      while number <= retry.maxAttempts
        invariant 1 <= number <= retry.maxAttempts
        invariant attempts + Ladder(retry, a, w, number) == Ladder(retry, a, w, 1)
        invariant Final(retry, a, w, number) == Final(retry, a, w, 1)
        decreases retry.maxAttempts - number
      {
        reply := w(a.source, number);
        LadderStep(retry, a, w, number);
        ghost var was := attempts;
        if reply.Payload? {
          attempts := attempts + [Attempt(a.source, a.provider, number, Success, false, NoWait)];
          return;
        }
        var retryable := Retryable(reply.kind);
        var hasNext := number < retry.maxAttempts;
        var wait := NoWait;
        if retryable && hasNext {
          wait := Wait(RetryDelay(retry, number, reply.after, reply.draw));
        }
        attempts := attempts + [Attempt(a.source, a.provider, number, Failed(reply.kind), retryable && hasNext, wait)];
        if wait.NoWait? {
          return;
        }
        assert attempts + Ladder(retry, a, w, number + 1) == was + Ladder(retry, a, w, number);
        number := number + 1;
      }
    }

    method Execute(p: Policy, w: World) returns (x: Execution)
      requires Valid()
      ensures x == Run(retry, adapters, p, w)
    {
      if p.rules == Restricted {
        return GaveUp(RuleRestricted, []);
      }
      if p.offline {
        return GaveUp(SourceUnavailable, []);
      }
      if p.rules != Allowed {
        return GaveUp(RuleRestricted, []);
      }
      var ids := p.order;
      if !p.fallback && |ids| > 0 {
        ids := ids[..1];
      }
      var attempts: seq<Attempt>, failed: seq<SourceId> := [], [];
      var last: Option<FailureKind> := None;
      ghost var tried: seq<Adapter> := [];
      ghost var all := Usable(adapters, p);
      assert all == Select(adapters, p, ids);
      assert Select(adapters, p, ids[..0]) == [];
      hide Select, Usable, Run, Conclude, Reached, SoFar;
      SoFarStarts(retry, all, w);
      for i := 0 to |ids|
        invariant tried == Select(adapters, p, ids[..i])
        invariant SoFar(retry, all, tried, attempts, failed, last, w)
      {
        SelectNext(adapters, p, ids, i);
        var id := ids[i];
        if id !in adapters || id !in p.allowed {
          continue;
        }
        var reply, more := ExecuteSource(adapters[id], w);
        if reply.Payload? {
          SourceAnswered(retry, adapters, p, tried, attempts, failed, last, w);
          return Succeeded(Response(id, adapters[id].provider, reply.body, failed), attempts + more);
        }
        SourceFailed(retry, all, tried, attempts, failed, last, w);
        tried := tried + [adapters[id]];
        attempts := attempts + more;
        failed := failed + [id];
        last := Some(reply.kind);
      }
      assert ids[..|ids|] == ids;
      NobodyAnswered(retry, adapters, p, tried, attempts, failed, last, w);
      return GaveUp(if last == Some(RateLimited) then SourcesRateLimited else SourceUnavailable, attempts);
    }
  }

  // ---------------------------------------------------------------- the fallback loop

  /** The sources tried so far all failed; these are their attempts and their names. */
  ghost predicate SoFar(r: RetryPolicy, all: seq<Adapter>, tried: seq<Adapter>, attempts: seq<Attempt>, failed: seq<SourceId>,
                        last: Option<FailureKind>, w: World)
    requires r.maxAttempts >= 1
  {
    && |tried| <= |all| && tried == all[..|tried|]
    && attempts == Trail(r, tried, w) && failed == Ids(tried)
    && (forall k :: 0 <= k < |tried| ==> !Answers(r, tried[k], w))
    && last == if tried == [] then None else Some(Final(r, tried[|tried| - 1], w, 1).kind)
  }

  lemma SoFarStarts(r: RetryPolicy, all: seq<Adapter>, w: World)
    requires r.maxAttempts >= 1
    ensures SoFar(r, all, [], [], [], None, w)
  {
  }

  lemma SelectNext(adapters: map<SourceId, Adapter>, p: Policy, ids: seq<SourceId>, i: nat)
    requires i < |ids|
    ensures var tried, all := Select(adapters, p, ids[..i]), Select(adapters, p, ids);
      var next := Select(adapters, p, ids[..i + 1]);
      if ids[i] in adapters && ids[i] in p.allowed
      then next == tried + [adapters[ids[i]]] && |tried| < |all| && all[|tried|] == adapters[ids[i]]
      else next == tried
  {
    assert ids[..i + 1][..i] == ids[..i];
    SelectPrefix(adapters, p, ids, i + 1);
    var tried, next := Select(adapters, p, ids[..i]), Select(adapters, p, ids[..i + 1]);
    if next != tried {
      assert next[|tried|] == adapters[ids[i]];
    }
  }

  lemma SourceFailed(r: RetryPolicy, all: seq<Adapter>, tried: seq<Adapter>, attempts: seq<Attempt>, failed: seq<SourceId>,
                     last: Option<FailureKind>, w: World)
    requires r.maxAttempts >= 1 && SoFar(r, all, tried, attempts, failed, last, w) && |tried| < |all|
    requires !Answers(r, all[|tried|], w)
    ensures var a := all[|tried|];
      SoFar(r, all, tried + [a], attempts + Ladder(r, a, w, 1), failed + [a.source], Some(Final(r, a, w, 1).kind), w)
  {
    assert (tried + [all[|tried|]])[..|tried|] == tried;
  }

  lemma SourceAnswered(r: RetryPolicy, adapters: map<SourceId, Adapter>, p: Policy, tried: seq<Adapter>, attempts: seq<Attempt>,
                       failed: seq<SourceId>, last: Option<FailureKind>, w: World)
    requires r.maxAttempts >= 1 && p.rules == Allowed && !p.offline
    requires var all := Usable(adapters, p);
      SoFar(r, all, tried, attempts, failed, last, w) && |tried| < |all| && Answers(r, all[|tried|], w)
    ensures var a := Usable(adapters, p)[|tried|];
      Run(r, adapters, p, w)
        == Succeeded(Response(a.source, a.provider, Final(r, a, w, 1).body, failed), attempts + Ladder(r, a, w, 1))
  {
    var all, n := Usable(adapters, p), |tried|;
    ReachedIs(r, all, w, n + 1);
    assert all[..n + 1][..n] == tried;
  }

  lemma NobodyAnswered(r: RetryPolicy, adapters: map<SourceId, Adapter>, p: Policy, tried: seq<Adapter>, attempts: seq<Attempt>,
                       failed: seq<SourceId>, last: Option<FailureKind>, w: World)
    requires r.maxAttempts >= 1 && p.rules == Allowed && !p.offline
    requires SoFar(r, Usable(adapters, p), tried, attempts, failed, last, w) && tried == Usable(adapters, p)
    ensures Run(r, adapters, p, w)
      == GaveUp(if last == Some(RateLimited) then SourcesRateLimited else SourceUnavailable, attempts)
  {
    var all := Usable(adapters, p);
    if tried != [] {
      ReachedIs(r, all, w, |all|);
    }
    assert all[..|all|] == all;
  }

  lemma {:induction false} SelectPrefix(adapters: map<SourceId, Adapter>, p: Policy, ids: seq<SourceId>, n: nat)
    requires n <= |ids|
    ensures var a, b := Select(adapters, p, ids[..n]), Select(adapters, p, ids); |a| <= |b| && a == b[..|a|]
  {
    if n == |ids| {
      assert ids[..n] == ids;
    } else {
      var m := |ids| - 1;
      assert ids[..m][..n] == ids[..n];
      SelectPrefix(adapters, p, ids[..m], n);
    }
  }

  /** The number reached is the first that answered, or all. */
  lemma {:induction false} ReachedIs(r: RetryPolicy, sources: seq<Adapter>, w: World, n: nat)
    requires r.maxAttempts >= 1 && 1 <= n <= |sources|
    requires forall k :: 0 <= k < n - 1 ==> !Answers(r, sources[k], w)
    requires Answers(r, sources[n - 1], w) || n == |sources|
    ensures Reached(r, sources, w) == n
    decreases sources
  {
    if n == 1 {
      if !Answers(r, sources[0], w) {
        assert sources[1..] == [];
      }
    } else {
      assert !Answers(r, sources[0], w);
      forall k | 0 <= k < n - 2 ensures !Answers(r, sources[1..][k], w) {
        assert !Answers(r, sources[k + 1], w);
      }
      ReachedIs(r, sources[1..], w, n - 1);
    }
  }
}
