/** What the policy and the sources' own answers make of an execution, without the orchestrator's
    vocabulary (src/scan_tool/application/source_orchestration.py:75-251). */
module SourceLaws {
  import opened Basics
  import opened SourceAttempts
  import opened AttemptLedger

  // ---------------------------------------------------------------- delays

  /** The base delay after doubling once per earlier attempt. */
  function Doubled(base: real, number: nat): real
    requires number >= 1
  {
    if number == 1 then base else 2.0 * Doubled(base, number - 1)
  }

  lemma {:induction false} DoubledIs(base: real, number: nat)
    requires number >= 1
    ensures Doubled(base, number) == base * Power(number - 1)
  {
    if number > 1 {
      DoubledIs(base, number - 1);
    }
  }

  /** `d` is the smaller of `x` and the maximum. */
  predicate Capped(d: real, x: real, most: real)
  {
    d <= x && d <= most && (d == x || d == most)
  }

  /** A hint is followed up to the maximum, a date in the past at once; otherwise the base delay is
      doubled per attempt and stretched by the draw's share of the jitter. */
  predicate DelayIs(r: RetryPolicy, number: nat, after: RetryAfter, draw: Draw, d: real)
    requires number >= 1
  {
    match after
    case Hint(seconds) => if seconds <= 0.0 then Capped(d, 0.0, r.maxDelay) else Capped(d, seconds, r.maxDelay)
    case NoHint => Capped(d, Doubled(r.baseDelay, number) * (1.0 + r.jitter * draw), r.maxDelay)
  }

  lemma Stretched(e: real, j: real, x: real)
    ensures e + e * j * x == e * (1.0 + j * x)
  {
    Associates(e, j, x);
  }

  lemma Associates(a: real, b: real, c: real)
    ensures a * b * c == a * (b * c)
  {
  }

  lemma DelayMeans(r: RetryPolicy, number: nat, after: RetryAfter, draw: Draw)
    requires number >= 1
    ensures DelayIs(r, number, after, draw, RetryDelay(r, number, after, draw))
  {
    if after.NoHint? {
      DoubledIs(r.baseDelay, number);
      Stretched(r.baseDelay * Power(number - 1), r.jitter, draw);
    }
  }

  // ---------------------------------------------------------------- one source

  /** A failure after which another call may help. */
  predicate MayRetry(reply: Reply)
  {
    reply.Failure? && (reply.kind == Timeout || reply.kind == RateLimited || reply.kind == Transient)
  }

  /** The record of the n-th call, of which `last` says that no other follows. */
  predicate Records(r: RetryPolicy, a: Adapter, number: nat, reply: Reply, last: bool, t: Attempt)
    requires number >= 1
  {
    && t.source == a.source && t.provider == a.provider && t.number == number
    && t.outcome == (match reply case Payload(_) => Success case Failure(kind, _, _) => Failed(kind))
    && t.retryable == !last
    && (last ==> t.wait == NoWait)
    && (!last ==> reply.Failure? && t.wait.Wait? && DelayIs(r, number, reply.after, reply.draw, t.wait.seconds))
  }

  /** The calls made to one source: each but the last failed in a way that may be retried; the last
      answered, failed for good, or was the last allowed. */
  ghost predicate Calls(r: RetryPolicy, a: Adapter, w: World, first: nat, attempts: seq<Attempt>, reply: Reply)
    requires first >= 1
  {
    var n := first + |attempts| - 1;
    && attempts != [] && n <= r.maxAttempts && reply == w(a.source, n)
    && (forall i :: 0 <= i < |attempts| ==> Records(r, a, first + i, w(a.source, first + i), i == |attempts| - 1, attempts[i]))
    && (forall m :: first <= m < n ==> MayRetry(w(a.source, m)))
    && (!MayRetry(reply) || n == r.maxAttempts)
  }

  /** The retry loop makes exactly these calls. */
  lemma {:induction false} LadderMakesCalls(r: RetryPolicy, a: Adapter, w: World, first: nat)
    requires 1 <= first <= r.maxAttempts
    ensures Calls(r, a, w, first, Ladder(r, a, w, first), Final(r, a, w, first))
    decreases r.maxAttempts - first
  {
    hide DelayIs, RetryDelay;
    var reply := w(a.source, first);
    var all := Ladder(r, a, w, first);
    if reply.Failure? {
      DelayMeans(r, first, reply.after, reply.draw);
    }
    if Continues(r, first, reply) {
      LadderMakesCalls(r, a, w, first + 1);
      var rest := Ladder(r, a, w, first + 1);
      assert all == [AttemptOf(r, a, first, reply)] + rest;
      forall i | 0 <= i < |all| ensures Records(r, a, first + i, w(a.source, first + i), i == |all| - 1, all[i]) {
        if i > 0 {
          assert Records(r, a, first + 1 + (i - 1), w(a.source, first + 1 + (i - 1)), i - 1 == |rest| - 1, rest[i - 1]);
        }
      }
    } else {
      assert all == [AttemptOf(r, a, first, reply)];
    }
  }

  // ---------------------------------------------------------------- which sources

  /** The i-th source of the policy's order is known and permitted. */
  predicate MayAsk(adapters: map<SourceId, Adapter>, p: Policy, i: nat)
  {
    i < |p.order| && p.order[i] in adapters && p.order[i] in p.allowed && (p.fallback || i == 0)
  }

  /** The places in the policy's order of the sources asked: ascending, and each may be asked. */
  ghost predicate Places(adapters: map<SourceId, Adapter>, p: Policy, at: seq<nat>)
  {
    && (forall j, k :: 0 <= j < k < |at| ==> at[j] < at[k])
    && forall j :: 0 <= j < |at| ==> MayAsk(adapters, p, at[j])
  }

  function Asked(adapters: map<SourceId, Adapter>, p: Policy, at: seq<nat>): (s: seq<Adapter>)
    requires forall j :: 0 <= j < |at| ==> MayAsk(adapters, p, at[j])
  {
    seq(|at|, j requires 0 <= j < |at| && MayAsk(adapters, p, at[j]) => adapters[p.order[at[j]]])
  }

  ghost predicate AllPlaces(adapters: map<SourceId, Adapter>, p: Policy, n: nat, at: seq<nat>)
  {
    && Places(adapters, p, at) && (forall j :: 0 <= j < |at| ==> at[j] < n)
    && forall i :: 0 <= i < n && MayAsk(adapters, p, i) ==> exists j :: 0 <= j < |at| && at[j] == i
  }

  lemma {:induction false} SelectedPlaces(adapters: map<SourceId, Adapter>, p: Policy, n: nat) returns (at: seq<nat>)
    requires n <= |p.order| && (p.fallback || n <= 1)
    ensures AllPlaces(adapters, p, n, at) && Asked(adapters, p, at) == Select(adapters, p, p.order[..n])
  {
    hide AllPlaces, MayAsk;
    if n == 0 {
      at := [];
      NoPlaces(adapters, p);
    } else {
      assert p.order[..n][..n - 1] == p.order[..n - 1];
      var was := SelectedPlaces(adapters, p, n - 1);
      at := if MayAsk(adapters, p, n - 1) then was + [n - 1] else was;
      NextPlace(adapters, p, n, was, at);
      NextAsked(adapters, p, n, was, at);
    }
  }

  lemma NoPlaces(adapters: map<SourceId, Adapter>, p: Policy)
    ensures AllPlaces(adapters, p, 0, []) && Asked(adapters, p, []) == Select(adapters, p, [])
  {
  }

  lemma NextPlace(adapters: map<SourceId, Adapter>, p: Policy, n: nat, was: seq<nat>, at: seq<nat>)
    requires n > 0 && AllPlaces(adapters, p, n - 1, was)
    requires at == if MayAsk(adapters, p, n - 1) then was + [n - 1] else was
    ensures AllPlaces(adapters, p, n, at)
  {
    hide MayAsk;
    forall i | 0 <= i < n && MayAsk(adapters, p, i) ensures exists j :: 0 <= j < |at| && at[j] == i {
      if i < n - 1 {
        var j :| 0 <= j < |was| && was[j] == i;
        assert at[j] == i;
      } else {
        assert at[|was|] == n - 1;
      }
    }
  }

  lemma NextAsked(adapters: map<SourceId, Adapter>, p: Policy, n: nat, was: seq<nat>, at: seq<nat>)
    requires 0 < n <= |p.order| && (p.fallback || n <= 1) && AllPlaces(adapters, p, n - 1, was) && AllPlaces(adapters, p, n, at)
    requires at == if MayAsk(adapters, p, n - 1) then was + [n - 1] else was
    requires Asked(adapters, p, was) == Select(adapters, p, p.order[..n - 1])
    ensures Asked(adapters, p, at) == Select(adapters, p, p.order[..n])
  {
    assert p.order[..n][..n - 1] == p.order[..n - 1] && p.order[..n][n - 1] == p.order[n - 1];
    assert MayAsk(adapters, p, n - 1) <==> p.order[n - 1] in adapters && p.order[n - 1] in p.allowed;
    assert Select(adapters, p, p.order[..n - 1]) + [] == Select(adapters, p, p.order[..n - 1]);
    hide MayAsk;
  }

  lemma UsablePlaces(adapters: map<SourceId, Adapter>, p: Policy) returns (at: seq<nat>)
    ensures AllPlaces(adapters, p, |p.order|, at) && Asked(adapters, p, at) == Usable(adapters, p)
  {
    var n := if p.fallback || p.order == [] then |p.order| else 1;
    assert p.order[..|p.order|] == p.order;
    at := SelectedPlaces(adapters, p, n);
  }

  // ---------------------------------------------------------------- the execution

  /** What an execution is, from the places it asked: each but the last failed; a source that may be
      asked is left out only behind one that answered. */
  ghost predicate Asks(r: RetryPolicy, adapters: map<SourceId, Adapter>, p: Policy, w: World, at: seq<nat>, x: Execution)
    requires r.maxAttempts >= 1
  {
    && Places(adapters, p, at)
    && var asked := Asked(adapters, p, at);
    && x.attempts == Trail(r, asked, w)
    && (forall j :: 0 <= j < |at| - 1 ==> Final(r, asked[j], w, 1).Failure?)
    && (forall i :: MayAsk(adapters, p, i) ==> i in at || (at != [] && at[|at| - 1] < i && Final(r, asked[|at| - 1], w, 1).Payload?))
    && (x.Succeeded? <==> at != [] && Final(r, asked[|at| - 1], w, 1).Payload?)
    && (x.Succeeded? ==> Responds(r, asked, w, x.response))
    && (x.GaveUp? ==> (x.code == SourcesRateLimited <==> at != [] && Final(r, asked[|at| - 1], w, 1).kind == RateLimited)
                      && (x.code != SourcesRateLimited ==> x.code == SourceUnavailable))
  }

  /** The response is the last source's answer and names the earlier ones, in order. */
  ghost predicate Responds(r: RetryPolicy, asked: seq<Adapter>, w: World, y: Response)
    requires r.maxAttempts >= 1 && asked != []
  {
    var n := |asked| - 1;
    && y.source == asked[n].source && y.provider == asked[n].provider && Final(r, asked[n], w, 1) == Payload(y.body)
    && |y.fallbackFrom| == n && forall j :: 0 <= j < n ==> y.fallbackFrom[j] == asked[j].source
  }

  /** Where the rules allow and the client is online, the sources are asked in the policy's order,
      only the first of it without fallback, until one answers. */
  lemma RunAsks(r: RetryPolicy, adapters: map<SourceId, Adapter>, p: Policy, w: World) returns (at: seq<nat>)
    requires r.maxAttempts >= 1 && p.rules == Allowed && !p.offline
    ensures Asks(r, adapters, p, w, at, Run(r, adapters, p, w))
  {
    hide Usable, MayAsk, Final, Trail, Run, Reached, Responds, Places;
    var all := UsablePlaces(adapters, p);
    var n := Reached(r, Usable(adapters, p), w);
    ReachedAsked(r, Usable(adapters, p), w);
    RunConcludes(r, adapters, p, w, n);
    at := all[..n];
    PlacesPrefix(adapters, p, all, n);
    assert Asked(adapters, p, at) == Usable(adapters, p)[..n];
    forall i | MayAsk(adapters, p, i) && i !in at ensures at != [] && at[n - 1] < i && Final(r, Asked(adapters, p, at)[n - 1], w, 1).Payload? {
      PlaceBehind(adapters, p, all, n, i);
    }
  }

  lemma PlacesPrefix(adapters: map<SourceId, Adapter>, p: Policy, all: seq<nat>, n: nat)
    requires Places(adapters, p, all) && n <= |all|
    ensures Places(adapters, p, all[..n]) && forall j :: 0 <= j < |all| ==> MayAsk(adapters, p, all[j])
  {
    hide MayAsk;
  }

  lemma ReachedAsked(r: RetryPolicy, sources: seq<Adapter>, w: World)
    requires r.maxAttempts >= 1
    ensures var n := Reached(r, sources, w);
      && (forall i :: 0 <= i < n - 1 ==> Final(r, sources[i], w, 1).Failure?)
      && (1 <= n < |sources| ==> Final(r, sources[n - 1], w, 1).Payload?)
  {
    hide Final, Reached;
    var n := Reached(r, sources, w);
    forall i | 0 <= i < n - 1 ensures Final(r, sources[i], w, 1).Failure? {
      ReachedStops(r, sources, w, i);
    }
    if 1 <= n < |sources| {
      ReachedStops(r, sources, w, n - 1);
    }
  }

  lemma PlaceBehind(adapters: map<SourceId, Adapter>, p: Policy, all: seq<nat>, n: nat, i: nat)
    requires AllPlaces(adapters, p, |p.order|, all) && n <= |all| && (all != [] ==> n >= 1) && MayAsk(adapters, p, i) && i !in all[..n]
    ensures 1 <= n < |all| && all[n - 1] < i
  {
    assert forall k :: 0 <= k < n ==> all[..n][k] == all[k] && all[k] in all[..n];
    var j :| 0 <= j < |all| && all[j] == i;
  }

  lemma RunConcludes(r: RetryPolicy, adapters: map<SourceId, Adapter>, p: Policy, w: World, n: nat)
    requires r.maxAttempts >= 1 && p.rules == Allowed && !p.offline && n == Reached(r, Usable(adapters, p), w)
    ensures var x, asked := Run(r, adapters, p, w), Usable(adapters, p)[..n];
      && x.attempts == Trail(r, asked, w)
      && (x.Succeeded? <==> asked != [] && Final(r, asked[|asked| - 1], w, 1).Payload?)
      && (x.Succeeded? ==> Responds(r, asked, w, x.response))
      && (x.GaveUp? ==> (x.code == SourcesRateLimited <==> asked != [] && Final(r, asked[|asked| - 1], w, 1).kind == RateLimited)
                        && (x.code != SourcesRateLimited ==> x.code == SourceUnavailable))
  {
    hide Usable, Final, Trail, Reached;
  }

  /** Rules that restrict come before the lack of a connection, and that before rules that do not
      allow; none of these asks anyone. */
  lemma GatedAsksNobody(r: RetryPolicy, adapters: map<SourceId, Adapter>, p: Policy, w: World)
    requires r.maxAttempts >= 1
    ensures p.rules == Restricted ==> Run(r, adapters, p, w) == GaveUp(RuleRestricted, [])
    ensures p.rules != Restricted && p.offline ==> Run(r, adapters, p, w) == GaveUp(SourceUnavailable, [])
    ensures p.rules == Unconfirmed && !p.offline ==> Run(r, adapters, p, w) == GaveUp(RuleRestricted, [])
  {
  }

  // ---------------------------------------------------------------- what a caller can rely on

  lemma TrailSources(r: RetryPolicy, asked: seq<Adapter>, w: World, j: nat) returns (i: nat)
    requires ValidRetry(r) && j < |Trail(r, asked, w)|
    ensures i < |asked| && Trail(r, asked, w)[j].source == asked[i].source && Trail(r, asked, w)[j].provider == asked[i].provider
  {
    var m;
    i, m := TrailRung(r, asked, w, j);
    RungInTrail(r, asked, w, i, m);
    LadderHasRungs(r, asked[i], w, 1);
    hide Trail, Ladder;
    assert Rung(r, asked[i], 1 + m, m == |Ladder(r, asked[i], w, 1)| - 1, Ladder(r, asked[i], w, 1)[m]);
  }

  /** Without fallback nobody but the first source of the policy's order is ever asked, and no response
      is another's. */
  lemma WithoutFallback(r: RetryPolicy, adapters: map<SourceId, Adapter>, p: Policy, w: World)
    requires ValidRetry(r) && Filed(adapters) && !p.fallback
    ensures var x := Run(r, adapters, p, w);
      && (forall i :: 0 <= i < |x.attempts| ==> p.order != [] && x.attempts[i].source == p.order[0])
      && (x.Succeeded? ==> p.order != [] && x.response.source == p.order[0] && x.response.fallbackFrom == [])
  {
    if p.rules == Allowed && !p.offline {
      var at := RunAsks(r, adapters, p, w);
      OnePlaceAtMost(adapters, p, at);
      var x, asked := Run(r, adapters, p, w), Asked(adapters, p, at);
      hide Run, Trail, Final, Usable;
      forall i | 0 <= i < |x.attempts| ensures p.order != [] && x.attempts[i].source == p.order[0] {
        var k := TrailSources(r, asked, w, i);
        assert MayAsk(adapters, p, at[k]);
      }
      if x.Succeeded? {
        assert MayAsk(adapters, p, at[|at| - 1]);
      }
    }
  }

  lemma OnePlaceAtMost(adapters: map<SourceId, Adapter>, p: Policy, at: seq<nat>)
    requires Places(adapters, p, at) && !p.fallback
    ensures |at| <= 1
  {
    assert |at| > 1 ==> at[0] < at[1];
    assert forall j :: 0 <= j < |at| ==> MayAsk(adapters, p, at[j]) && at[j] == 0;
  }

  /** Whoever responds stands in the policy's order, known and permitted; every known and permitted
      source before it was asked and failed, and is named. */
  lemma ResponderInOrder(r: RetryPolicy, adapters: map<SourceId, Adapter>, p: Policy, w: World) returns (i: nat)
    requires ValidRetry(r) && Filed(adapters) && Run(r, adapters, p, w).Succeeded?
    ensures var y := Run(r, adapters, p, w).response;
      && i < |p.order| && y.source == p.order[i] && p.order[i] in adapters && p.order[i] in p.allowed
      && y.provider == adapters[p.order[i]].provider && Final(r, adapters[p.order[i]], w, 1) == Payload(y.body)
      && forall k :: 0 <= k < i && p.order[k] in adapters && p.order[k] in p.allowed ==>
           Final(r, adapters[p.order[k]], w, 1).Failure? && p.order[k] in y.fallbackFrom
  {
    var at := RunAsks(r, adapters, p, w);
    var y := Run(r, adapters, p, w).response;
    hide Run, Trail, Final, Usable;
    var asked, n := Asked(adapters, p, at), |at| - 1;
    i := at[n];
    assert MayAsk(adapters, p, i);
    forall k | 0 <= k < i && p.order[k] in adapters && p.order[k] in p.allowed
      ensures Final(r, adapters[p.order[k]], w, 1).Failure? && p.order[k] in y.fallbackFrom
    {
      assert MayAsk(adapters, p, k);
      var j :| 0 <= j < |at| && at[j] == k;
      assert j < n && asked[j] == adapters[p.order[k]];
      assert y.fallbackFrom[j] == p.order[k];
    }
  }

  /** An execution that gives up although it may ask has asked every known and permitted source, the
      first of the order only without fallback, and each one failed. */
  lemma GaveUpAskedAll(r: RetryPolicy, adapters: map<SourceId, Adapter>, p: Policy, w: World, i: nat)
    requires ValidRetry(r) && Filed(adapters) && p.rules == Allowed && !p.offline && Run(r, adapters, p, w).GaveUp?
    requires i < |p.order| && p.order[i] in adapters && p.order[i] in p.allowed && (p.fallback || i == 0)
    ensures Final(r, adapters[p.order[i]], w, 1).Failure?
    ensures exists j :: 0 <= j < |Run(r, adapters, p, w).attempts| && Run(r, adapters, p, w).attempts[j].source == p.order[i]
  {
    var at := RunAsks(r, adapters, p, w);
    hide Run, Trail, Usable, Final;
    assert MayAsk(adapters, p, i);
    var asked := Asked(adapters, p, at);
    var k :| 0 <= k < |at| && at[k] == i;
    assert asked[k] == adapters[p.order[i]];
    LadderMakesCalls(r, asked[k], w, 1);
    RungInTrail(r, asked, w, k, 0);
    hide Ladder;
    assert Records(r, asked[k], 1, w(asked[k].source, 1), 0 == |Ladder(r, asked[k], w, 1)| - 1, Ladder(r, asked[k], w, 1)[0]);
  }
}
