/** The budgeted breadth-first search from the seed
    (scripts/contest/flow_final_candidates.py:211-264). */
module FlowSearch {
  import opened Basics
  import opened FlowGraph
  import FlowPaths

  datatype Budget = Budget(maxHops: int, maxNodes: int, maxEdges: int)

  /** The search's variables. `done` holds the accounts whose turn is over and `paths` a way to
      reach every visited account through edges already found; the source has neither. */
  datatype Search = Search(
    related: seq<Edge>, visited: set<Address>, queue: seq<Item>, exhausted: bool,
    done: set<Address>, paths: map<Address, seq<Edge>>)

  // ---------------------------------------------------------------- invariant

  /** Every visited account has a path from the seed through found edges within the hop budget,
      and every found edge leaves an account with hops to spare. */
  ghost predicate Rooted(es: set<Edge>, seed: Address, b: Budget, s: Search)
  {
    && (forall v :: v in s.visited <==> v in s.paths)
    && (forall v :: v in s.paths ==> KnownPath(seed, b, s.related, s.paths, v))
    && (forall e :: e in s.related ==> e in es && e.from in s.paths && |s.paths[e.from]| < b.maxHops)
    && seed in s.visited
  }

  ghost predicate Bounded(b: Budget, s: Search)
  {
    && |s.related| <= Limit(b.maxEdges)
    && (|s.visited| <= 1 || |s.visited| <= b.maxNodes)
    && UniqueLocators(s.related)
  }

  /** Each visited account is done, waiting, or the one whose turn it is. */
  ghost predicate Turns(s: Search, now: set<Address>)
  {
    && (forall v :: v in s.visited <==> v in s.done || v in now || v in Waiting(s.queue))
    && (forall v :: v in s.done ==> v !in now && v !in Waiting(s.queue))
    && (forall v :: v in now ==> v !in Waiting(s.queue))
    && (forall e :: e in s.related ==> e.from in s.done || e.from in now)
    && QueueOk(s.queue, s.paths)
  }

  /** An edge that the search has left out for good, or whose far end it has. */
  ghost predicate LeftOut(es: set<Edge>, b: Budget, s: Search, e: Edge)
  {
    && e in es && e.from in s.visited
    && (|| (e !in s.related && (e.from in s.done || |s.related| >= b.maxEdges))
        || (e in s.related && e.to !in s.visited && |s.visited| >= b.maxNodes))
  }

  /** The flag is honest so far: unset, nothing was left out at an account already done;
      set, something was left out that no later step brings back. */
  ghost predicate Honest(es: set<Edge>, b: Budget, s: Search)
  {
    && Fair(es, b, s)
    && if s.exhausted then exists e :: LeftOut(es, b, s, e)
       else (forall e :: e in es && e.from in s.done ==> e in s.related) && (forall e :: e in s.related ==> e.to in s.visited)
  }

  /** Only a budget leaves anything out: an edge of an account already done is missing only when the
      edges ran out or the account is at the hop limit, an account only when the accounts ran out. */
  ghost predicate Fair(es: set<Edge>, b: Budget, s: Search)
  {
    && (forall e :: e in es && e.from in s.done ==> e in s.related || |s.related| >= b.maxEdges || AtHopLimit(b, s, e.from))
    && (forall e :: e in s.related ==> e.to in s.visited || |s.visited| >= b.maxNodes)
  }

  predicate AtHopLimit(b: Budget, s: Search, v: Address)
  {
    v in s.paths && |s.paths[v]| >= b.maxHops
  }

  ghost predicate Inv(es: set<Edge>, seed: Address, b: Budget, s: Search, now: set<Address>)
  {
    Rooted(es, seed, b, s) && Bounded(b, s) && Turns(s, now)
  }

  // ---------------------------------------------------------------- steps

  function Start(seed: Address): Search
  {
    Search([], {seed}, [Item(seed, 0)], false, {}, map[seed := []])
  }

  function Pop(s: Search): Search
    requires s.queue != []
  {
    s.(queue := s.queue[1..])
  }

  function Close(s: Search, v: Address): Search
  {
    s.(done := s.done + {v})
  }

  /** Records an edge, and its far end when that is new and fits. */
  function Take(b: Budget, s: Search, e: Edge, hops: nat): Search
    requires e.from in s.paths
  {
    var t := s.(related := s.related + [e]);
    if e.to in s.visited then t
    else if |s.visited| >= b.maxNodes then t.(exhausted := true)
    else t.(visited := s.visited + {e.to}, queue := s.queue + [Item(e.to, hops + 1)],
            paths := s.paths[e.to := s.paths[e.from] + [e]])
  }

  lemma StartOk(es: set<Edge>, seed: Address, b: Budget)
    ensures Inv(es, seed, b, Start(seed), {}) && Honest(es, b, Start(seed))
  {
    assert [Item(seed, 0)][1..] == [];
    assert Waiting([]) == {} && Waiting([Item(seed, 0)]) == {seed};
  }

  lemma PopOk(es: set<Edge>, seed: Address, b: Budget, s: Search)
    requires Inv(es, seed, b, s, {}) && s.queue != []
    ensures Inv(es, seed, b, Pop(s), {s.queue[0].node})
    ensures s.queue[0].node in s.paths && s.queue[0].hops == |s.paths[s.queue[0].node]|
    ensures Honest(es, b, s) ==> Honest(es, b, Pop(s))
  {
    hide Rooted, Bounded;
    RootedKept(es, seed, b, s, Pop(s));
    if s.exhausted && Honest(es, b, s) {
      var e :| LeftOut(es, b, s, e);
      assert LeftOut(es, b, Pop(s), e);
    }
  }

  lemma RootedKept(es: set<Edge>, seed: Address, b: Budget, s: Search, t: Search)
    requires Rooted(es, seed, b, s) && Bounded(b, s)
    requires t.related == s.related && t.visited == s.visited && t.paths == s.paths
    ensures Rooted(es, seed, b, t) && Bounded(b, t)
  {
  }

  lemma CloseOk(es: set<Edge>, seed: Address, b: Budget, s: Search, v: Address)
    requires Inv(es, seed, b, s, {v})
    ensures Inv(es, seed, b, Close(s, v), {})
  {
    hide Rooted, Bounded;
    RootedKept(es, seed, b, s, Close(s, v));
  }

  /** The path the search knows to a visited account. */
  ghost predicate KnownPath(seed: Address, b: Budget, related: seq<Edge>, paths: map<Address, seq<Edge>>, v: Address)
    requires v in paths
  {
    PathIn(Members(related), paths[v], seed, v) && |paths[v]| <= Limit(b.maxHops)
  }

  lemma TakePath(seed: Address, b: Budget, related: seq<Edge>, paths: map<Address, seq<Edge>>, e: Edge, v: Address)
    requires e.from in paths && KnownPath(seed, b, related, paths, e.from) && |paths[e.from]| < b.maxHops
    requires v in paths ==> KnownPath(seed, b, related, paths, v)
    ensures v in paths ==> KnownPath(seed, b, related + [e], paths, v)
    ensures KnownPath(seed, b, related + [e], paths[e.to := paths[e.from] + [e]], e.to)
  {
    var more := Members(related + [e]);
    assert e in related + [e] && Members(related) <= more;
    PathInMore(Members(related), more, paths[e.from], seed, e.from);
    PathGrows(more, paths[e.from], seed, e);
    if v in paths {
      PathInMore(Members(related), more, paths[v], seed, v);
    }
  }

  lemma TakeRooted(es: set<Edge>, seed: Address, b: Budget, s: Search, e: Edge, hops: nat)
    requires Rooted(es, seed, b, s) && e in es && e.from in s.paths && hops == |s.paths[e.from]| && hops < b.maxHops
    ensures Rooted(es, seed, b, Take(b, s, e, hops))
  {
    hide KnownPath;
    TakePaths(es, seed, b, s, e, hops);
    TakeEdges(es, seed, b, s, e, hops);
  }

  lemma TakeEdges(es: set<Edge>, seed: Address, b: Budget, s: Search, e: Edge, hops: nat)
    requires Rooted(es, seed, b, s) && e in es && e.from in s.paths && |s.paths[e.from]| < b.maxHops
    ensures var t := Take(b, s, e, hops);
      forall d :: d in t.related ==> d in es && d.from in t.paths && |t.paths[d.from]| < b.maxHops
  {
    hide KnownPath;
    var t := Take(b, s, e, hops);
    forall d | d in t.related ensures d in es && d.from in t.paths && |t.paths[d.from]| < b.maxHops {
      assert d in s.related || d == e;
      assert t.paths[d.from] == s.paths[d.from];
    }
  }

  lemma TakePaths(es: set<Edge>, seed: Address, b: Budget, s: Search, e: Edge, hops: nat)
    requires Rooted(es, seed, b, s) && e.from in s.paths && |s.paths[e.from]| < b.maxHops
    ensures var t := Take(b, s, e, hops); forall v :: v in t.paths ==> KnownPath(seed, b, t.related, t.paths, v)
  {
    var t := Take(b, s, e, hops);
    hide KnownPath;
    forall v | v in t.paths ensures KnownPath(seed, b, t.related, t.paths, v) {
      TakePath(seed, b, s.related, s.paths, e, v);
      SamePath(seed, b, t.related, s.paths, t.paths, v);
    }
  }

  lemma SamePath(seed: Address, b: Budget, related: seq<Edge>, p: map<Address, seq<Edge>>, q: map<Address, seq<Edge>>, v: Address)
    requires v in p && v in q && p[v] == q[v] ==> KnownPath(seed, b, related, p, v)
    ensures v in p && v in q && p[v] == q[v] ==> KnownPath(seed, b, related, q, v)
  {
  }

  lemma UniqueGrows(edges: seq<Edge>, e: Edge)
    requires UniqueLocators(edges) && forall i :: 0 <= i < |edges| ==> LocatorOf(edges[i]) != LocatorOf(e)
    ensures UniqueLocators(edges + [e])
  {
  }

  lemma TakeBounded(b: Budget, s: Search, e: Edge, hops: nat)
    requires Bounded(b, s) && |s.related| < b.maxEdges && e.from in s.paths
    requires forall i :: 0 <= i < |s.related| ==> LocatorOf(s.related[i]) != LocatorOf(e)
    ensures Bounded(b, Take(b, s, e, hops))
  {
    UniqueGrows(s.related, e);
    hide UniqueLocators;
  }

  lemma TakeTurns(b: Budget, s: Search, e: Edge, hops: nat)
    requires Turns(s, {e.from}) && (forall v :: v in s.visited <==> v in s.paths)
    requires e.from in s.paths && hops == |s.paths[e.from]|
    ensures Turns(Take(b, s, e, hops), {e.from})
  {
    var t := Take(b, s, e, hops);
    if e.to !in s.visited && |s.visited| < b.maxNodes {
      QueueAppend(s.queue, s.paths, e.to, s.paths[e.from] + [e]);
    }
  }

  lemma TakeOk(es: set<Edge>, seed: Address, b: Budget, s: Search, e: Edge, hops: nat)
    requires Inv(es, seed, b, s, {e.from}) && e in es && e.from in s.paths && hops == |s.paths[e.from]| && hops < b.maxHops
    requires |s.related| < b.maxEdges
    requires forall i :: 0 <= i < |s.related| ==> LocatorOf(s.related[i]) != LocatorOf(e)
    ensures Inv(es, seed, b, Take(b, s, e, hops), {e.from})
  {
    TakeRooted(es, seed, b, s, e, hops);
    TakeBounded(b, s, e, hops);
    TakeTurns(b, s, e, hops);
    hide Rooted, Bounded, Turns, Take;
  }

  /** What was left out stays left out. */
  lemma LeftOutKept(es: set<Edge>, b: Budget, s: Search, t: Search, d: Edge)
    requires LeftOut(es, b, s, d)
    requires s.visited <= t.visited && s.done <= t.done && |s.related| <= |t.related| && |s.visited| <= |t.visited|
    requires forall e :: e in s.related ==> e in t.related
    requires d !in s.related && d in t.related ==> d.from !in s.done && |s.related| < b.maxEdges
    requires d.to !in s.visited && d.to in t.visited ==> |s.visited| < b.maxNodes
    ensures LeftOut(es, b, t, d)
  {
  }

  /** Part of an account's turn: its first `k` edges have been seen to. */
  ghost predicate Progress(es: set<Edge>, b: Budget, s: Search, first: seq<Edge>)
  {
    && Honest(es, b, s)
    && (!s.exhausted || |s.related| < b.maxEdges ==> forall e :: e in first ==> e in s.related)
  }

  lemma TakeFair(es: set<Edge>, b: Budget, s: Search, e: Edge, hops: nat)
    requires Fair(es, b, s) && e in es && e.from in s.paths && e.from !in s.done && s.done <= s.visited
    ensures Fair(es, b, Take(b, s, e, hops))
  {
    var t := Take(b, s, e, hops);
    assert forall d :: d in t.related <==> d in s.related || d == e;
    forall d | d in es && d.from in t.done ensures d in t.related || |t.related| >= b.maxEdges || AtHopLimit(b, t, d.from) {
      if AtHopLimit(b, s, d.from) {
        assert d.from in s.visited;
      }
    }
  }

  lemma TakeHonest(es: set<Edge>, b: Budget, s: Search, first: seq<Edge>, e: Edge, hops: nat)
    requires Progress(es, b, s, first) && e in es && e.from in s.paths && e.from in s.visited
    requires e.from !in s.done && |s.related| < b.maxEdges && s.done <= s.visited
    ensures Progress(es, b, Take(b, s, e, hops), first + [e])
  {
    var t := Take(b, s, e, hops);
    assert forall d :: d in t.related <==> d in s.related || d == e;
    TakeFair(es, b, s, e, hops);
    hide Fair;
    if s.exhausted {
      var d :| LeftOut(es, b, s, d);
      LeftOutKept(es, b, s, t, d);
    } else if t.exhausted {
      assert LeftOut(es, b, t, e);
    }
  }

  lemma CloseHonest(es: set<Edge>, b: Budget, s: Search, out: seq<Edge>, v: Address)
    requires Progress(es, b, s, out) && forall e :: e in es && e.from == v ==> e in out
    ensures Honest(es, b, Close(s, v))
  {
    if s.exhausted {
      var d :| LeftOut(es, b, s, d);
      assert LeftOut(es, b, Close(s, v), d);
    }
  }

  // ---------------------------------------------------------------- the result

  /** The search missed nothing: `visited` is what the seed reaches and `related` what leaves it. */
  ghost predicate Complete(es: set<Edge>, seed: Address, related: seq<Edge>, visited: set<Address>)
  {
    && (forall v :: v in visited <==> Reachable(es, seed, v))
    && (forall e :: e in related <==> e in es && e.from in visited)
  }

  lemma VisitedIsReachable(es: set<Edge>, seed: Address, b: Budget, s: Search, v: Address)
    requires Rooted(es, seed, b, s) && v in s.visited
    ensures Reachable(es, seed, v)
  {
    assert KnownPath(seed, b, s.related, s.paths, v);
    PathInMore(Members(s.related), es, s.paths[v], seed, v);
  }

  lemma FlagIsExact(es: set<Edge>, seed: Address, b: Budget, s: Search)
    requires Inv(es, seed, b, s, {}) && Honest(es, b, s) && (s.queue == [] || s.exhausted)
    ensures !s.exhausted <==> Complete(es, seed, s.related, s.visited)
  {
    if s.exhausted {
      var d :| LeftOut(es, b, s, d);
      LeftOutIsIncomplete(es, seed, b, s, d);
    } else {
      NothingLeftOut(es, seed, b, s);
    }
  }

  lemma LeftOutIsIncomplete(es: set<Edge>, seed: Address, b: Budget, s: Search, d: Edge)
    requires Inv(es, seed, b, s, {}) && LeftOut(es, b, s, d)
    ensures !Complete(es, seed, s.related, s.visited)
  {
    if d in s.related {
      VisitedIsReachable(es, seed, b, s, d.from);
      var p :| PathIn(es, p, seed, d.from);
      PathGrows(es, p, seed, d);
      assert Reachable(es, seed, d.to);
    }
  }

  lemma NothingLeftOut(es: set<Edge>, seed: Address, b: Budget, s: Search)
    requires Inv(es, seed, b, s, {}) && Honest(es, b, s) && s.queue == [] && !s.exhausted
    ensures Complete(es, seed, s.related, s.visited)
  {
    forall v | v in s.visited ensures Reachable(es, seed, v) { VisitedIsReachable(es, seed, b, s, v); }
    AllDone(es, seed, b, s);
    forall v | Reachable(es, seed, v) ensures v in s.visited {
      var p :| PathIn(es, p, seed, v);
      PathStaysInside(es, s.visited, p, seed, v);
    }
    hide Honest, Turns, Bounded;
  }

  lemma AllDone(es: set<Edge>, seed: Address, b: Budget, s: Search)
    requires Inv(es, seed, b, s, {}) && Honest(es, b, s) && s.queue == [] && !s.exhausted
    ensures seed in s.visited
    ensures forall e :: e in es && e.from in s.visited ==> e in s.related && e.to in s.visited
    ensures forall e :: e in s.related ==> e in es && e.from in s.visited
  {
  }

  // ---------------------------------------------------------------- what fits the budgets

  /** The accounts that the seed reaches, itself included. */
  ghost function ReachedFrom(es: set<Edge>, seed: Address): set<Address>
  {
    set v | v in {seed} + (set e | e in es :: e.to) && Reachable(es, seed, v)
  }

  /** The edges that leave them. */
  ghost function LeavingFrom(es: set<Edge>, seed: Address): set<Edge>
  {
    set e | e in es && Reachable(es, seed, e.from)
  }

  ghost predicate Near(es: set<Edge>, seed: Address, maxHops: int, v: Address)
  {
    exists p :: PathIn(es, p, seed, v) && |p| < maxHops
  }

  /** The graph fits the budgets: not too many accounts are reached, not too many edges leave them,
      and each account with an outgoing edge is near enough. The order of the edges is no part of it. */
  ghost predicate Fits(es: set<Edge>, seed: Address, b: Budget)
  {
    && (|ReachedFrom(es, seed)| <= 1 || |ReachedFrom(es, seed)| <= b.maxNodes)
    && |LeavingFrom(es, seed)| <= Limit(b.maxEdges)
    && (forall e :: e in es && Reachable(es, seed, e.from) ==> Near(es, seed, b.maxHops, e.from))
  }

  /** A set flag is right: the graph does not fit. */
  ghost predicate Exact(es: set<Edge>, seed: Address, b: Budget, s: Search)
  {
    s.exhausted ==> !Fits(es, seed, b)
  }

  lemma {:induction false} UniqueSize(edges: seq<Edge>)
    requires UniqueLocators(edges)
    ensures |Members(edges)| == |edges|
  {
    if edges != [] {
      var n := |edges| - 1;
      UniqueSize(edges[..n]);
      assert edges == edges[..n] + [edges[n]];
      assert edges[n] !in edges[..n];
      assert Members(edges) == Members(edges[..n]) + {edges[n]};
    }
  }

  lemma ReachableIsCounted(es: set<Edge>, seed: Address, v: Address)
    requires Reachable(es, seed, v)
    ensures v in ReachedFrom(es, seed)
  {
    var p :| PathIn(es, p, seed, v);
    if p != [] {
      assert p[|p| - 1] in es;
    }
  }

  lemma TooManyEdges(es: set<Edge>, seed: Address, b: Budget, s: Search, e: Edge)
    requires Rooted(es, seed, b, s) && UniqueLocators(s.related)
    requires e in es && e.from in s.visited && e !in s.related && |s.related| >= b.maxEdges
    ensures !Fits(es, seed, b)
  {
    UniqueSize(s.related);
    VisitedIsReachable(es, seed, b, s, e.from);
    forall d | d in Members(s.related) ensures d in LeavingFrom(es, seed) {
      VisitedIsReachable(es, seed, b, s, d.from);
    }
    SubsetSize(Members(s.related) + {e}, LeavingFrom(es, seed));
    assert |Members(s.related) + {e}| == |s.related| + 1;
  }

  lemma TooManyAccounts(es: set<Edge>, seed: Address, b: Budget, s: Search, e: Edge)
    requires Rooted(es, seed, b, s)
    requires e in es && e.from in s.visited && e.to !in s.visited && |s.visited| >= b.maxNodes
    ensures !Fits(es, seed, b)
  {
    forall v | v in s.visited ensures v in ReachedFrom(es, seed) {
      VisitedIsReachable(es, seed, b, s, v);
      ReachableIsCounted(es, seed, v);
    }
    VisitedIsReachable(es, seed, b, s, e.from);
    var p :| PathIn(es, p, seed, e.from);
    PathGrows(es, p, seed, e);
    ReachableIsCounted(es, seed, e.to);
    SubsetSize(s.visited + {e.to}, ReachedFrom(es, seed));
    assert seed in s.visited && |s.visited - {seed}| + 1 == |s.visited|;
  }

  // ---------------------------------------------------------------- breadth first

  ghost function TrailOf(s: Search, low: nat): FlowPaths.Trail
  {
    FlowPaths.Trail(map v | v in s.paths :: None, s.queue, s.paths, s.done, low)
  }

  /** The breadth-first discipline, cut short or not: depths are finished in order, and a found edge
      leads at most one deeper. */
  ghost predicate Level(seed: Address, b: Budget, s: Search, now: set<Address>, low: nat)
  {
    && FlowPaths.Layered(TrailOf(s, low), now)
    && seed in s.paths && s.paths[seed] == []
    && (forall e :: e in s.related && e.from in s.paths && e.to in s.paths ==> OneDeeper(s, e))
    && (forall e :: e in s.related ==> e.to in s.visited || |s.visited| >= b.maxNodes)
  }

  predicate OneDeeper(s: Search, e: Edge)
    requires e.from in s.paths && e.to in s.paths
  {
    |s.paths[e.to]| <= |s.paths[e.from]| + 1
  }

  lemma StartLevel(seed: Address, b: Budget)
    ensures Level(seed, b, Start(seed), {}, 0)
  {
    assert [Item(seed, 0)][1..] == [];
    assert Waiting([]) == {} && Waiting([Item(seed, 0)]) == {seed};
  }

  lemma PopLevel(seed: Address, b: Budget, s: Search, low: nat)
    requires Level(seed, b, s, {}, low) && s.queue != []
    ensures Level(seed, b, Pop(s), {s.queue[0].node}, s.queue[0].hops)
    ensures s.queue[0].node in s.paths && |s.paths[s.queue[0].node]| == s.queue[0].hops
  {
    FlowPaths.HeadDepth(TrailOf(s, low));
    FlowPaths.PopLayered(TrailOf(s, low));
    assert TrailOf(Pop(s), s.queue[0].hops) == FlowPaths.Pop(TrailOf(s, low));
    hide FlowPaths.Layered;
    forall e | e in s.related && e.from in s.paths && e.to in s.paths ensures OneDeeper(Pop(s), e) {
      assert OneDeeper(s, e);
    }
  }

  lemma CloseLevel(seed: Address, b: Budget, s: Search, v: Address, low: nat)
    requires Level(seed, b, s, {v}, low) && v in s.paths && |s.paths[v]| == low
    ensures Level(seed, b, Close(s, v), {}, low)
  {
    FlowPaths.CloseLayered([], 0, TrailOf(s, low), v);
    assert TrailOf(Close(s, v), low) == FlowPaths.Close(TrailOf(s, low), v);
    hide FlowPaths.Layered;
    forall e | e in s.related && e.from in s.paths && e.to in s.paths ensures OneDeeper(Close(s, v), e) {
      assert OneDeeper(s, e);
    }
  }

  lemma LayeredIgnoresPrev(s: FlowPaths.Trail, t: FlowPaths.Trail, now: set<Address>)
    requires FlowPaths.Layered(s, now)
    requires t.queue == s.queue && t.paths == s.paths && t.done == s.done && t.low == s.low
    ensures FlowPaths.Layered(t, now)
  {
  }

  lemma SameLevel(seed: Address, b: Budget, s: Search, t: Search, now: set<Address>, low: nat)
    requires Level(seed, b, s, now, low) && t.related == s.related && t.visited == s.visited && t.queue == s.queue && t.paths == s.paths && t.done == s.done
    ensures Level(seed, b, t, now, low)
  {
    assert TrailOf(t, low) == TrailOf(s, low);
    hide FlowPaths.Layered;
    forall e | e in t.related && e.from in t.paths && e.to in t.paths ensures OneDeeper(t, e) {
      assert OneDeeper(s, e);
    }
  }

  lemma KnownDepth(s: Search, v: Address, now: set<Address>, low: nat)
    requires FlowPaths.Layered(TrailOf(s, low), now) && v in s.paths
    ensures |s.paths[v]| <= low + 1 && (|s.paths[v]| < low ==> v in s.done)
  {
  }

  lemma TakeLayered(b: Budget, s: Search, e: Edge, low: nat)
    requires FlowPaths.Layered(TrailOf(s, low), {e.from}) && e.from in s.paths && |s.paths[e.from]| == low
    requires forall v :: v in s.visited <==> v in s.paths
    ensures FlowPaths.Layered(TrailOf(Take(b, s, e, low), low), {e.from})
  {
    var t := Take(b, s, e, low);
    if e.to !in s.visited && |s.visited| < b.maxNodes {
      FlowPaths.FollowLayered(TrailOf(s, low), e);
      LayeredIgnoresPrev(FlowPaths.Follow(TrailOf(s, low), e, low), TrailOf(t, low), {e.from});
    } else {
      assert TrailOf(t, low) == TrailOf(s, low);
    }
  }

  lemma TakeLevel(seed: Address, b: Budget, s: Search, e: Edge, low: nat)
    requires Level(seed, b, s, {e.from}, low) && e.from in s.paths && |s.paths[e.from]| == low
    requires forall v :: v in s.visited <==> v in s.paths
    requires forall d :: d in s.related ==> d.from in s.paths
    ensures Level(seed, b, Take(b, s, e, low), {e.from}, low)
  {
    var t := Take(b, s, e, low);
    TakeLayered(b, s, e, low);
    assert forall d :: d in t.related <==> d in s.related || d == e;
    if e.to in s.paths {
      KnownDepth(s, e.to, {e.from}, low);
    }
    hide FlowPaths.Layered;
    forall d | d in t.related && d.from in t.paths && d.to in t.paths ensures OneDeeper(t, d) {
      if d in s.related && d.to in s.paths {
        assert OneDeeper(s, d);
      }
    }
  }

  // ---------------------------------------------------------------- the hop budget

  lemma DoneIsExpanded(edges: seq<Edge>, seed: Address, b: Budget, s: Search, now: set<Address>, low: nat)
    requires Rooted(Members(edges), seed, b, s) && Level(seed, b, s, now, low)
    requires Honest(Members(edges), b, s) && !s.exhausted
    ensures FlowPaths.ExpandedBelow(edges, TrailOf(s, low), low)
  {
    forall u | u in s.paths && |s.paths[u]| < low ensures FlowPaths.Expanded(edges, TrailOf(s, low), u) {
      KnownDepth(s, u, now, low);
      forall e | e in edges && e.from == u ensures e.to in s.paths && |s.paths[e.to]| <= |s.paths[u]| + 1 {
        assert e in s.related;
        assert e.to in s.visited;
        assert OneDeeper(s, e);
      }
    }
  }

  /** In a search not cut short so far, an account at the hop limit is as far away as it seems. */
  lemma TooFar(edges: seq<Edge>, seed: Address, b: Budget, s: Search, e: Edge, low: nat)
    requires Rooted(Members(edges), seed, b, s) && Level(seed, b, s, {e.from}, low)
    requires Honest(Members(edges), b, s) && !s.exhausted
    requires e in edges && e.from in s.paths && |s.paths[e.from]| == low >= b.maxHops
    ensures !Fits(Members(edges), seed, b)
  {
    var es := Members(edges);
    DoneIsExpanded(edges, seed, b, s, {e.from}, low);
    VisitedIsReachable(es, seed, b, s, e.from);
    hide Rooted, Honest, FlowPaths.ExpandedBelow;
    if Fits(es, seed, b) {
      assert Near(es, seed, b.maxHops, e.from);
      var q :| PathIn(es, q, seed, e.from) && |q| < b.maxHops;
      FlowPaths.DepthIsDistance(edges, seed, TrailOf(s, low), low, q, e.from);
    }
  }

  lemma RefuseExact(edges: seq<Edge>, seed: Address, b: Budget, s: Search, v: Address, out: seq<Edge>, low: nat)
    requires Rooted(Members(edges), seed, b, s) && Level(seed, b, s, {v}, low) && Honest(Members(edges), b, s)
    requires v in s.paths && |s.paths[v]| == low >= b.maxHops && Exact(Members(edges), seed, b, s)
    requires forall e :: e in out <==> e in edges && e.from == v
    ensures Exact(Members(edges), seed, b, if out == [] then s else s.(exhausted := true))
  {
    hide Rooted, Level, Honest, Fits;
    if out != [] && !s.exhausted {
      assert out[0] in out;
      TooFar(edges, seed, b, s, out[0], low);
    }
  }

  lemma CompleteFits(edges: seq<Edge>, seed: Address, b: Budget, s: Search)
    requires Inv(Members(edges), seed, b, s, {}) && Complete(Members(edges), seed, s.related, s.visited)
    ensures Fits(Members(edges), seed, b)
  {
    var es := Members(edges);
    UniqueSize(s.related);
    assert ReachedFrom(es, seed) == s.visited by {
      forall v | v in s.visited ensures v in ReachedFrom(es, seed) { ReachableIsCounted(es, seed, v); }
    }
    assert LeavingFrom(es, seed) == Members(s.related);
    forall e | e in es && Reachable(es, seed, e.from) ensures Near(es, seed, b.maxHops, e.from) {
      assert e in s.related;
      assert KnownPath(seed, b, s.related, s.paths, e.from);
      PathInMore(Members(s.related), es, s.paths[e.from], seed, e.from);
    }
  }

  // ---------------------------------------------------------------- the search

  lemma SameLocatorSameEdge(edges: seq<Edge>, d: Edge, e: Edge)
    requires UniqueLocators(edges) && d in edges && e in edges && LocatorOf(d) == LocatorOf(e)
    ensures d == e
  {
    var i :| 0 <= i < |edges| && edges[i] == d;
    var k :| 0 <= k < |edges| && edges[k] == e;
  }

  lemma OtherLocator(edges: seq<Edge>, d: Edge, e: Edge)
    requires UniqueLocators(edges) && d in edges && e in edges && d != e
    ensures LocatorOf(d) != LocatorOf(e)
  {
    if LocatorOf(d) == LocatorOf(e) {
      SameLocatorSameEdge(edges, d, e);
    }
  }

  predicate Known(s: Search, e: Edge)
  {
    exists d :: d in s.related && LocatorOf(d) == LocatorOf(e)
  }

  lemma AlreadySeen(edges: seq<Edge>, seed: Address, b: Budget, s: Search, first: seq<Edge>, e: Edge)
    requires Rooted(Members(edges), seed, b, s) && e in edges && Known(s, e)
    ensures UniqueLocators(edges) && Progress(Members(edges), b, s, first) ==> Progress(Members(edges), b, s, first + [e])
  {
    var d :| d in s.related && LocatorOf(d) == LocatorOf(e);
    if UniqueLocators(edges) {
      SameLocatorSameEdge(edges, d, e);
    }
  }

  lemma OverEdgeBudget(es: set<Edge>, b: Budget, s: Search, first: seq<Edge>, e: Edge)
    requires e in es && e.from in s.visited && e !in s.related && |s.related| >= b.maxEdges && Fair(es, b, s)
    ensures Progress(es, b, s.(exhausted := true), first)
  {
    assert LeftOut(es, b, s.(exhausted := true), e);
  }

  lemma FlagKeepsInv(es: set<Edge>, seed: Address, b: Budget, s: Search, now: set<Address>)
    requires Inv(es, seed, b, s, now)
    ensures Inv(es, seed, b, s.(exhausted := true), now)
  {
    hide Rooted, Bounded;
    RootedKept(es, seed, b, s, s.(exhausted := true));
  }

  /** An account at the hop limit keeps its outgoing edges out for good. */
  lemma OverHopBudget(es: set<Edge>, seed: Address, b: Budget, s: Search, v: Address, out: seq<Edge>)
    requires Inv(es, seed, b, s, {v}) && v in s.paths && |s.paths[v]| >= b.maxHops
    requires forall e :: e in out <==> e in es && e.from == v
    requires Honest(es, b, s)
    ensures out == [] ==> Honest(es, b, Close(s, v))
    ensures out != [] ==> Honest(es, b, Close(s.(exhausted := true), v))
  {
    assert AtHopLimit(b, s, v);
    if out != [] {
      assert out[0] in out;
      assert LeftOut(es, b, Close(s.(exhausted := true), v), out[0]);
    } else if s.exhausted {
      var d :| LeftOut(es, b, s, d);
      assert LeftOut(es, b, Close(s, v), d);
    }
  }

  /** What one edge does to the search. */
  function Turn(b: Budget, s: Search, e: Edge, hops: nat): Search
    requires e.from in s.paths
  {
    if Known(s, e) then s
    else if |s.related| >= b.maxEdges then s.(exhausted := true)
    else Take(b, s, e, hops)
  }

  predicate Stops(b: Budget, s: Search, e: Edge)
  {
    !Known(s, e) && |s.related| >= b.maxEdges
  }

  ghost predicate CanTurn(es: set<Edge>, b: Budget, s: Search, e: Edge, hops: nat)
  {
    && e in es && e.from in s.paths && e.from in s.visited && e.from !in s.done
    && hops == |s.paths[e.from]| && hops < b.maxHops
  }

  lemma TurnKeepsInv(es: set<Edge>, seed: Address, b: Budget, s: Search, e: Edge, hops: nat)
    requires Inv(es, seed, b, s, {e.from}) && CanTurn(es, b, s, e, hops)
    ensures Inv(es, seed, b, Turn(b, s, e, hops), {e.from}) && CanTurn(es, b, Turn(b, s, e, hops), e, hops)
    ensures Turn(b, s, e, hops).done == s.done
  {
    hide Inv;
    if !Known(s, e) {
      if |s.related| >= b.maxEdges {
        FlagKeepsInv(es, seed, b, s, {e.from});
      } else {
        assert forall i :: 0 <= i < |s.related| ==> s.related[i] in s.related;
        TakeOk(es, seed, b, s, e, hops);
      }
    }
  }

  lemma TurnProgress(edges: seq<Edge>, seed: Address, b: Budget, s: Search, first: seq<Edge>, e: Edge, hops: nat)
    requires UniqueLocators(edges) && Rooted(Members(edges), seed, b, s) && CanTurn(Members(edges), b, s, e, hops)
    requires Progress(Members(edges), b, s, first) && s.done <= s.visited
    ensures Progress(Members(edges), b, Turn(b, s, e, hops), first + [e])
    ensures Stops(b, s, e) ==> Turn(b, s, e, hops).exhausted
  {
    if Known(s, e) {
      AlreadySeen(edges, seed, b, s, first, e);
    } else {
      hide Rooted, Progress, UniqueLocators;
      if |s.related| >= b.maxEdges {
        OverEdgeBudget(Members(edges), b, s, first + [e], e);
      } else {
        TakeHonest(Members(edges), b, s, first, e, hops);
      }
    }
  }

  lemma StoppedTurn(b: Budget, s: Search, e: Edge, hops: nat)
    requires e.from in s.paths && Stops(b, s, e)
    ensures Turn(b, s, e, hops).exhausted && |Turn(b, s, e, hops).related| >= b.maxEdges
  {
  }

  lemma StoppedProgress(es: set<Edge>, b: Budget, s: Search, first: seq<Edge>, all: seq<Edge>)
    requires Progress(es, b, s, first) && s.exhausted && |s.related| >= b.maxEdges
    ensures Progress(es, b, s, all)
  {
    hide Honest;
  }

  lemma TurnExact(es: set<Edge>, seed: Address, b: Budget, s: Search, e: Edge, hops: nat)
    requires Rooted(es, seed, b, s) && UniqueLocators(s.related) && CanTurn(es, b, s, e, hops) && Exact(es, seed, b, s)
    ensures Exact(es, seed, b, Turn(b, s, e, hops))
  {
    if !Known(s, e) && !s.exhausted {
      if |s.related| >= b.maxEdges {
        TooManyEdges(es, seed, b, s, e);
      } else if e.to !in s.visited && |s.visited| >= b.maxNodes {
        TooManyAccounts(es, seed, b, s, e);
      }
    }
  }

  lemma TurnLevel(es: set<Edge>, seed: Address, b: Budget, s: Search, e: Edge, hops: nat)
    requires Rooted(es, seed, b, s) && CanTurn(es, b, s, e, hops) && Level(seed, b, s, {e.from}, hops)
    ensures Level(seed, b, Turn(b, s, e, hops), {e.from}, hops)
  {
    hide Level;
    if !Known(s, e) {
      if |s.related| >= b.maxEdges {
        SameLevel(seed, b, s, s.(exhausted := true), {e.from}, hops);
      } else {
        TakeLevel(seed, b, s, e, hops);
      }
    }
  }

  lemma InvIsBounded(es: set<Edge>, seed: Address, b: Budget, s: Search, now: set<Address>)
    requires Inv(es, seed, b, s, now)
    ensures UniqueLocators(s.related)
  {
  }

  // ---------------------------------------------------------------- the order of what is found

  /** Per account, the found edges are the first of its edges, in file order. */
  ghost predicate InFileOrder(edges: seq<Edge>, related: seq<Edge>)
  {
    forall u :: EdgesFrom(related, u) <= EdgesFrom(edges, u)
  }

  ghost predicate Ordered(edges: seq<Edge>, s: Search)
  {
    UniqueLocators(edges) ==> InFileOrder(edges, s.related)
  }

  /** Exactly the first `k` of the account's edges are found. */
  ghost predicate Took(edges: seq<Edge>, s: Search, v: Address, out: seq<Edge>, k: nat)
  {
    UniqueLocators(edges) ==> k <= |out| && EdgesFrom(s.related, v) == out[..k]
  }

  lemma EdgesFromMore(edges: seq<Edge>, e: Edge, u: Address)
    ensures EdgesFrom(edges + [e], u) == EdgesFrom(edges, u) + if e.from == u then [e] else []
  {
    assert (edges + [e])[..|edges|] == edges;
  }

  lemma NotKnownYet(edges: seq<Edge>, s: Search, v: Address, k: nat)
    requires UniqueLocators(edges) && (forall d :: d in s.related ==> d in edges)
    requires k < |EdgesFrom(edges, v)| && EdgesFrom(s.related, v) == EdgesFrom(edges, v)[..k]
    ensures !Known(s, EdgesFrom(edges, v)[k])
  {
    var out := EdgesFrom(edges, v);
    EdgesFromMembers(edges, v);
    EdgesFromMembers(s.related, v);
    EdgesFromUnique(edges, v);
    assert out[k] in out;
    NotAmongEarlier(out, k);
    forall d | d in s.related ensures LocatorOf(d) != LocatorOf(out[k]) {
      assert d != out[k];
      OtherLocator(edges, d, out[k]);
    }
  }

  lemma NotAmongEarlier(out: seq<Edge>, k: nat)
    requires UniqueLocators(out) && k < |out|
    ensures out[k] !in out[..k]
  {
  }

  lemma NextInFileOrder(edges: seq<Edge>, related: seq<Edge>, v: Address, k: nat)
    requires InFileOrder(edges, related) && k < |EdgesFrom(edges, v)| && EdgesFrom(related, v) == EdgesFrom(edges, v)[..k]
    requires EdgesFrom(edges, v)[k].from == v
    ensures InFileOrder(edges, related + [EdgesFrom(edges, v)[k]])
    ensures EdgesFrom(related + [EdgesFrom(edges, v)[k]], v) == EdgesFrom(edges, v)[..k + 1]
  {
    hide EdgesFrom;
    var e := EdgesFrom(edges, v)[k];
    EdgesFromMore(related, e, v);
    forall u ensures EdgesFrom(related + [e], u) <= EdgesFrom(edges, u) {
      EdgesFromMore(related, e, u);
    }
  }

  lemma TurnOrder(edges: seq<Edge>, b: Budget, s: Search, v: Address, out: seq<Edge>, k: nat, hops: nat)
    requires Ordered(edges, s) && Took(edges, s, v, out, k) && (forall d :: d in s.related ==> d in edges)
    requires out == EdgesFrom(edges, v) && k < |out| && out[k].from == v && v in s.paths
    ensures Ordered(edges, Turn(b, s, out[k], hops))
    ensures !Stops(b, s, out[k]) ==> Took(edges, Turn(b, s, out[k], hops), v, out, k + 1)
  {
    hide UniqueLocators, Known, EdgesFrom, InFileOrder;
    if UniqueLocators(edges) {
      NotKnownYet(edges, s, v, k);
      NextInFileOrder(edges, s.related, v, k);
    }
  }

  lemma NoneTakenYet(edges: seq<Edge>, s: Search, v: Address)
    requires v !in s.done && forall e :: e in s.related ==> e.from in s.done
    ensures forall out :: Took(edges, s, v, out, 0)
  {
    NoneFrom(s.related, v);
  }

  lemma RelatedAreDone(es: set<Edge>, seed: Address, b: Budget, s: Search)
    requires Inv(es, seed, b, s, {})
    ensures forall e :: e in s.related ==> e.from in s.done
  {
    hide Rooted, Bounded;
  }

  lemma RelatedAreEdges(edges: seq<Edge>, seed: Address, b: Budget, s: Search, now: set<Address>)
    requires Inv(Members(edges), seed, b, s, now)
    ensures forall e :: e in s.related ==> e in edges
  {
    hide Turns, Bounded, KnownPath;
  }

  lemma StartOrdered(edges: seq<Edge>, seed: Address)
    ensures Ordered(edges, Start(seed))
  {
    hide UniqueLocators;
    forall u ensures EdgesFrom([], u) <= EdgesFrom(edges, u) {
    }
  }

  // ---------------------------------------------------------------- an account's turn

  /** What holds after `k` of the account's edges. */
  ghost predicate Midway(edges: seq<Edge>, seed: Address, b: Budget, s: Search, v: Address, out: seq<Edge>, k: nat, hops: nat, sound: bool, exact: bool)
  {
    && k <= |out| && Inv(Members(edges), seed, b, s, {v}) && Level(seed, b, s, {v}, hops)
    && v in s.paths && v in s.visited && v !in s.done && hops == |s.paths[v]| < b.maxHops
    && (exact ==> Exact(Members(edges), seed, b, s)) && (sound ==> Progress(Members(edges), b, s, out[..k]))
    && Ordered(edges, s) && Took(edges, s, v, out, k)
  }

  /** What holds at its end, whether or not the edge budget ended it. */
  ghost predicate Over(edges: seq<Edge>, seed: Address, b: Budget, s: Search, v: Address, out: seq<Edge>, hops: nat, sound: bool, exact: bool)
  {
    && Inv(Members(edges), seed, b, s, {v}) && Level(seed, b, s, {v}, hops) && v in s.paths && hops == |s.paths[v]|
    && (exact ==> Exact(Members(edges), seed, b, s)) && (sound ==> Progress(Members(edges), b, s, out)) && Ordered(edges, s)
  }

  lemma TurnBegins(edges: seq<Edge>, seed: Address, b: Budget, s: Search, v: Address, out: seq<Edge>, hops: nat, sound: bool, exact: bool)
    requires Inv(Members(edges), seed, b, s, {v}) && Level(seed, b, s, {v}, hops)
    requires v in s.paths && v in s.visited && v !in s.done && hops == |s.paths[v]| < b.maxHops
    requires exact ==> Exact(Members(edges), seed, b, s)
    requires sound ==> Honest(Members(edges), b, s)
    requires Ordered(edges, s) && Took(edges, s, v, out, 0)
    ensures Midway(edges, seed, b, s, v, out, 0, hops, sound, exact)
  {
    hide Inv, Level, Exact, Honest, Ordered, Took;
  }

  lemma TurnEnds(edges: seq<Edge>, seed: Address, b: Budget, s: Search, v: Address, out: seq<Edge>, hops: nat, sound: bool, exact: bool)
    requires Midway(edges, seed, b, s, v, out, |out|, hops, sound, exact)
    ensures Over(edges, seed, b, s, v, out, hops, sound, exact)
  {
    hide Inv, Level, Exact, Progress, Ordered, Took;
    assert out[..|out|] == out;
  }

  lemma OverMeans(edges: seq<Edge>, seed: Address, b: Budget, s: Search, v: Address, out: seq<Edge>, hops: nat, sound: bool, exact: bool)
    requires Over(edges, seed, b, s, v, out, hops, sound, exact)
    ensures Inv(Members(edges), seed, b, s, {v}) && Level(seed, b, s, {v}, hops) && v in s.paths && hops == |s.paths[v]|
    ensures (exact ==> Exact(Members(edges), seed, b, s)) && (sound ==> Progress(Members(edges), b, s, out)) && Ordered(edges, s)
  {
    hide Inv, Level, Exact, Progress, Ordered;
  }

  /** One edge more, and whether it is the one the edge budget stops at. */
  lemma OneTurn(edges: seq<Edge>, seed: Address, b: Budget, s: Search, v: Address, out: seq<Edge>, k: nat, hops: nat, sound: bool, exact: bool)
    requires Midway(edges, seed, b, s, v, out, k, hops, sound, exact) && k < |out|
    requires out == EdgesFrom(edges, v) && out[k] in edges && out[k].from == v && (sound ==> UniqueLocators(edges))
    ensures out[k].from in s.paths
    ensures var t := Turn(b, s, out[k], hops);
      t.done == s.done && v in t.paths
      && if Stops(b, s, out[k]) then Over(edges, seed, b, t, v, out, hops, sound, exact)
         else Midway(edges, seed, b, t, v, out, k + 1, hops, sound, exact)
  {
    hide Inv, Honest, UniqueLocators, Level, Exact, Ordered, Took, EdgesFrom, Progress, Turn, Stops;
    var es, e := Members(edges), out[k];
    TurnKeepsInv(es, seed, b, s, e, hops);
    InvIsRooted(es, seed, b, s, {v});
    TurnLevel(es, seed, b, s, e, hops);
    RelatedAreEdges(edges, seed, b, s, {v});
    TurnOrder(edges, b, s, v, out, k, hops);
    if exact {
      InvIsBounded(es, seed, b, s, {v});
      TurnExact(es, seed, b, s, e, hops);
    }
    if sound {
      TurnProgress(edges, seed, b, s, out[..k], e, hops);
      assert out[..k + 1] == out[..k] + [e];
      if Stops(b, s, e) {
        StoppedTurn(b, s, e, hops);
        StoppedProgress(es, b, Turn(b, s, e, hops), out[..k] + [e], out);
      }
    }
  }

  class Finder {
    const edges: seq<Edge>
    const seed: Address
    const b: Budget
    var related: seq<Edge>
    var seen: set<Locator>
    var visited: set<Address>
    var queue: seq<Item>
    var exhausted: bool
    ghost var done: set<Address>
    ghost var paths: map<Address, seq<Edge>>
    ghost var low: nat

    constructor (edges: seq<Edge>, seed: Address, b: Budget)
      ensures this.edges == edges && this.seed == seed && this.b == b
      ensures View() == Start(seed) && seen == {} && low == 0
    {
      this.edges, this.seed, this.b := edges, seed, b;
      related, seen, visited, queue, exhausted := [], {}, {seed}, [Item(seed, 0)], false;
      done, paths, low := {}, map[seed := []], 0;
    }

    ghost function View(): Search
      reads this
    {
      Search(related, visited, queue, exhausted, done, paths)
    }

    ghost predicate Seen()
      reads this
    {
      && (forall i :: 0 <= i < |related| ==> LocatorOf(related[i]) in seen)
      && (forall l :: l in seen ==> exists e :: e in related && LocatorOf(e) == l)
    }

    /** One account's turn: its outgoing edges in file order, until the edge budget stops it. */
    method Expand(out: seq<Edge>, v: Address, hops: nat)
      requires Inv(Members(edges), seed, b, View(), {v}) && Seen()
      requires v in paths && v in visited && hops == |paths[v]| && hops < b.maxHops && v !in done
      requires out == EdgesFrom(edges, v) && forall e :: e in out ==> e in edges && e.from == v
      requires Level(seed, b, View(), {v}, hops) && low == hops
      requires Ordered(edges, View()) && Took(edges, View(), v, out, 0)
      modifies this
      ensures Inv(Members(edges), seed, b, View(), {v}) && Seen() && done == old(done)
      ensures Level(seed, b, View(), {v}, hops) && low == hops && v in paths && |paths[v]| == hops
      ensures old(Exact(Members(edges), seed, b, View())) ==> Exact(Members(edges), seed, b, View())
      ensures (visited == old(visited) && queue == old(queue)) || old(visited) < visited
      ensures UniqueLocators(edges) && old(Honest(Members(edges), b, View())) ==> Progress(Members(edges), b, View(), out)
      ensures Ordered(edges, View())
    {
      hide Inv, Honest, UniqueLocators, Level, Exact, Ordered, Took, EdgesFrom, Progress, Seen, Turn, Stops, Midway, Over;
      ghost var sound := UniqueLocators(edges) && Honest(Members(edges), b, View());
      ghost var exact := Exact(Members(edges), seed, b, View());
      var k := 0;
      TurnBegins(edges, seed, b, View(), v, out, hops, sound, exact);
      while k < |out|
        invariant 0 <= k <= |out|
        invariant Midway(edges, seed, b, View(), v, out, k, hops, sound, exact)
        invariant Seen() && done == old(done) && v in paths && low == hops
        invariant (visited == old(visited) && queue == old(queue)) || old(visited) < visited
      {
        var e := out[k];
        assert e in out;
        OneTurn(edges, seed, b, View(), v, out, k, hops, sound, exact);
        var stop := Visit(e, hops);
        if stop {
          OverMeans(edges, seed, b, View(), v, out, hops, sound, exact);
          return;
        }
        k := k + 1;
      }
      TurnEnds(edges, seed, b, View(), v, out, hops, sound, exact);
      OverMeans(edges, seed, b, View(), v, out, hops, sound, exact);
    }

    /** One edge of an account's turn; true when the edge budget ends the turn. */
    method Visit(e: Edge, hops: nat) returns (stop: bool)
      requires Seen() && e.from in paths
      modifies this
      ensures View() == Turn(b, old(View()), e, hops) && stop == Stops(b, old(View()), e)
      ensures Seen() && low == old(low)
      ensures (visited == old(visited) && queue == old(queue)) || old(visited) < visited
    {
      if LocatorOf(e) in seen {
        return false;
      }
      assert !Known(View(), e);
      if |related| >= b.maxEdges {
        exhausted := true;
        return true;
      }
      Record(e, hops);
      return false;
    }

    method Record(e: Edge, hops: nat)
      requires Seen() && e.from in paths
      modifies this
      ensures View() == Take(b, old(View()), e, hops) && Seen() && low == old(low)
      ensures (visited == old(visited) && queue == old(queue)) || old(visited) < visited
    {
      seen := seen + {LocatorOf(e)};
      related := related + [e];
      assert e in related;
      assert forall d :: d in old(related) ==> d in related;
      if e.to !in visited {
        if |visited| >= b.maxNodes {
          exhausted := true;
        } else {
          visited := visited + {e.to};
          queue := queue + [Item(e.to, hops + 1)];
          paths := paths[e.to := paths[e.from] + [e]];
        }
      }
    }

    /** An account at the hop limit: its outgoing edges are not followed, which the flag records. */
    method Refuse(out: seq<Edge>, ghost v: Address)
      requires Inv(Members(edges), seed, b, View(), {v}) && v in paths && |paths[v]| >= b.maxHops
      requires forall e :: e in out <==> e in edges && e.from == v
      requires Level(seed, b, View(), {v}, low) && |paths[v]| == low
      modifies this`exhausted
      ensures related == old(related)
      ensures Inv(Members(edges), seed, b, View(), {v}) && Level(seed, b, View(), {v}, low)
      ensures old(Honest(Members(edges), b, View()) && Exact(Members(edges), seed, b, View())) ==> Exact(Members(edges), seed, b, View())
      ensures old(Honest(Members(edges), b, View())) ==> Honest(Members(edges), b, Close(View(), v))
    {
      hide Inv, Honest, Level, Exact;
      if Honest(Members(edges), b, View()) {
        OverHopBudget(Members(edges), seed, b, View(), v, out);
        if Exact(Members(edges), seed, b, View()) {
          InvIsRooted(Members(edges), seed, b, View(), {v});
          RefuseExact(edges, seed, b, View(), v, out, low);
        }
      }
      if out != [] {
        FlagKeepsInv(Members(edges), seed, b, View(), {v});
        SameLevel(seed, b, View(), View().(exhausted := true), {v}, low);
        exhausted := true;
      }
    }

    /** One round of the outer loop, without its early exit. */
    method Round(outbound: map<Address, seq<Edge>>)
      requires Inv(Members(edges), seed, b, View(), {}) && Seen() && queue != []
      requires forall v :: Get(outbound, v) == EdgesFrom(edges, v)
      requires Level(seed, b, View(), {}, low) && Ordered(edges, View())
      modifies this
      ensures Inv(Members(edges), seed, b, View(), {}) && Seen() && Level(seed, b, View(), {}, low) && Ordered(edges, View())
      ensures (visited == old(visited) && |queue| < |old(queue)|) || old(visited) < visited
      ensures old(Honest(Members(edges), b, View()) && Exact(Members(edges), seed, b, View())) ==> Exact(Members(edges), seed, b, View())
      ensures UniqueLocators(edges) && old(Honest(Members(edges), b, View())) ==> Honest(Members(edges), b, View())
    {
      hide Inv, Honest, Progress, UniqueLocators, Level, Exact, Took, InFileOrder;
      ghost var es := Members(edges);
      ghost var sound := UniqueLocators(edges) && Honest(es, b, View());
      RelatedAreDone(es, seed, b, View());
      PopOk(es, seed, b, View());
      PopLevel(seed, b, View(), low);
      PopExact(es, seed, b, View());
      var item := queue[0];
      ghost var v := item.node;
      queue := queue[1..];
      low := item.hops;
      var out := Get(outbound, item.node);
      EdgesFromMembers(edges, item.node);
      PoppedIsOpen(es, seed, b, View(), v);
      NoneTakenYet(edges, View(), v);
      hide Seen, Get, EdgesFrom;
      if item.hops >= b.maxHops {
        Refuse(out, v);
      } else {
        Expand(out, item.node, item.hops);
        if sound {
          CloseHonest(es, b, View(), out, v);
        }
      }
      CloseOk(es, seed, b, View(), v);
      CloseLevel(seed, b, View(), v, low);
      CloseExact(es, seed, b, View(), v);
      done := done + {v};
    }

    method Run()
      requires Inv(Members(edges), seed, b, View(), {}) && Seen() && Honest(Members(edges), b, View())
      requires Level(seed, b, View(), {}, low) && Exact(Members(edges), seed, b, View()) && Ordered(edges, View())
      modifies this
      ensures Ordered(edges, View())
      ensures Inv(Members(edges), seed, b, View(), {}) && (queue == [] || (exhausted && |related| >= b.maxEdges))
      ensures UniqueLocators(edges) ==> Honest(Members(edges), b, View()) && Exact(Members(edges), seed, b, View())
    {
      var outbound := OutboundTable(edges);
      ghost var es := Members(edges);
      ghost var all := {seed} + set e | e in edges :: e.to;
      hide Inv, Honest, Seen, UniqueLocators, Level, Exact, Ordered;
      while queue != []
        invariant Inv(es, seed, b, View(), {}) && Seen() && Level(seed, b, View(), {}, low) && Ordered(edges, View())
        invariant UniqueLocators(edges) ==> Honest(es, b, View()) && Exact(es, seed, b, View())
        decreases all - visited, |queue|
      {
        VisitedIsKnown(edges, seed, b, View());
        Round(outbound);
        VisitedIsKnown(edges, seed, b, View());
        if exhausted && |related| >= b.maxEdges {
          break;
        }
      }
    }
  }

  lemma PopExact(es: set<Edge>, seed: Address, b: Budget, s: Search)
    requires s.queue != []
    ensures Exact(es, seed, b, s) ==> Exact(es, seed, b, Pop(s))
  {
  }

  lemma CloseExact(es: set<Edge>, seed: Address, b: Budget, s: Search, v: Address)
    ensures Exact(es, seed, b, s) ==> Exact(es, seed, b, Close(s, v))
  {
  }

  lemma InvIsRooted(es: set<Edge>, seed: Address, b: Budget, s: Search, now: set<Address>)
    requires Inv(es, seed, b, s, now)
    ensures Rooted(es, seed, b, s) && s.done <= s.visited
  {
  }

  lemma PoppedIsOpen(es: set<Edge>, seed: Address, b: Budget, s: Search, v: Address)
    requires Inv(es, seed, b, s, {v})
    ensures v in s.visited && v !in s.done
  {
    hide Rooted, Bounded;
  }

  lemma VisitedIsKnown(edges: seq<Edge>, seed: Address, b: Budget, s: Search)
    requires Inv(Members(edges), seed, b, s, {})
    ensures s.visited <= {seed} + set e | e in edges :: e.to
  {
    forall v | v in s.visited ensures v in {seed} + set e | e in edges :: e.to {
      var p := s.paths[v];
      assert KnownPath(seed, b, s.related, s.paths, v);
      if p != [] {
        assert p[|p| - 1] in Members(s.related);
        assert p[|p| - 1] in edges;
      }
    }
  }

  // ---------------------------------------------------------------- the contract

  /** What the search promises for any edge list, and with unique locators for its flag. */
  ghost predicate Searched(edges: seq<Edge>, seed: Address, b: Budget, related: seq<Edge>, visited: set<Address>, exhausted: bool)
  {
    && Budgeted(edges, b, related, visited)
    && AllWithinHops(related, visited, seed, b.maxHops)
    && (UniqueLocators(edges) ==> (!exhausted <==> Complete(Members(edges), seed, related, visited)))
    && (UniqueLocators(edges) ==> OnlyBudgetsCut(edges, seed, b, related, visited))
    && (UniqueLocators(edges) ==> (!exhausted <==> Fits(Members(edges), seed, b)))
    && (UniqueLocators(edges) ==> InFileOrder(edges, related))
  }

  /** What is missing is missing for a budget that is spent: an edge of a visited account for the
      edges or for the hops on the way to the account, an account for the accounts. */
  ghost predicate OnlyBudgetsCut(edges: seq<Edge>, seed: Address, b: Budget, related: seq<Edge>, visited: set<Address>)
  {
    && (forall e :: e in edges && e.from in visited ==> e in related || |related| >= b.maxEdges || HopsSpent(related, seed, b.maxHops, e.from))
    && (forall e :: e in related ==> e.to in visited || |visited| >= b.maxNodes)
  }

  ghost predicate HopsSpent(related: seq<Edge>, seed: Address, maxHops: int, v: Address)
  {
    exists p :: PathIn(Members(related), p, seed, v) && |p| == Limit(maxHops)
  }

  ghost predicate Budgeted(edges: seq<Edge>, b: Budget, related: seq<Edge>, visited: set<Address>)
  {
    && |related| <= Limit(b.maxEdges) && (|visited| <= 1 || |visited| <= b.maxNodes)
    && UniqueLocators(related)
    && forall e :: e in related ==> e in edges
  }

  ghost predicate AllWithinHops(related: seq<Edge>, visited: set<Address>, seed: Address, maxHops: int)
  {
    && (forall e :: e in related ==> WithinHops(related, seed, maxHops, e.to) && WithinHops(related, seed, maxHops, e.from))
    && (forall v :: v in visited ==> v == seed || WithinHops(related, seed, maxHops, v))
  }

  ghost predicate WithinHops(related: seq<Edge>, seed: Address, maxHops: int, v: Address)
  {
    exists p :: PathIn(Members(related), p, seed, v) && |p| <= maxHops
  }

  lemma FoundWithinHops(es: set<Edge>, seed: Address, b: Budget, s: Search)
    requires Rooted(es, seed, b, s)
    ensures AllWithinHops(s.related, s.visited, seed, b.maxHops)
  {
    forall e | e in s.related
      ensures WithinHops(s.related, seed, b.maxHops, e.to) && WithinHops(s.related, seed, b.maxHops, e.from)
    {
      assert KnownPath(seed, b, s.related, s.paths, e.from);
      PathGrows(Members(s.related), s.paths[e.from], seed, e);
    }
    forall v | v in s.visited ensures v == seed || WithinHops(s.related, seed, b.maxHops, v) {
      assert KnownPath(seed, b, s.related, s.paths, v);
    }
  }

  lemma InvMeansSearched(edges: seq<Edge>, seed: Address, b: Budget, s: Search)
    requires Inv(Members(edges), seed, b, s, {}) && (s.queue == [] || (s.exhausted && |s.related| >= b.maxEdges))
    requires UniqueLocators(edges) ==> Honest(Members(edges), b, s) && Exact(Members(edges), seed, b, s)
    requires Ordered(edges, s)
    ensures Searched(edges, seed, b, s.related, s.visited, s.exhausted)
  {
    assert Rooted(Members(edges), seed, b, s);
    hide Inv, Rooted, Honest, AllWithinHops, Budgeted, Complete, UniqueLocators, Members, OnlyBudgetsCut, Fits, InFileOrder;
    FoundWithinHops(Members(edges), seed, b, s);
    InvLimits(edges, seed, b, s);
    if UniqueLocators(edges) {
      FairMeansBudgets(edges, seed, b, s);
      FlagIsExact(Members(edges), seed, b, s);
      if !s.exhausted {
        CompleteFits(edges, seed, b, s);
      }
    }
  }

  lemma FairMeansBudgets(edges: seq<Edge>, seed: Address, b: Budget, s: Search)
    requires Inv(Members(edges), seed, b, s, {}) && (s.queue == [] || |s.related| >= b.maxEdges)
    requires Honest(Members(edges), b, s)
    ensures OnlyBudgetsCut(edges, seed, b, s.related, s.visited)
  {
    hide Bounded;
    forall e | e in edges && e.from in s.visited
      ensures e in s.related || |s.related| >= b.maxEdges || HopsSpent(s.related, seed, b.maxHops, e.from)
    {
      if AtHopLimit(b, s, e.from) {
        assert KnownPath(seed, b, s.related, s.paths, e.from);
      }
    }
  }

  lemma InvLimits(edges: seq<Edge>, seed: Address, b: Budget, s: Search)
    requires Inv(Members(edges), seed, b, s, {})
    ensures Budgeted(edges, b, s.related, s.visited)
  {
    hide UniqueLocators, Turns, KnownPath, Limit;
  }

  method DiscoverRelatedEdges(edges: seq<Edge>, seed: Address, b: Budget)
    returns (related: seq<Edge>, visited: set<Address>, exhausted: bool)
    ensures Searched(edges, seed, b, related, visited, exhausted)
  {
    hide Inv, Honest, Searched, UniqueLocators, Ordered;
    var finder := new Finder(edges, seed, b);
    StartOk(Members(edges), seed, b);
    StartLevel(seed, b);
    StartOrdered(edges, seed);
    finder.Run();
    InvMeansSearched(edges, seed, b, finder.View());
    related, visited, exhausted := finder.related, finder.visited, finder.exhausted;
  }
}
