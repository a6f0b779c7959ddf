/** Shortest paths through a predecessor map
    (scripts/contest/flow_final_candidates.py:285-326). */
module FlowPaths {
  import opened Basics
  import opened FlowGraph

  /** The search's variables. `paths` spells out what `prev` encodes, `done` holds the accounts
      whose turn is over and `low` the depth the search has come to; the source has only the
      first two. */
  datatype Trail = Trail(
    prev: map<Address, Option<Edge>>, queue: seq<Item>,
    paths: map<Address, seq<Edge>>, done: set<Address>, low: nat)

  // ---------------------------------------------------------------- invariant

  /** The predecessor map spells the path: its last edge, after the path to where that starts. */
  ghost predicate Spelled(edges: seq<Edge>, seed: Address, s: Trail, v: Address)
    requires v in s.prev && v in s.paths
  {
    if s.prev[v].None? then v == seed && s.paths[v] == []
    else
      var e := s.prev[v].value;
      && v != seed && e.to == v && e in edges && e.from in s.paths && s.paths[v] == s.paths[e.from] + [e]
  }

  /** Depth rises by one along a known path, so no account occurs on it twice. */
  ghost predicate Stepwise(s: Trail, v: Address)
    requires v in s.paths
  {
    forall i :: 0 <= i < |s.paths[v]| ==> s.paths[v][i].to in s.paths && |s.paths[s.paths[v][i].to]| == i + 1
  }

  ghost predicate Spelling(edges: seq<Edge>, seed: Address, maxHops: int, s: Trail)
  {
    && (forall v :: v in s.prev <==> v in s.paths)
    && seed in s.paths && s.paths[seed] == []
    && (forall v :: v in s.prev && v in s.paths ==> Traced(edges, seed, maxHops, s, v))
  }

  ghost predicate Traced(edges: seq<Edge>, seed: Address, maxHops: int, s: Trail, v: Address)
    requires v in s.prev && v in s.paths
  {
    && Spelled(edges, seed, s, v) && Stepwise(s, v)
    && PathIn(Members(edges), s.paths[v], seed, v) && |s.paths[v]| <= Limit(maxHops)
  }

  predicate SortedFrom(queue: seq<Item>, lo: nat, hi: nat)
  {
    queue == [] || (lo <= queue[0].hops <= hi && SortedFrom(queue[1..], queue[0].hops, hi))
  }

  /** The breadth-first discipline: depths are finished in order, and no more than one apart. */
  ghost predicate Layered(s: Trail, now: set<Address>)
  {
    && (forall v :: v in s.paths <==> v in s.done || v in now || v in Waiting(s.queue))
    && (forall v :: v in s.done ==> v !in now && v !in Waiting(s.queue))
    && (forall v :: v in now ==> v !in Waiting(s.queue))
    && QueueOk(s.queue, s.paths) && SortedFrom(s.queue, s.low, s.low + 1)
    && (forall v :: v in s.done && v in s.paths ==> |s.paths[v]| <= s.low)
    && (forall v :: v in s.paths && v !in s.done ==> s.low <= |s.paths[v]| <= s.low + 1)
  }

  ghost predicate Expanded(edges: seq<Edge>, s: Trail, u: Address)
    requires u in s.paths
  {
    forall e :: e in edges && e.from == u ==> e.to in s.paths && |s.paths[e.to]| <= |s.paths[u]| + 1
  }

  ghost predicate AllExpanded(edges: seq<Edge>, maxHops: int, s: Trail)
  {
    forall u :: u in s.done && u in s.paths && |s.paths[u]| < maxHops ==> Expanded(edges, s, u)
  }

  ghost predicate Inv(edges: seq<Edge>, seed: Address, maxHops: int, s: Trail, now: set<Address>)
  {
    Spelling(edges, seed, maxHops, s) && Layered(s, now) && AllExpanded(edges, maxHops, s)
  }

  // ---------------------------------------------------------------- steps

  function Start(seed: Address): Trail
  {
    Trail(map[seed := None], [Item(seed, 0)], map[seed := []], {}, 0)
  }

  function Pop(s: Trail): Trail
    requires s.queue != []
  {
    s.(queue := s.queue[1..], low := s.queue[0].hops)
  }

  function Close(s: Trail, v: Address): Trail
  {
    s.(done := s.done + {v})
  }

  function Follow(s: Trail, e: Edge, hops: nat): Trail
    requires e.from in s.paths
  {
    if e.to in s.prev then s
    else Trail(s.prev[e.to := Some(e)], s.queue + [Item(e.to, hops + 1)],
               s.paths[e.to := s.paths[e.from] + [e]], s.done, s.low)
  }

  lemma StartOk(edges: seq<Edge>, seed: Address, maxHops: int)
    ensures Inv(edges, seed, maxHops, Start(seed), {})
  {
    assert [Item(seed, 0)][1..] == [];
    assert Waiting([]) == {} && Waiting([Item(seed, 0)]) == {seed};
  }

  lemma {:induction false} SortedIsBounded(queue: seq<Item>, paths: map<Address, seq<Edge>>, lo: nat, hi: nat, v: Address)
    requires SortedFrom(queue, lo, hi) && QueueOk(queue, paths) && v in Waiting(queue)
    ensures v in paths && lo <= |paths[v]| <= hi
  {
    if v != queue[0].node {
      SortedIsBounded(queue[1..], paths, queue[0].hops, hi, v);
    }
  }

  lemma {:induction false} SortedWider(queue: seq<Item>, lo: nat, hi: nat, hi': nat)
    requires SortedFrom(queue, lo, hi) && hi <= hi'
    ensures SortedFrom(queue, lo, hi')
  {
    if queue != [] {
      SortedWider(queue[1..], queue[0].hops, hi, hi');
    }
  }

  lemma {:induction false} SortedAppend(queue: seq<Item>, lo: nat, hi: nat, v: Address)
    requires SortedFrom(queue, lo, hi) && lo <= hi
    ensures SortedFrom(queue + [Item(v, hi)], lo, hi)
  {
    var q := queue + [Item(v, hi)];
    if queue == [] {
      assert q[1..] == [];
    } else {
      SortedAppend(queue[1..], queue[0].hops, hi, v);
      assert q[1..] == queue[1..] + [Item(v, hi)];
    }
  }

  lemma PopLayered(s: Trail)
    requires Layered(s, {}) && s.queue != []
    ensures Layered(Pop(s), {s.queue[0].node})
  {
    var t := Pop(s);
    SortedWider(t.queue, t.low, s.low + 1, t.low + 1);
    forall v | v in t.paths && v !in t.done ensures t.low <= |t.paths[v]| <= t.low + 1 {
      if v != s.queue[0].node {
        SortedIsBounded(t.queue, t.paths, t.low, t.low + 1, v);
      }
    }
  }

  lemma CloseLayered(edges: seq<Edge>, maxHops: int, s: Trail, v: Address)
    requires Layered(s, {v}) && AllExpanded(edges, maxHops, s) && v in s.paths && |s.paths[v]| == s.low
    requires |s.paths[v]| < maxHops ==> Expanded(edges, s, v)
    ensures Layered(Close(s, v), {}) && AllExpanded(edges, maxHops, Close(s, v))
  {
    hide Expanded;
    forall u | u in Close(s, v).done && u in s.paths && |s.paths[u]| < maxHops ensures Expanded(edges, Close(s, v), u) {
      ExpandedKept(edges, s, Close(s, v), u);
    }
  }

  lemma ExpandedKept(edges: seq<Edge>, s: Trail, t: Trail, u: Address)
    requires u in s.paths && Expanded(edges, s, u)
    requires forall v :: v in s.paths ==> v in t.paths && t.paths[v] == s.paths[v]
    ensures Expanded(edges, t, u)
  {
  }

  lemma FollowSpelling(edges: seq<Edge>, seed: Address, maxHops: int, s: Trail, e: Edge, hops: nat)
    requires Spelling(edges, seed, maxHops, s) && e in edges && e.from in s.paths && |s.paths[e.from]| < maxHops
    ensures Spelling(edges, seed, maxHops, Follow(s, e, hops))
  {
    hide Traced;
    var t := Follow(s, e, hops);
    if e.to !in s.prev {
      forall v | v in t.prev && v in t.paths ensures Traced(edges, seed, maxHops, t, v) {
        FollowTraced(edges, seed, maxHops, s, e, hops, v);
      }
    }
  }

  lemma FollowTraced(edges: seq<Edge>, seed: Address, maxHops: int, s: Trail, e: Edge, hops: nat, v: Address)
    requires e in edges && e.from in s.prev && e.from in s.paths && |s.paths[e.from]| < maxHops
    requires e.to !in s.prev && e.to !in s.paths && seed in s.paths
    requires Traced(edges, seed, maxHops, s, e.from)
    requires v in s.prev && v in s.paths ==> Traced(edges, seed, maxHops, s, v)
    requires v in s.prev <==> v in s.paths
    ensures var t := Follow(s, e, hops); v in t.prev && v in t.paths ==> Traced(edges, seed, maxHops, t, v)
  {
    hide PathIn;
    StepwiseKept(s, e, hops, v);
    hide Stepwise;
    if v == e.to {
      PathGrows(Members(edges), s.paths[e.from], seed, e);
    }
  }

  lemma StepwiseKept(s: Trail, e: Edge, hops: nat, v: Address)
    requires e.from in s.paths && e.to !in s.prev && e.to !in s.paths && Stepwise(s, e.from)
    requires v in s.paths ==> Stepwise(s, v)
    ensures v in Follow(s, e, hops).paths ==> Stepwise(Follow(s, e, hops), v)
  {
  }

  lemma FollowLayered(s: Trail, e: Edge)
    requires Layered(s, {e.from}) && e.from in s.paths && |s.paths[e.from]| == s.low
    requires forall v :: v in s.prev <==> v in s.paths
    ensures Layered(Follow(s, e, s.low), {e.from})
  {
    if e.to !in s.prev {
      QueueAppend(s.queue, s.paths, e.to, s.paths[e.from] + [e]);
      SortedAppend(s.queue, s.low, s.low + 1, e.to);
    }
  }

  lemma FollowExpanded(edges: seq<Edge>, maxHops: int, s: Trail, e: Edge)
    requires AllExpanded(edges, maxHops, s) && e.from in s.paths && forall v :: v in s.prev <==> v in s.paths
    requires forall v :: v in s.done ==> v in s.paths
    ensures AllExpanded(edges, maxHops, Follow(s, e, s.low))
  {
    hide Expanded;
    var t := Follow(s, e, s.low);
    forall u | u in t.done && u in t.paths && |t.paths[u]| < maxHops ensures Expanded(edges, t, u) {
      ExpandedKept(edges, s, t, u);
    }
  }

  // ---------------------------------------------------------------- shortest

  /** Where every account nearer than `bound` is expanded, known depths are distances. */
  lemma {:induction false} DepthIsDistance(edges: seq<Edge>, seed: Address, s: Trail, bound: nat, q: seq<Edge>, v: Address)
    requires seed in s.paths && s.paths[seed] == []
    requires ExpandedBelow(edges, s, bound)
    requires PathIn(Members(edges), q, seed, v) && |q| <= bound
    ensures v in s.paths && |s.paths[v]| <= |q|
  {
    if q != [] {
      var n := |q| - 1;
      DepthIsDistance(edges, seed, s, bound, q[..n], q[n].from);
      assert q[n] in Members(edges);
      assert Expanded(edges, s, q[n].from);
    }
  }

  ghost predicate Simple(p: seq<Edge>, seed: Address)
  {
    && (forall i :: 0 <= i < |p| ==> p[i].to != seed)
    && (forall i, k :: 0 <= i < k < |p| ==> p[i].to != p[k].to)
  }

  /** A path is wanted: one exists within the hop limit and does not start where it ends. */
  ghost predicate Findable(edges: seq<Edge>, seed: Address, target: Address, maxHops: int)
  {
    seed != target && exists q :: PathIn(Members(edges), q, seed, target) && |q| <= maxHops
  }

  ghost predicate Shortest(edges: seq<Edge>, seed: Address, target: Address, maxHops: int, p: seq<Edge>)
  {
    && PathIn(Members(edges), p, seed, target) && |p| <= maxHops && Simple(p, seed)
    && forall q :: PathIn(Members(edges), q, seed, target) ==> |p| <= |q|
  }

  lemma StepwiseIsSimple(s: Trail, seed: Address, v: Address)
    requires v in s.paths && Stepwise(s, v) && seed in s.paths && s.paths[seed] == []
    ensures Simple(s.paths[v], seed)
  {
  }

  /** Every account nearer than `bound` is expanded. */
  ghost predicate ExpandedBelow(edges: seq<Edge>, s: Trail, bound: nat)
  {
    forall u :: u in s.paths && |s.paths[u]| < bound ==> Expanded(edges, s, u)
  }

  lemma StopsExpanded(edges: seq<Edge>, maxHops: int, s: Trail, now: set<Address>, target: Address)
    requires Layered(s, now) && AllExpanded(edges, maxHops, s)
    requires if now == {} then s.queue == [] else now == {target} && target in s.paths && |s.paths[target]| == s.low
    requires target in s.paths ==> |s.paths[target]| <= Limit(maxHops)
    ensures ExpandedBelow(edges, s, if target in s.paths then |s.paths[target]| else Limit(maxHops))
  {
    hide Expanded;
  }

  lemma FoundIsShortest(edges: seq<Edge>, seed: Address, target: Address, maxHops: int, s: Trail, now: set<Address>)
    requires Inv(edges, seed, maxHops, s, now) && target in s.paths && target != seed
    requires if now == {} then s.queue == [] else now == {target} && |s.paths[target]| == s.low
    ensures Shortest(edges, seed, target, maxHops, s.paths[target])
  {
    var p := s.paths[target];
    assert target in s.prev && Traced(edges, seed, maxHops, s, target);
    StopsExpanded(edges, maxHops, s, now, target);
    StepwiseIsSimple(s, seed, target);
    assert p != [];
    hide Layered, AllExpanded, Traced, Stepwise, Spelled, Simple, PathIn, ExpandedBelow;
    forall q | PathIn(Members(edges), q, seed, target) ensures |p| <= |q| {
      if |q| < |p| {
        DepthIsDistance(edges, seed, s, |p|, q, target);
      }
    }
  }

  lemma MissingIsUnfindable(edges: seq<Edge>, seed: Address, target: Address, maxHops: int, s: Trail)
    requires Inv(edges, seed, maxHops, s, {}) && s.queue == [] && target !in s.paths
    ensures !Findable(edges, seed, target, maxHops)
  {
    StopsExpanded(edges, maxHops, s, {}, target);
    forall q | PathIn(Members(edges), q, seed, target) && |q| <= maxHops ensures false {
      DepthIsDistance(edges, seed, s, Limit(maxHops), q, target);
    }
  }

  // ---------------------------------------------------------------- which of the shortest

  /** The account a path has come to before its i-th edge. */
  function At(p: seq<Edge>, seed: Address, i: nat): Address
    requires i <= |p|
  {
    if i == 0 then seed else p[i - 1].to
  }

  predicate First(edges: seq<Edge>, e: Edge)
  {
    var out := EdgesFrom(edges, e.from);
    out != [] && out[0] == e
  }

  /** A shortest path each of whose edges comes first among those that leave its account. */
  ghost predicate Leading(edges: seq<Edge>, seed: Address, target: Address, maxHops: int, p: seq<Edge>)
  {
    Shortest(edges, seed, target, maxHops, p) && forall i :: 0 <= i < |p| ==> First(edges, p[i])
  }

  /** The path that the search returns: a shortest one, and the leading one when there is one. */
  ghost predicate Found(edges: seq<Edge>, seed: Address, target: Address, maxHops: int, p: seq<Edge>)
  {
    Shortest(edges, seed, target, maxHops, p) && forall q :: Leading(edges, seed, target, maxHops, q) ==> p == q
  }

  /** The search follows `p` as far as it has come, and its accounts head their levels of the queue. */
  ghost predicate Led(p: seq<Edge>, seed: Address, s: Trail, now: set<Address>)
  {
    forall i :: 0 <= i <= |p| ==> Heads(p, seed, s, now, i)
  }

  ghost predicate Heads(p: seq<Edge>, seed: Address, s: Trail, now: set<Address>, i: nat)
    requires i <= |p|
  {
    var v := At(p, seed, i);
    && (v in s.paths ==> s.paths[v] == p[..i])
    && (forall u :: u in s.paths && |s.paths[u]| >= i ==> v in s.paths)
    && (forall k :: 0 <= k < |s.queue| && s.queue[k].hops == i ==> v in s.done || v in now || QueuedBy(s.queue, v, k))
  }

  predicate QueuedBy(queue: seq<Item>, v: Address, k: nat)
  {
    exists m :: 0 <= m <= k && m < |queue| && queue[m].node == v
  }

  /** The next edge of `p` has been followed, or is the one whose turn it is. */
  ghost predicate Onward(p: seq<Edge>, seed: Address, s: Trail, e: Edge)
  {
    s.low < |p| ==> At(p, seed, s.low + 1) in s.paths || e == p[s.low]
  }

  lemma {:induction false} StandsAt(p: seq<Edge>, src: Address, dst: Address, i: nat)
    requires IsPath(p, src, dst) && i <= |p|
    ensures i < |p| ==> p[i].from == At(p, src, i)
    ensures At(p, src, |p|) == dst
  {
    if i < |p| - 1 {
      StandsAt(p[..|p| - 1], src, p[|p| - 1].from, i);
    } else if p != [] {
      StandsAt(p[..|p| - 1], src, p[|p| - 1].from, |p| - 1);
    }
  }

  /** A path with its beginning up to the i-th account replaced. */
  lemma {:induction false} Detour(es: set<Edge>, p: seq<Edge>, src: Address, dst: Address, i: nat, q: seq<Edge>) returns (r: seq<Edge>)
    requires PathIn(es, p, src, dst) && i <= |p| && PathIn(es, q, src, At(p, src, i))
    ensures PathIn(es, r, src, dst) && |r| == |q| + |p| - i
  {
    if i == |p| {
      StandsAt(p, src, dst, i);
      r := q;
    } else {
      var n := |p| - 1;
      r := Detour(es, p[..n], src, p[n].from, i, q);
      assert p[n] in es;
      PathGrows(es, r, src, p[n]);
      r := r + [p[n]];
    }
  }

  lemma PrefixIsShortest(edges: seq<Edge>, seed: Address, target: Address, maxHops: int, p: seq<Edge>, i: nat, q: seq<Edge>)
    requires Shortest(edges, seed, target, maxHops, p) && i <= |p| && PathIn(Members(edges), q, seed, At(p, seed, i))
    ensures i <= |q|
  {
    hide PathIn;
    var r := Detour(Members(edges), p, seed, target, i, q);
  }

  lemma StartLed(edges: seq<Edge>, seed: Address, target: Address, maxHops: int, p: seq<Edge>)
    requires Leading(edges, seed, target, maxHops, p)
    ensures Led(p, seed, Start(seed), {})
  {
    hide PathIn, First;
    forall i | 0 <= i <= |p| ensures Heads(p, seed, Start(seed), {}, i) {
      assert Start(seed).queue[0].node == seed;
    }
  }

  /** The account whose turn comes is the path's, or the path's account of that depth had its turn. */
  lemma PopLed(p: seq<Edge>, seed: Address, s: Trail)
    requires Led(p, seed, s, {}) && s.queue != []
    ensures Led(p, seed, Pop(s), {s.queue[0].node})
    ensures s.queue[0].hops <= |p| ==> var v := At(p, seed, s.queue[0].hops); v == s.queue[0].node || v in s.done
  {
    var t, now := Pop(s), {s.queue[0].node};
    if s.queue[0].hops <= |p| {
      assert Heads(p, seed, s, {}, s.queue[0].hops);
    }
    forall i | 0 <= i <= |p| ensures Heads(p, seed, t, now, i) {
      var v := At(p, seed, i);
      assert Heads(p, seed, s, {}, i);
      forall k | 0 <= k < |t.queue| && t.queue[k].hops == i ensures v in t.done || v in now || QueuedBy(t.queue, v, k) {
        assert s.queue[k + 1].hops == i;
        if v !in s.done && v !in now {
          var m :| 0 <= m <= k + 1 && m < |s.queue| && s.queue[m].node == v;
          assert t.queue[m - 1].node == v;
        }
      }
    }
  }

  lemma CloseLed(p: seq<Edge>, seed: Address, s: Trail, v: Address)
    requires Led(p, seed, s, {v})
    ensures Led(p, seed, Close(s, v), {})
  {
    hide At, QueuedBy;
    forall i | 0 <= i <= |p| ensures Heads(p, seed, Close(s, v), {}, i) {
      assert Heads(p, seed, s, {v}, i);
    }
  }

  /** At the start of an account's turn the path's next edge is first, or was followed before. */
  lemma TurnLed(edges: seq<Edge>, seed: Address, target: Address, maxHops: int, p: seq<Edge>, s: Trail, v: Address, out: seq<Edge>)
    requires Leading(edges, seed, target, maxHops, p) && Led(p, seed, s, {v}) && AllExpanded(edges, maxHops, s)
    requires v in s.paths && |s.paths[v]| == s.low < maxHops && out == EdgesFrom(edges, v)
    requires s.low <= |p| ==> At(p, seed, s.low) == v || At(p, seed, s.low) in s.done
    ensures s.low < |p| ==> At(p, seed, s.low + 1) in s.paths || (out != [] && out[0] == p[s.low])
  {
    var j := s.low;
    if j < |p| {
      StandsAt(p, seed, target, j);
      var u := At(p, seed, j);
      assert First(edges, p[j]) && Heads(p, seed, s, {v}, j);
      if u != v {
        assert Expanded(edges, s, u);
        assert p[j] in Members(edges);
      }
    }
  }

  lemma FollowLed(edges: seq<Edge>, seed: Address, target: Address, maxHops: int, p: seq<Edge>, s: Trail, e: Edge)
    requires Inv(edges, seed, maxHops, s, {e.from}) && e in edges && e.from in s.paths && |s.paths[e.from]| == s.low < maxHops
    requires Leading(edges, seed, target, maxHops, p) && Led(p, seed, s, {e.from}) && Onward(p, seed, s, e)
    ensures Led(p, seed, Follow(s, e, s.low), {e.from})
    ensures s.low < |p| ==> At(p, seed, s.low + 1) in Follow(s, e, s.low).paths
  {
    InvSpells(edges, seed, maxHops, s, {e.from});
    if e.to !in s.prev {
      forall i | 0 <= i <= |p| ensures Heads(p, seed, Follow(s, e, s.low), {e.from}, i) {
        FollowHeads(edges, seed, target, maxHops, p, s, e, i);
      }
    }
  }

  lemma NewPath(edges: seq<Edge>, seed: Address, maxHops: int, s: Trail, e: Edge)
    requires Spelling(edges, seed, maxHops, s) && e in edges && e.from in s.paths
    ensures PathIn(Members(edges), s.paths[e.from] + [e], seed, e.to)
  {
    assert e.from in s.prev && Traced(edges, seed, maxHops, s, e.from);
    PathGrows(Members(edges), s.paths[e.from], seed, e);
  }

  lemma FollowHeads(edges: seq<Edge>, seed: Address, target: Address, maxHops: int, p: seq<Edge>, s: Trail, e: Edge, i: nat)
    requires Spelling(edges, seed, maxHops, s) && Layered(s, {e.from}) && e in edges && e.to !in s.prev
    requires e.from in s.paths && |s.paths[e.from]| == s.low && forall v :: v in s.prev <==> v in s.paths
    requires Leading(edges, seed, target, maxHops, p) && Led(p, seed, s, {e.from}) && Onward(p, seed, s, e) && i <= |p|
    ensures Heads(p, seed, Follow(s, e, s.low), {e.from}, i)
  {
    hide Spelling, First;
    var t, v := Follow(s, e, s.low), At(p, seed, i);
    assert Heads(p, seed, s, {e.from}, i);
    if v == e.to {
      NewPath(edges, seed, maxHops, s, e);
      PrefixIsShortest(edges, seed, target, maxHops, p, i, t.paths[v]);
      assert i == s.low + 1;
      StandsAt(p, seed, target, s.low);
      assert Heads(p, seed, s, {e.from}, s.low);
      assert p[..i] == p[..s.low] + [p[s.low]];
    }
    HeadsQueue(p, seed, s, e, i);
  }

  lemma {:induction false} WaitingAt(queue: seq<Item>, v: Address) returns (m: nat)
    requires v in Waiting(queue)
    ensures m < |queue| && queue[m].node == v
  {
    if queue[0].node == v {
      m := 0;
    } else {
      m := WaitingAt(queue[1..], v);
      m := m + 1;
    }
  }

  lemma HeadsQueue(p: seq<Edge>, seed: Address, s: Trail, e: Edge, i: nat)
    requires Layered(s, {e.from}) && e.to !in s.prev && (forall v :: v in s.prev <==> v in s.paths)
    requires e.from in s.paths && i <= |p| && Heads(p, seed, s, {e.from}, i) && Onward(p, seed, s, e)
    ensures var t, v := Follow(s, e, s.low), At(p, seed, i);
      forall k :: 0 <= k < |t.queue| && t.queue[k].hops == i ==> v in t.done || v in {e.from} || QueuedBy(t.queue, v, k)
  {
    var t, v := Follow(s, e, s.low), At(p, seed, i);
    forall k | 0 <= k < |t.queue| && t.queue[k].hops == i && v !in t.done && v != e.from ensures QueuedBy(t.queue, v, k) {
      if k < |s.queue| {
        assert s.queue[k].hops == i;
        var m :| 0 <= m <= k && m < |s.queue| && s.queue[m].node == v;
        assert t.queue[m].node == v;
      } else if v == e.to {
        assert t.queue[k].node == v;
      } else {
        var m := WaitingAt(s.queue, v);
        assert t.queue[m].node == v;
      }
    }
  }

  /** Every leading path is followed; there is at most one. */
  ghost predicate AllLed(edges: seq<Edge>, seed: Address, target: Address, maxHops: int, s: Trail, now: set<Address>)
  {
    forall p :: Leading(edges, seed, target, maxHops, p) ==> Led(p, seed, s, now)
  }

  /** After `k` of the account's edges, every leading path's next edge is followed, or it is the first. */
  ghost predicate AllOnward(edges: seq<Edge>, seed: Address, target: Address, maxHops: int, s: Trail, out: seq<Edge>, k: nat)
  {
    forall p :: Leading(edges, seed, target, maxHops, p) && s.low < |p| ==> FirstOrFollowed(p, seed, s, out, k)
  }

  ghost predicate FirstOrFollowed(p: seq<Edge>, seed: Address, s: Trail, out: seq<Edge>, k: nat)
    requires s.low < |p|
  {
    At(p, seed, s.low + 1) in s.paths || (k == 0 && out != [] && out[0] == p[s.low])
  }

  lemma StartAllLed(edges: seq<Edge>, seed: Address, target: Address, maxHops: int)
    ensures AllLed(edges, seed, target, maxHops, Start(seed), {})
  {
    hide Leading, Led;
    forall p | Leading(edges, seed, target, maxHops, p) ensures Led(p, seed, Start(seed), {}) {
      StartLed(edges, seed, target, maxHops, p);
    }
  }

  lemma PopAllLed(edges: seq<Edge>, seed: Address, target: Address, maxHops: int, s: Trail)
    requires AllLed(edges, seed, target, maxHops, s, {}) && Inv(edges, seed, maxHops, s, {}) && s.queue != []
    ensures AllLed(edges, seed, target, maxHops, Pop(s), {s.queue[0].node})
    ensures s.queue[0].hops < maxHops
      ==> AllOnward(edges, seed, target, maxHops, Pop(s), EdgesFrom(edges, s.queue[0].node), 0)
  {
    hide Inv, Leading, Led, At, AllExpanded, EdgesFrom;
    PopOk(edges, seed, maxHops, s);
    InvExpands(edges, seed, maxHops, Pop(s), {s.queue[0].node});
    forall p | Leading(edges, seed, target, maxHops, p) ensures Led(p, seed, Pop(s), {s.queue[0].node}) {
      PopOneLed(edges, seed, target, maxHops, p, s);
    }
    forall p | Leading(edges, seed, target, maxHops, p) && Pop(s).low < |p| && Pop(s).low < maxHops
      ensures FirstOrFollowed(p, seed, Pop(s), EdgesFrom(edges, s.queue[0].node), 0)
    {
      PopOneLed(edges, seed, target, maxHops, p, s);
    }
  }

  lemma InvExpands(edges: seq<Edge>, seed: Address, maxHops: int, s: Trail, now: set<Address>)
    requires Inv(edges, seed, maxHops, s, now)
    ensures AllExpanded(edges, maxHops, s)
  {
  }

  lemma PopOneLed(edges: seq<Edge>, seed: Address, target: Address, maxHops: int, p: seq<Edge>, s: Trail)
    requires Leading(edges, seed, target, maxHops, p) && Led(p, seed, s, {}) && s.queue != []
    requires s.queue[0].node in s.paths && |s.paths[s.queue[0].node]| == s.queue[0].hops
    requires AllExpanded(edges, maxHops, Pop(s))
    ensures Led(p, seed, Pop(s), {s.queue[0].node})
    ensures s.queue[0].hops < |p| && s.queue[0].hops < maxHops
      ==> FirstOrFollowed(p, seed, Pop(s), EdgesFrom(edges, s.queue[0].node), 0)
  {
    hide Leading, Led, At, AllExpanded, EdgesFrom;
    PopLed(p, seed, s);
    if s.queue[0].hops < |p| && s.queue[0].hops < maxHops {
      TurnLed(edges, seed, target, maxHops, p, Pop(s), s.queue[0].node, EdgesFrom(edges, s.queue[0].node));
    }
  }

  lemma CloseAllLed(edges: seq<Edge>, seed: Address, target: Address, maxHops: int, s: Trail, v: Address)
    requires AllLed(edges, seed, target, maxHops, s, {v})
    ensures AllLed(edges, seed, target, maxHops, Close(s, v), {})
  {
    hide Leading, Led;
    forall p | Leading(edges, seed, target, maxHops, p) ensures Led(p, seed, Close(s, v), {}) {
      CloseLed(p, seed, s, v);
    }
  }

  lemma FollowAllLed(edges: seq<Edge>, seed: Address, target: Address, maxHops: int, s: Trail, out: seq<Edge>, k: nat)
    requires k < |out|
    requires Inv(edges, seed, maxHops, s, {out[k].from}) && out[k] in edges && out[k].from in s.paths && |s.paths[out[k].from]| == s.low < maxHops
    requires AllLed(edges, seed, target, maxHops, s, {out[k].from}) && AllOnward(edges, seed, target, maxHops, s, out, k)
    ensures AllLed(edges, seed, target, maxHops, Follow(s, out[k], s.low), {out[k].from})
    ensures AllOnward(edges, seed, target, maxHops, Follow(s, out[k], s.low), out, k + 1)
  {
    hide Leading, Led, At, Inv;
    var t := Follow(s, out[k], s.low);
    forall p | Leading(edges, seed, target, maxHops, p) ensures Led(p, seed, t, {out[k].from}) {
      FollowLed(edges, seed, target, maxHops, p, s, out[k]);
    }
    forall p | Leading(edges, seed, target, maxHops, p) && t.low < |p| ensures FirstOrFollowed(p, seed, t, out, k + 1) {
      FollowLed(edges, seed, target, maxHops, p, s, out[k]);
    }
  }

  lemma LedIsFound(edges: seq<Edge>, seed: Address, target: Address, maxHops: int, s: Trail, now: set<Address>)
    requires AllLed(edges, seed, target, maxHops, s, now) && target in s.paths
    requires Shortest(edges, seed, target, maxHops, s.paths[target])
    ensures Found(edges, seed, target, maxHops, s.paths[target])
  {
    forall q | Leading(edges, seed, target, maxHops, q) ensures s.paths[target] == q {
      StandsAt(q, seed, target, |q|);
      assert Heads(q, seed, s, now, |q|);
      assert q[..|q|] == q;
    }
  }

  // ---------------------------------------------------------------- the search

  class PathFinder {
    const edges: seq<Edge>
    const seed: Address
    const target: Address
    const maxHops: int
    var prev: map<Address, Option<Edge>>
    var queue: seq<Item>
    ghost var paths: map<Address, seq<Edge>>
    ghost var done: set<Address>
    ghost var low: nat

    constructor (edges: seq<Edge>, seed: Address, target: Address, maxHops: int)
      ensures this.edges == edges && this.seed == seed && this.target == target && this.maxHops == maxHops
      ensures View() == Start(seed)
    {
      this.edges, this.seed, this.target, this.maxHops := edges, seed, target, maxHops;
      prev, queue := map[seed := None], [Item(seed, 0)];
      paths, done, low := map[seed := []], {}, 0;
    }

    ghost function View(): Trail
      reads this
    {
      Trail(prev, queue, paths, done, low)
    }

    method Expand(out: seq<Edge>, ghost v: Address, hops: nat)
      requires Inv(edges, seed, maxHops, View(), {v}) && v in paths && |paths[v]| == low == hops < maxHops
      requires forall e :: e in out ==> e in edges && e.from == v
      requires AllLed(edges, seed, target, maxHops, View(), {v}) && AllOnward(edges, seed, target, maxHops, View(), out, 0)
      modifies this
      ensures Inv(edges, seed, maxHops, View(), {v}) && v in paths && |paths[v]| == low
      ensures AllLed(edges, seed, target, maxHops, View(), {v})
      ensures forall e :: e in out ==> e.to in paths && |paths[e.to]| <= low + 1
      ensures (prev == old(prev) && queue == old(queue)) || old(prev.Keys) < prev.Keys
    {
      hide Inv, AllLed, AllOnward;
      var k := 0;
      while k < |out|
        invariant 0 <= k <= |out|
        invariant Inv(edges, seed, maxHops, View(), {v}) && v in paths && |paths[v]| == low == hops < maxHops && low == old(low)
        invariant AllLed(edges, seed, target, maxHops, View(), {v}) && AllOnward(edges, seed, target, maxHops, View(), out, k)
        invariant forall i :: 0 <= i < k ==> out[i].to in paths && |paths[out[i].to]| <= low + 1
        invariant (prev == old(prev) && queue == old(queue)) || old(prev.Keys) < prev.Keys
      {
        var e := out[k];
        assert e in out;
        FollowOk(edges, seed, maxHops, View(), e);
        FollowAllLed(edges, seed, target, maxHops, View(), out, k);
        if e.to !in prev {
          prev := prev[e.to := Some(e)];
          queue := queue + [Item(e.to, hops + 1)];
          paths := paths[e.to := paths[e.from] + [e]];
        }
        k := k + 1;
      }
    }

    /** Breadth first until the target's turn comes or the queue is empty. */
    method Run()
      requires Inv(edges, seed, maxHops, View(), {}) && AllLed(edges, seed, target, maxHops, View(), {})
      modifies this
      ensures target in prev ==> target in paths && (target != seed ==> Found(edges, seed, target, maxHops, paths[target]))
      ensures target !in prev ==> !Findable(edges, seed, target, maxHops)
      ensures Spelling(edges, seed, maxHops, View())
    {
      var outbound := OutboundTable(edges);
      ghost var all := {seed} + set e | e in edges :: e.to;
      hide Inv, Shortest, Found, Findable, Spelling, AllLed, AllOnward;
      while queue != []
        invariant Inv(edges, seed, maxHops, View(), {}) && AllLed(edges, seed, target, maxHops, View(), {})
        decreases all - prev.Keys, |queue|
      {
        PrevIsKnown(edges, seed, maxHops, View(), {});
        PopOk(edges, seed, maxHops, View());
        PopAllLed(edges, seed, target, maxHops, View());
        var item := queue[0];
        queue := queue[1..];
        low := item.hops;
        ghost var v := item.node;
        if item.node == target {
          if target != seed {
            FoundIsShortest(edges, seed, target, maxHops, View(), {v});
            LedIsFound(edges, seed, target, maxHops, View(), {v});
          }
          InvSpells(edges, seed, maxHops, View(), {v});
          return;
        }
        if item.hops < maxHops {
          var out := Get(outbound, item.node);
          EdgesFromMembers(edges, item.node);
          Expand(out, v, item.hops);
        }
        CloseOk(edges, seed, maxHops, View(), v);
        CloseAllLed(edges, seed, target, maxHops, View(), v);
        done := done + {v};
        PrevIsKnown(edges, seed, maxHops, View(), {});
      }
      InvSpells(edges, seed, maxHops, View(), {});
      if target in prev {
        if target != seed {
          FoundIsShortest(edges, seed, target, maxHops, View(), {});
          LedIsFound(edges, seed, target, maxHops, View(), {});
        }
      } else {
        MissingIsUnfindable(edges, seed, target, maxHops, View());
      }
    }

    /** Reads the path off the predecessor map, last edge first, and reverses it. */
    method Walk() returns (path: seq<Edge>)
      requires Spelling(edges, seed, maxHops, View()) && target in prev && target in paths
      ensures path == paths[target]
    {
      hide Spelling;
      path := [];
      var cursor := target;
      while cursor != seed
        invariant cursor in prev && cursor in paths && paths[target] == paths[cursor] + Reversed(path)
        decreases |paths[cursor]|
      {
        StepBack(edges, seed, maxHops, View(), cursor);
        var edge := prev[cursor].value;
        ReversedAppend(path, edge);
        path := path + [edge];
        cursor := edge.from;
      }
      SeedPath(edges, seed, maxHops, View());
      path := Reversed(path);
    }
  }

  function Reversed(p: seq<Edge>): (r: seq<Edge>)
    ensures |r| == |p|
  {
    if p == [] then [] else [p[|p| - 1]] + Reversed(p[..|p| - 1])
  }

  lemma ReversedAppend(p: seq<Edge>, e: Edge)
    ensures Reversed(p + [e]) == [e] + Reversed(p)
  {
    assert (p + [e])[..|p|] == p;
  }

  /** Only the seed has no predecessor, and stepping back shortens the known path by its last edge. */
  lemma StepBack(edges: seq<Edge>, seed: Address, maxHops: int, s: Trail, v: Address)
    requires Spelling(edges, seed, maxHops, s) && v in s.prev && v != seed
    ensures v in s.paths && s.prev[v].Some? && s.prev[v].value.from in s.prev && s.prev[v].value.from in s.paths
    ensures s.paths[v] == s.paths[s.prev[v].value.from] + [s.prev[v].value]
  {
    hide Stepwise, PathIn;
    assert Traced(edges, seed, maxHops, s, v);
  }

  lemma SeedPath(edges: seq<Edge>, seed: Address, maxHops: int, s: Trail)
    requires Spelling(edges, seed, maxHops, s)
    ensures seed in s.paths && s.paths[seed] == []
  {
  }

  lemma PopOk(edges: seq<Edge>, seed: Address, maxHops: int, s: Trail)
    requires Inv(edges, seed, maxHops, s, {}) && s.queue != []
    ensures Inv(edges, seed, maxHops, Pop(s), {s.queue[0].node})
    ensures s.queue[0].node in s.paths && |s.paths[s.queue[0].node]| == s.queue[0].hops
  {
    hide Spelling, AllExpanded, Layered;
    HeadDepth(s);
    PopLayered(s);
    SameSpelling(edges, seed, maxHops, s, Pop(s));
    SameExpanded(edges, maxHops, s, Pop(s));
  }

  lemma HeadDepth(s: Trail)
    requires Layered(s, {}) && s.queue != []
    ensures s.queue[0].node in s.paths && |s.paths[s.queue[0].node]| == s.queue[0].hops
  {
  }

  lemma CloseOk(edges: seq<Edge>, seed: Address, maxHops: int, s: Trail, v: Address)
    requires Inv(edges, seed, maxHops, s, {v}) && v in s.paths && |s.paths[v]| == s.low
    requires s.low < maxHops ==> forall e :: e in edges && e.from == v ==> e.to in s.paths && |s.paths[e.to]| <= s.low + 1
    ensures Inv(edges, seed, maxHops, Close(s, v), {})
  {
    SameSpelling(edges, seed, maxHops, s, Close(s, v));
    hide Spelling;
    CloseLayered(edges, maxHops, s, v);
  }

  lemma SameSpelling(edges: seq<Edge>, seed: Address, maxHops: int, s: Trail, t: Trail)
    requires Spelling(edges, seed, maxHops, s) && t.prev == s.prev && t.paths == s.paths
    ensures Spelling(edges, seed, maxHops, t)
  {
    hide PathIn;
    forall v | v in t.prev && v in t.paths ensures Traced(edges, seed, maxHops, t, v) {
      assert Traced(edges, seed, maxHops, s, v);
    }
  }

  lemma SameExpanded(edges: seq<Edge>, maxHops: int, s: Trail, t: Trail)
    requires AllExpanded(edges, maxHops, s) && t.done == s.done && t.paths == s.paths
    ensures AllExpanded(edges, maxHops, t)
  {
    forall u | u in t.done && u in t.paths && |t.paths[u]| < maxHops ensures Expanded(edges, t, u) {
      assert Expanded(edges, s, u);
    }
  }

  lemma InvSpells(edges: seq<Edge>, seed: Address, maxHops: int, s: Trail, now: set<Address>)
    requires Inv(edges, seed, maxHops, s, now)
    ensures Spelling(edges, seed, maxHops, s) && forall v :: v in s.prev <==> v in s.paths
  {
    hide Layered, AllExpanded;
  }

  lemma PrevIsKnown(edges: seq<Edge>, seed: Address, maxHops: int, s: Trail, now: set<Address>)
    requires Inv(edges, seed, maxHops, s, now)
    ensures s.prev.Keys <= {seed} + set e | e in edges :: e.to
  {
    hide Layered, AllExpanded, PathIn, Stepwise;
    forall v | v in s.prev ensures v in {seed} + set e | e in edges :: e.to {
      assert Traced(edges, seed, maxHops, s, v);
    }
  }

  /** Finds a path exactly when one is wanted and exists, and then a shortest one; when some shortest
      path takes the first edge at every account, that one. */
  method FindPathEdges(edges: seq<Edge>, seed: Address, target: Address, maxHops: int) returns (r: Option<seq<Edge>>)
    ensures r.Some? <==> Findable(edges, seed, target, maxHops)
    ensures r.Some? ==> Found(edges, seed, target, maxHops, r.value)
  {
    if seed == target {
      return None;
    }
    hide Inv, Spelling, AllLed, Found;
    var finder := new PathFinder(edges, seed, target, maxHops);
    StartOk(edges, seed, maxHops);
    StartAllLed(edges, seed, target, maxHops);
    finder.Run();
    if target !in finder.prev {
      return None;
    }
    var path := finder.Walk();
    return Some(path);
  }

  lemma FollowOk(edges: seq<Edge>, seed: Address, maxHops: int, s: Trail, e: Edge)
    requires Inv(edges, seed, maxHops, s, {e.from}) && e in edges && e.from in s.paths && |s.paths[e.from]| == s.low < maxHops
    ensures Inv(edges, seed, maxHops, Follow(s, e, s.low), {e.from})
    ensures e.to in s.prev ==> e.to in s.paths && |s.paths[e.to]| <= s.low + 1
    ensures forall v :: v in s.prev <==> v in s.paths
  {
    FollowSpelling(edges, seed, maxHops, s, e, s.low);
    FollowLayered(s, e);
    FollowExpanded(edges, maxHops, s, e);
  }
}
