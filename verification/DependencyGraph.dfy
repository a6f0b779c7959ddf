/** Dependency graphs of jobs: cycles, the depth-first cycle check, and what merging
    duplicate jobs does to a graph (src/scan_tool/application/scheduler.py). */
module DependencyGraph {

  type Id = nat

  /** Each job with the jobs it depends on, in the caller's order. */
  type Graph = map<Id, seq<Id>>

  /** Python's set iteration order is unspecified: some element, no more is known. */
  method AnyOf(s: set<Id>) returns (x: Id)
    requires s != {}
    ensures x in s
  {
    x :| x in s;
  }

  ghost predicate Closed(g: Graph)
  {
    forall j, i :: j in g && 0 <= i < |g[j]| ==> g[j][i] in g
  }

  predicate Step(g: Graph, w: seq<Id>, i: nat)
    requires i + 1 < |w|
  {
    w[i] in g && w[i + 1] in g[w[i]]
  }

  /** Every vertex of the walk depends on the next one. */
  ghost predicate IsWalk(g: Graph, w: seq<Id>)
  {
    forall i: nat :: i + 1 < |w| ==> Step(g, w, i)
  }

  ghost predicate IsCycle(g: Graph, w: seq<Id>)
  {
    |w| >= 2 && w[0] == w[|w| - 1] && IsWalk(g, w)
  }

  ghost predicate Acyclic(g: Graph)
  {
    forall w :: !IsCycle(g, w)
  }

  // ---------------------------------------------------------------- finite walks

  lemma {:induction false} Pigeonhole(x: seq<Id>, s: set<Id>) returns (i: nat, j: nat)
    requires |x| > |s|
    requires forall k :: 0 <= k < |x| ==> x[k] in s
    ensures i < j < |x| && x[i] == x[j]
  {
    var last := |x| - 1;
    if k :| 0 <= k < last && x[k] == x[last] {
      i, j := k, last;
    } else {
      i, j := Pigeonhole(x[..last], s - {x[last]});
    }
  }

  lemma WalkGrows(g: Graph, w: seq<Id>, d: Id)
    requires IsWalk(g, w)
    requires |w| >= 1 ==> w[|w| - 1] in g && d in g[w[|w| - 1]]
    ensures IsWalk(g, w + [d])
  {
    forall i: nat | i + 1 < |w + [d]| ensures Step(g, w + [d], i) {
      if i + 1 < |w| {
        assert Step(g, w, i);
      }
    }
  }

  /** A finite acyclic graph has no walk with more vertices than the graph. */
  lemma LongWalkHasCycle(g: Graph, x: seq<Id>)
    requires IsWalk(g, x) && |x| > |g.Keys|
    requires forall k :: 0 <= k < |x| ==> x[k] in g
    ensures !Acyclic(g)
  {
    var i, j := Pigeonhole(x, g.Keys);
    var c := x[i..j + 1];
    forall k: nat | k + 1 < |c| ensures Step(g, c, k) {
      assert Step(g, x, i + k);
    }
    assert IsCycle(g, c);
  }

  // ---------------------------------------------------------------- ranks

  /** Every ranked job has a higher rank than the jobs it depends on. */
  ghost predicate Ranked(g: Graph, rank: map<Id, int>)
  {
    forall j, i :: j in rank && j in g && 0 <= i < |g[j]| ==> g[j][i] in rank && rank[g[j][i]] < rank[j]
  }

  /** The identifiers being visited form a walk. */
  ghost predicate Walking(g: Graph, stack: seq<Id>, visiting: set<Id>)
  {
    IsWalk(g, stack) && visiting <= g.Keys && forall j :: j in visiting <==> j in stack
  }

  /** The identifiers done are ranked above all they depend on. */
  ghost predicate Placed(g: Graph, rank: map<Id, int>, visited: set<Id>, clock: int)
  {
    && visited == rank.Keys && visited <= g.Keys
    && Ranked(g, rank) && forall j :: j in rank ==> rank[j] < clock
  }

  lemma PushWalk(g: Graph, stack: seq<Id>, visiting: set<Id>, id: Id)
    requires Walking(g, stack, visiting) && id in g
    requires stack != [] ==> stack[|stack| - 1] in g && id in g[stack[|stack| - 1]]
    ensures Walking(g, stack + [id], visiting + {id})
  {
    WalkGrows(g, stack, id);
  }

  lemma PlaceOneMore(g: Graph, rank: map<Id, int>, visited: set<Id>, clock: int, id: Id)
    requires Placed(g, rank, visited, clock) && id in g && id !in visited
    requires forall i :: 0 <= i < |g[id]| ==> g[id][i] in visited
    ensures Placed(g, rank[id := clock], visited + {id}, clock + 1)
  {
    RankOneMore(g, rank, id, clock);
  }

  /** An identifier met again while it is on the stack closes a cycle. */
  lemma StackCycle(g: Graph, stack: seq<Id>, visiting: set<Id>, id: Id)
    requires Walking(g, stack, visiting) && id in visiting
    requires stack != [] ==> stack[|stack| - 1] in g && id in g[stack[|stack| - 1]]
    ensures !Acyclic(g)
  {
    var i :| 0 <= i < |stack| && stack[i] == id;
    var c := stack[i..] + [id];
    WalkGrows(g, stack, id);
    forall m: nat | m + 1 < |c| ensures Step(g, c, m) {
      assert Step(g, stack + [id], i + m);
    }
    assert IsCycle(g, c);
  }

  lemma RankOneMore(g: Graph, rank: map<Id, int>, id: Id, top: int)
    requires Ranked(g, rank) && id in g && id !in rank
    requires forall i :: 0 <= i < |g[id]| ==> g[id][i] in rank && rank[g[id][i]] < top
    ensures Ranked(g, rank[id := top])
  {
    var r := rank[id := top];
    forall j, i | j in r && j in g && 0 <= i < |g[j]|
      ensures g[j][i] in r && r[g[j][i]] < r[j]
    {
      if j != id {
        assert g[j][i] in rank;
      }
    }
  }

  lemma {:induction false} RankFallsAlong(g: Graph, rank: map<Id, int>, w: seq<Id>)
    requires Ranked(g, rank) && IsWalk(g, w) && |w| >= 2 && w[0] in rank
    ensures w[|w| - 1] in rank && rank[w[|w| - 1]] < rank[w[0]]
  {
    assert Step(g, w, 0);
    var i :| 0 <= i < |g[w[0]]| && g[w[0]][i] == w[1];
    if |w| > 2 {
      forall k: nat | k + 1 < |w[1..]| ensures Step(g, w[1..], k) {
        assert Step(g, w, k + 1);
      }
      assert w[1..][|w| - 2] == w[|w| - 1];
      RankFallsAlong(g, rank, w[1..]);
    }
  }

  lemma RankedMeansAcyclic(g: Graph, rank: map<Id, int>)
    requires Ranked(g, rank) && rank.Keys == g.Keys
    ensures Acyclic(g)
  {
    forall w ensures !IsCycle(g, w) {
      if IsCycle(g, w) {
        assert Step(g, w, 0);
        RankFallsAlong(g, rank, w);
      }
    }
  }

  // ---------------------------------------------------------------- the check itself

  /** The closure of `_require_acyclic`: two mutable sets and the recursive `visit`.
      `stack` and `rank` are the proof's record of the visits in progress and done. */
  class CycleSearch {
    const g: Graph
    var visiting: set<Id>
    var visited: set<Id>
    ghost var stack: seq<Id>
    ghost var rank: map<Id, int>
    ghost var clock: int

    constructor (g: Graph)
      ensures this.g == g && visiting == {} && visited == {}
      ensures stack == [] && rank == map[]
    {
      this.g, visiting, visited := g, {}, {};
      stack, rank, clock := [], map[], 0;
    }

    ghost predicate Valid()
      reads this
    {
      Closed(g) && Walking(g, stack, visiting) && Placed(g, rank, visited, clock) && visited !! visiting
    }

    method Visit(id: Id) returns (ok: bool)
      requires Valid() && id in g
      requires stack != [] ==> stack[|stack| - 1] in g && id in g[stack[|stack| - 1]]
      modifies this
      ensures ok ==> Valid() && stack == old(stack) && visiting == old(visiting)
      ensures ok ==> id in visited && old(visited) <= visited
      ensures !ok ==> !Acyclic(g)
      decreases g.Keys - visiting
    {
      hide Acyclic, Walking, Placed;
      if id in visiting {
        StackCycle(g, stack, visiting, id);
        return false;
      }
      if id in visited {
        return true;
      }
      PushWalk(g, stack, visiting, id);
      visiting := visiting + {id};
      stack := stack + [id];
      var k := 0;
      while k < |g[id]|
        invariant 0 <= k <= |g[id]|
        invariant Valid() && stack == old(stack) + [id] && visiting == old(visiting) + {id}
        invariant old(visited) <= visited
        invariant forall m :: 0 <= m < k ==> g[id][m] in visited
      {
        ok := Visit(g[id][k]);
        if !ok {
          return false;
        }
        k := k + 1;
      }
      stack := stack[..|stack| - 1];
      assert stack == old(stack);
      visiting := visiting - {id};
      assert visiting == old(visiting);
      PlaceOneMore(g, rank, visited, clock, id);
      visited := visited + {id};
      rank, clock := rank[id := clock], clock + 1;
      return true;
    }
  }

  /** Accepts exactly the graphs without a cycle; a rejection is the ValueError of the source. */
  method RequireAcyclic(g: Graph) returns (ok: bool)
    requires Closed(g)
    ensures ok <==> Acyclic(g)
  {
    var search := new CycleSearch(g);
    var todo := g.Keys;
    while todo != {}
      invariant todo <= g.Keys
      invariant search.Valid() && search.g == g && search.stack == [] && fresh(search)
      invariant forall j :: j in g && j !in todo ==> j in search.visited
      decreases todo
    {
      var id := AnyOf(todo);
      ok := search.Visit(id);
      if !ok {
        return false;
      }
      todo := todo - {id};
    }
    RankedMeansAcyclic(g, search.rank);
    return true;
  }

  // ---------------------------------------------------------------- merging duplicates

  function Elements(s: seq<Id>): (r: set<Id>)
    ensures forall d :: d in r <==> d in s
  {
    set d | d in s
  }

  function Renamed(items: seq<Id>, canon: map<Id, Id>): (r: seq<Id>)
    requires forall i :: 0 <= i < |items| ==> items[i] in canon
    ensures |r| == |items| && forall i :: 0 <= i < |r| ==> r[i] == canon[items[i]]
  {
    seq(|items|, i requires 0 <= i < |items| => canon[items[i]])
  }

  /** `canon` sends every job to the job that stands for it. */
  ghost predicate IsRepresentative(g: Graph, canon: map<Id, Id>)
  {
    && canon.Keys == g.Keys
    && forall j :: j in canon ==> canon[j] in canon && canon[canon[j]] == canon[j]
  }

  /** The graph over the representatives only. */
  function Merged(g: Graph, canon: map<Id, Id>): (m: Graph)
    requires Closed(g) && IsRepresentative(g, canon)
    ensures Closed(m)
  {
    var m := map j | j in g && canon[j] == j :: Renamed(g[j], canon);
    assert forall j, i :: j in m && 0 <= i < |m[j]| ==> m[j][i] == canon[g[j][i]];
    m
  }

  /** Every duplicate depends, up to merging, on what its representative depends on. */
  ghost predicate DuplicatesAgree(g: Graph, canon: map<Id, Id>)
    requires Closed(g) && IsRepresentative(g, canon)
  {
    forall j :: j in g ==> Agrees(g, canon, j)
  }

  predicate Agrees(g: Graph, canon: map<Id, Id>, j: Id)
    requires Closed(g) && IsRepresentative(g, canon) && j in g
    ensures canon[j] == j ==> Agrees(g, canon, j)
  {
    Elements(Renamed(g[j], canon)) == Elements(Renamed(g[canon[j]], canon))
  }

  /** A cycle of the merged graph can be followed in the original graph for any number of steps:
      whichever duplicate the walk is at, it too depends on a job of the next class. */
  lemma {:induction false} Unroll(g: Graph, canon: map<Id, Id>, w: seq<Id>, n: nat)
    returns (x: seq<Id>, at: nat)
    requires Closed(g) && IsRepresentative(g, canon) && DuplicatesAgree(g, canon)
    requires IsCycle(Merged(g, canon), w)
    ensures |x| == n + 1 && IsWalk(g, x) && forall i :: 0 <= i < |x| ==> x[i] in g
    ensures at < |w| - 1 && canon[x[n]] == w[at]
  {
    if n == 0 {
      assert Step(Merged(g, canon), w, 0);
      x, at := [w[0]], 0;
    } else {
      var y, k := Unroll(g, canon, w, n - 1);
      var here := y[n - 1];
      assert Step(Merged(g, canon), w, k);
      assert w[k + 1] in Renamed(g[w[k]], canon);
      assert Agrees(g, canon, here);
      assert w[k + 1] in Elements(Renamed(g[canon[here]], canon));
      var i :| 0 <= i < |g[here]| && canon[g[here][i]] == w[k + 1];
      WalkGrows(g, y, g[here][i]);
      x := y + [g[here][i]];
      at := if k + 1 == |w| - 1 then 0 else k + 1;
    }
  }

  /** Merging duplicates that agree on their dependencies never creates a cycle. */
  lemma MergedStaysAcyclic(g: Graph, canon: map<Id, Id>)
    requires Closed(g) && Acyclic(g)
    requires IsRepresentative(g, canon) && DuplicatesAgree(g, canon)
    ensures Acyclic(Merged(g, canon))
  {
    forall w ensures !IsCycle(Merged(g, canon), w) {
      if IsCycle(Merged(g, canon), w) {
        var x, _ := Unroll(g, canon, w, |g.Keys|);
        LongWalkHasCycle(g, x);
      }
    }
  }

  /** The agreement is needed: merging two jobs with different dependencies can close a cycle. */
  lemma MergingUnlikeJobsCanCloseACycle()
    ensures exists g, canon ::
      Closed(g) && Acyclic(g) && IsRepresentative(g, canon) && !Acyclic(Merged(g, canon))
  {
    var g: Graph := map[1 := [2], 2 := [3], 3 := []];
    var canon: map<Id, Id> := map[1 := 1, 2 := 2, 3 := 1];
    RankedMeansAcyclic(g, map[1 := 2, 2 := 1, 3 := 0]);
    var m := Merged(g, canon);
    assert m[1] == [2] && m[2] == [1];
    assert Step(m, [1, 2, 1], 0) && Step(m, [1, 2, 1], 1);
    assert IsCycle(m, [1, 2, 1]);
  }
}
