/** Transfers between accounts as a multigraph: paths, the search budget and the edge file's
    duplicate check (scripts/contest/flow_final_candidates.py:60-70, 108-182). */
module FlowGraph {
  import opened Basics

  type Address = nat

  datatype Edge = Edge(
    tx: nat, from: Address, to: Address, value: nat, asset: nat,
    logIndex: Option<nat>, trace: Option<nat>)

  /** What identifies one movement inside a transaction. */
  datatype Locator = Locator(tx: nat, logIndex: Option<nat>, trace: Option<nat>)

  function LocatorOf(e: Edge): Locator
  {
    Locator(e.tx, e.logIndex, e.trace)
  }

  predicate UniqueLocators(edges: seq<Edge>)
  {
    forall i, k :: 0 <= i < k < |edges| ==> LocatorOf(edges[i]) != LocatorOf(edges[k])
  }

  function Members(edges: seq<Edge>): (s: set<Edge>)
    ensures forall e :: e in s <==> e in edges
  {
    set e | e in edges
  }

  // ---------------------------------------------------------------- paths

  /** Consecutive transfers leading from one account to another; the empty path stays put. */
  ghost predicate IsPath(p: seq<Edge>, src: Address, dst: Address)
  {
    if p == [] then src == dst
    else p[|p| - 1].to == dst && IsPath(p[..|p| - 1], src, p[|p| - 1].from)
  }

  ghost predicate PathIn(es: set<Edge>, p: seq<Edge>, src: Address, dst: Address)
  {
    IsPath(p, src, dst) && forall i :: 0 <= i < |p| ==> p[i] in es
  }

  ghost predicate Reachable(es: set<Edge>, src: Address, v: Address)
  {
    exists p :: PathIn(es, p, src, v)
  }

  lemma PathGrows(es: set<Edge>, p: seq<Edge>, src: Address, e: Edge)
    requires PathIn(es, p, src, e.from) && e in es
    ensures PathIn(es, p + [e], src, e.to)
  {
    assert (p + [e])[..|p|] == p;
  }

  lemma {:induction false} PathStaysInside(es: set<Edge>, inside: set<Address>, p: seq<Edge>, src: Address, dst: Address)
    requires PathIn(es, p, src, dst) && src in inside
    requires forall e :: e in es && e.from in inside ==> e.to in inside
    ensures dst in inside
  {
    if p != [] {
      var n := |p| - 1;
      PathStaysInside(es, inside, p[..n], src, p[n].from);
      assert p[n] in es;
    }
  }

  lemma PathInMore(small: set<Edge>, big: set<Edge>, p: seq<Edge>, src: Address, dst: Address)
    requires PathIn(small, p, src, dst) && small <= big
    ensures PathIn(big, p, src, dst)
  {
  }

  // ---------------------------------------------------------------- outgoing edges

  function EdgesFrom(edges: seq<Edge>, v: Address): seq<Edge>
  {
    if edges == [] then []
    else
      var n := |edges| - 1;
      EdgesFrom(edges[..n], v) + if edges[n].from == v then [edges[n]] else []
  }

  lemma {:induction false} EdgesFromMembers(edges: seq<Edge>, v: Address)
    ensures forall e :: e in EdgesFrom(edges, v) <==> e in edges && e.from == v
  {
    if edges != [] {
      var n := |edges| - 1;
      EdgesFromMembers(edges[..n], v);
      assert edges == edges[..n] + [edges[n]];
    }
  }

  lemma {:induction false} NoneFrom(edges: seq<Edge>, v: Address)
    requires forall e :: e in edges ==> e.from != v
    ensures EdgesFrom(edges, v) == []
  {
    if edges != [] {
      NoneFrom(edges[..|edges| - 1], v);
    }
  }

  lemma {:induction false} EdgesFromUnique(edges: seq<Edge>, v: Address)
    requires UniqueLocators(edges)
    ensures UniqueLocators(EdgesFrom(edges, v))
  {
    if edges != [] {
      var n := |edges| - 1;
      var front := edges[..n];
      assert UniqueLocators(front);
      EdgesFromUnique(front, v);
      EdgesFromMembers(front, v);
      forall i | 0 <= i < |EdgesFrom(front, v)| ensures LocatorOf(EdgesFrom(front, v)[i]) != LocatorOf(edges[n]) {
        assert EdgesFrom(front, v)[i] in front;
        var k :| 0 <= k < n && edges[k] == EdgesFrom(front, v)[i];
      }
    }
  }

  /** The `outbound` table of the source. */
  method OutboundTable(edges: seq<Edge>) returns (outbound: map<Address, seq<Edge>>)
    ensures forall v :: v in outbound ==> outbound[v] == EdgesFrom(edges, v)
    ensures forall v :: v !in outbound ==> EdgesFrom(edges, v) == []
  {
    outbound := map[];
    for n := 0 to |edges|
      invariant forall v :: v in outbound ==> outbound[v] == EdgesFrom(edges[..n], v)
      invariant forall v :: v !in outbound ==> EdgesFrom(edges[..n], v) == []
    {
      assert edges[..n + 1][..n] == edges[..n];
      var e := edges[n];
      outbound := outbound[e.from := (if e.from in outbound then outbound[e.from] else []) + [e]];
    }
    assert edges[..|edges|] == edges;
  }

  function Get(outbound: map<Address, seq<Edge>>, v: Address): seq<Edge>
  {
    if v in outbound then outbound[v] else []
  }

  // ---------------------------------------------------------------- the queue of a search

  datatype Item = Item(node: Address, hops: nat)

  function Limit(n: int): nat
  {
    if n < 0 then 0 else n
  }

  function Waiting(queue: seq<Item>): set<Address>
  {
    if queue == [] then {} else {queue[0].node} + Waiting(queue[1..])
  }

  ghost predicate QueueOk(queue: seq<Item>, paths: map<Address, seq<Edge>>)
  {
    queue == [] ||
      (&& queue[0].node in paths && queue[0].hops == |paths[queue[0].node]|
       && queue[0].node !in Waiting(queue[1..]) && QueueOk(queue[1..], paths))
  }

  lemma {:induction false} QueueAppend(queue: seq<Item>, paths: map<Address, seq<Edge>>, v: Address, p: seq<Edge>)
    requires QueueOk(queue, paths) && v !in Waiting(queue) && v !in paths
    ensures Waiting(queue + [Item(v, |p|)]) == Waiting(queue) + {v}
    ensures QueueOk(queue + [Item(v, |p|)], paths[v := p])
  {
    var q := queue + [Item(v, |p|)];
    if queue == [] {
      assert q[1..] == [];
    } else {
      QueueAppend(queue[1..], paths, v, p);
      assert q[1..] == queue[1..] + [Item(v, |p|)];
    }
  }

  // ---------------------------------------------------------------- loading

  datatype Loaded = Edges(edges: seq<Edge>) | ConflictingFacts

  ghost predicate NoConflict(rows: seq<Edge>, scope: nat)
  {
    forall i, k :: 0 <= i < |rows| && 0 <= k < |rows| ==> Consistent(rows[i], rows[k], scope)
  }

  /** Two rows in scope that give one place in one transaction give it the same movement. */
  predicate Consistent(a: Edge, b: Edge, scope: nat)
  {
    a.asset == scope && b.asset == scope && a.tx == b.tx && a.logIndex == b.logIndex && a.trace == b.trace ==> a == b
  }

  /** The rows in scope in file order, each distinct row at its first place. */
  function FirstRows(rows: seq<Edge>, scope: nat): seq<Edge>
  {
    if rows == [] then []
    else
      var before, e := FirstRows(rows[..|rows| - 1], scope), rows[|rows| - 1];
      if e.asset == scope && e !in before then before + [e] else before
  }

  lemma {:induction false} FirstRowsMembers(rows: seq<Edge>, scope: nat)
    ensures forall e :: e in FirstRows(rows, scope) <==> e in rows && e.asset == scope
  {
    if rows != [] {
      FirstRowsMembers(rows[..|rows| - 1], scope);
      assert rows == rows[..|rows| - 1] + [rows[|rows| - 1]];
    }
  }

  lemma {:induction false} FirstRowsUnique(rows: seq<Edge>, scope: nat)
    requires NoConflict(rows, scope)
    ensures UniqueLocators(FirstRows(rows, scope))
  {
    if rows != [] {
      var n := |rows| - 1;
      var before, e := FirstRows(rows[..n], scope), rows[n];
      forall i, k | 0 <= i < |rows[..n]| && 0 <= k < |rows[..n]| ensures Consistent(rows[..n][i], rows[..n][k], scope) {
        assert Consistent(rows[i], rows[k], scope);
      }
      FirstRowsUnique(rows[..n], scope);
      FirstRowsMembers(rows[..n], scope);
      if e.asset == scope && e !in before {
        forall i | 0 <= i < |before| ensures LocatorOf(before[i]) != LocatorOf(e) {
          assert before[i] in before;
          var k :| 0 <= k < n && rows[..n][k] == before[i];
          assert Consistent(rows[k], rows[n], scope);
        }
      }
    }
  }

  /** What the table of the loop holds after these rows. */
  ghost predicate SeenRows(rows: seq<Edge>, scope: nat, seen: map<Locator, Edge>)
  {
    && (forall e :: e in rows && e.asset == scope ==> LocatorOf(e) in seen && seen[LocatorOf(e)] == e)
    && (forall l :: l in seen ==> seen[l] in rows && seen[l].asset == scope && LocatorOf(seen[l]) == l)
  }

  lemma SeenNext(rows: seq<Edge>, n: nat, scope: nat, seen: map<Locator, Edge>)
    requires n < |rows| && SeenRows(rows[..n], scope, seen)
    ensures var e := rows[n]; var key := LocatorOf(e);
      && (e.asset != scope ==> SeenRows(rows[..n + 1], scope, seen))
      && (e.asset == scope && key in seen && seen[key] != e ==> !NoConflict(rows, scope))
      && (e.asset == scope && (key in seen ==> seen[key] == e) ==>
          SeenRows(rows[..n + 1], scope, seen[key := e]) && (key in seen <==> e in FirstRows(rows[..n], scope)))
  {
    var e, key := rows[n], LocatorOf(rows[n]);
    assert rows[..n + 1] == rows[..n] + [e];
    FirstRowsMembers(rows[..n], scope);
    if e.asset == scope && key in seen && seen[key] != e {
      var i :| 0 <= i < n && rows[..n][i] == seen[key];
      assert !Consistent(rows[i], rows[n], scope);
    }
  }

  lemma SeenAll(rows: seq<Edge>, scope: nat, seen: map<Locator, Edge>)
    requires SeenRows(rows, scope, seen)
    ensures NoConflict(rows, scope)
  {
    forall i, k | 0 <= i < |rows| && 0 <= k < |rows| ensures Consistent(rows[i], rows[k], scope) {
      assert rows[i] in rows && rows[k] in rows;
    }
  }

  /** Keeps the first row of every locator within the asset scope, in file order; two rows that give
      one movement different facts reject the file. */
  method LoadEdges(rows: seq<Edge>, scope: nat) returns (r: Loaded)
    ensures r.Edges? <==> NoConflict(rows, scope)
    ensures r.Edges? ==> UniqueLocators(r.edges) && r.edges == FirstRows(rows, scope)
    ensures r.Edges? ==> forall e :: e in r.edges <==> e in rows && e.asset == scope
  {
    hide SeenRows, NoConflict, UniqueLocators;
    var edges: seq<Edge> := [];
    var seen: map<Locator, Edge> := map[];
    NothingSeen(rows, scope);
    for n := 0 to |rows|
      invariant SeenRows(rows[..n], scope, seen) && edges == FirstRows(rows[..n], scope)
    {
      assert rows[..n + 1][..n] == rows[..n];
      SeenNext(rows, n, scope, seen);
      var e := rows[n];
      if e.asset == scope {
        var key := LocatorOf(e);
        if key in seen && seen[key] != e {
          return ConflictingFacts;
        }
        if key !in seen {
          edges := edges + [e];
        }
        seen := seen[key := e];
      }
    }
    assert rows[..|rows|] == rows;
    SeenAll(rows, scope, seen);
    FirstRowsUnique(rows, scope);
    FirstRowsMembers(rows, scope);
    return Edges(edges);
  }

  lemma NothingSeen(rows: seq<Edge>, scope: nat)
    ensures SeenRows(rows[..0], scope, map[]) && FirstRows(rows[..0], scope) == []
  {
  }
}
