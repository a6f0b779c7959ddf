/** What the order of the rows in the edge file decides: which shortest path is looked at, and with it
    whether a draft account is reported (scripts/contest/flow_final_candidates.py:211-351, 418-543). */
module FlowOrder {
  import opened Basics
  import opened FlowGraph
  import opened FlowSearch
  import opened FlowPaths
  import opened FlowResiduals
  import opened FlowAnalysis

  ghost predicate Keeps(report: Report, v: Address)
  {
    exists c :: c in report.candidates && c.account.address == v
  }

  // ---------------------------------------------------------------- one report

  lemma KeptIsEstablished(cfg: RunConfig, discovery: seq<Edge>, independent: seq<Edge>, related: seq<Edge>, visited: set<Address>,
                          found: seq<Edge>, report: Report, v: Address) returns (c: Candidate)
    requires Justified(cfg, discovery, independent, related, visited, found, report) && Keeps(report, v)
    ensures c.account.address == v && Established(cfg, related, independent, found, c) && multiset(discovery) != multiset(independent)
  {
    hide Searched, FoundIn, InOrder, DroppedEarly, RefutedDraft, Established, IsDraft;
    c :| c in report.candidates && c.account.address == v;
  }

  lemma DroppedIsRefuted(cfg: RunConfig, discovery: seq<Edge>, independent: seq<Edge>, related: seq<Edge>, visited: set<Address>,
                         found: seq<Edge>, report: Report, v: Address) returns (reason: Reason)
    requires Justified(cfg, discovery, independent, related, visited, found, report) && !Keeps(report, v)
    requires IsDraft(related, cfg.seed, cfg.amount, cfg.tolerance, v)
    ensures Refuted(cfg, multiset(discovery) == multiset(independent), related, independent, found, v, reason)
  {
    hide Searched, FoundIn, InOrder, DroppedEarly, Established, IsDraft, Refuted;
    var x :| x in report.excluded && x.address == v && RefutedDraft(cfg, discovery, independent, related, found, x);
    reason := x.reason;
  }

  /** A draft account for which only the confirmation of its path can speak. */
  ghost predicate BorneOut(cfg: RunConfig, discovery: seq<Edge>, independent: seq<Edge>, found: seq<Edge>, v: Address)
  {
    multiset(discovery) != multiset(independent) && IndependentAgrees(found, cfg, v)
  }

  /** Nothing speaks against a draft account but an unconfirmed edge on the path found to it. */
  lemma OnlyThePathSpeaks(cfg: RunConfig, discovery: seq<Edge>, independent: seq<Edge>, related: seq<Edge>, visited: set<Address>,
                          found: seq<Edge>, report: Report, v: Address) returns (p: seq<Edge>)
    requires Justified(cfg, discovery, independent, related, visited, found, report) && !Keeps(report, v)
    requires IsDraft(related, cfg.seed, cfg.amount, cfg.tolerance, v) && BorneOut(cfg, discovery, independent, found, v)
    ensures Found(related, cfg.seed, v, cfg.budget.maxHops, p) && !AllConfirmed(p, independent)
  {
    hide Justified, Keeps, IsDraft, Found, AllConfirmed, UnconfirmedTxs, Touches;
    var reason := DroppedIsRefuted(cfg, discovery, independent, related, visited, found, report, v);
    assert reason.ConfirmationMissing?;
    p :| UnconfirmedPath(cfg, related, independent, v, p, reason.txs);
    NoneUnconfirmed(p, independent);
  }

  /** Where a shortest path leads, its confirmation decides. */
  lemma LeadDecides(cfg: RunConfig, discovery: seq<Edge>, independent: seq<Edge>, related: seq<Edge>, visited: set<Address>,
                    found: seq<Edge>, report: Report, v: Address, p: seq<Edge>)
    requires Justified(cfg, discovery, independent, related, visited, found, report)
    requires Leading(related, cfg.seed, v, cfg.budget.maxHops, p)
    ensures Keeps(report, v)
      <==> IsDraft(related, cfg.seed, cfg.amount, cfg.tolerance, v) && BorneOut(cfg, discovery, independent, found, v) && AllConfirmed(p, independent)
  {
    hide Justified, Keeps, IsDraft, AllConfirmed, Leading, Shortest, IndependentAgrees;
    if Keeps(report, v) {
      var c := KeptIsEstablished(cfg, discovery, independent, related, visited, found, report, v);
      assert c.path == p;
    } else if IsDraft(related, cfg.seed, cfg.amount, cfg.tolerance, v) && BorneOut(cfg, discovery, independent, found, v) {
      var q := OnlyThePathSpeaks(cfg, discovery, independent, related, visited, found, report, v);
      assert q == p;
    }
  }

  // ---------------------------------------------------------------- every listing of the same edges

  ghost predicate ListingOf(b: seq<Edge>, a: seq<Edge>)
  {
    UniqueLocators(b) && multiset(b) == multiset(a)
  }

  ghost predicate FullySearched(edges: seq<Edge>, cfg: RunConfig, related: seq<Edge>)
  {
    UniqueLocators(edges) && exists visited :: Searched(edges, cfg.seed, cfg.budget, related, visited, false)
  }

  /** Full searches of two listings of the same edges find the same edges. */
  lemma SameFound(cfg: RunConfig, a: seq<Edge>, b: seq<Edge>, relatedA: seq<Edge>, relatedB: seq<Edge>, visitedB: set<Address>, cutB: bool)
    requires FullySearched(a, cfg, relatedA) && ListingOf(b, a)
    requires Searched(b, cfg.seed, cfg.budget, relatedB, visitedB, cutB)
    ensures multiset(relatedA) == multiset(relatedB) && (forall e :: e in relatedA <==> e in relatedB) && !cutB
  {
    var visitedA :| Searched(a, cfg.seed, cfg.budget, relatedA, visitedA, false);
    CutIgnoresOrder(cfg, a, b, relatedA, relatedB, visitedA, visitedB, false, cutB);
    SameEdges(a, b);
    hide UniqueLocators, Fits, AllWithinHops, OnlyBudgetsCut, InFileOrder;
    assert visitedA == visitedB;
    SameMembersSameMultiset(relatedA, relatedB);
  }

  lemma SameTotals(a: seq<Edge>, b: seq<Edge>, cfg: RunConfig, v: Address)
    requires multiset(a) == multiset(b)
    ensures IsDraft(a, cfg.seed, cfg.amount, cfg.tolerance, v) <==> IsDraft(b, cfg.seed, cfg.amount, cfg.tolerance, v)
    ensures IndependentAgrees(a, cfg, v) <==> IndependentAgrees(b, cfg, v)
  {
    TotalsIgnoreOrder(a, b, v);
    assert forall e :: e in a <==> e in multiset(a);
    assert forall e :: e in b <==> e in multiset(b);
  }

  lemma SameShortest(a: seq<Edge>, b: seq<Edge>, seed: Address, v: Address, maxHops: int, p: seq<Edge>)
    requires forall e :: e in a <==> e in b
    ensures Shortest(a, seed, v, maxHops, p) <==> Shortest(b, seed, v, maxHops, p)
  {
    assert Members(a) == Members(b);
  }

  /** Both edge sets agree on the account, and every shortest path to it is confirmed. */
  ghost predicate Unanimous(cfg: RunConfig, discovery: seq<Edge>, independent: seq<Edge>, related: seq<Edge>, found: seq<Edge>, v: Address)
  {
    && IsDraft(related, cfg.seed, cfg.amount, cfg.tolerance, v) && BorneOut(cfg, discovery, independent, found, v)
    && forall p :: Shortest(related, cfg.seed, v, cfg.budget.maxHops, p) ==> AllConfirmed(p, independent)
  }

  ghost predicate AlwaysKeeps(cfg: RunConfig, discovery: seq<Edge>, independent: seq<Edge>, v: Address)
  {
    forall related, visited, found, report :: Justified(cfg, discovery, independent, related, visited, found, report) ==> Keeps(report, v)
  }

  ghost predicate NeverKeeps(cfg: RunConfig, discovery: seq<Edge>, independent: seq<Edge>, v: Address)
  {
    forall related, visited, found, report :: Justified(cfg, discovery, independent, related, visited, found, report) ==> !Keeps(report, v)
  }

  /** What two listings have in common, seen from a report on the second. */
  lemma SameGround(cfg: RunConfig, a: seq<Edge>, b: seq<Edge>, independent: seq<Edge>, relatedA: seq<Edge>, foundA: seq<Edge>,
                   related: seq<Edge>, visited: set<Address>, found: seq<Edge>, report: Report, v: Address)
    requires FullySearched(a, cfg, relatedA) && FullySearched(independent, cfg, foundA) && ListingOf(b, a)
    requires Justified(cfg, b, independent, related, visited, found, report)
    ensures IsDraft(related, cfg.seed, cfg.amount, cfg.tolerance, v) <==> IsDraft(relatedA, cfg.seed, cfg.amount, cfg.tolerance, v)
    ensures BorneOut(cfg, b, independent, found, v) <==> BorneOut(cfg, a, independent, foundA, v)
    ensures forall e :: e in relatedA <==> e in related
    ensures InFileOrder(b, related)
  {
    hide FullySearched, Established, IsDraft, IndependentAgrees, InOrder, DroppedEarly, RefutedDraft, UniqueLocators, InFileOrder;
    hide Fits, AllWithinHops, OnlyBudgetsCut, Complete, Budgeted;
    SameFound(cfg, a, b, relatedA, related, visited, report.exhausted);
    FoundIsSame(cfg, independent, foundA, found);
    SameTotals(relatedA, related, cfg, v);
    SameTotals(foundA, found, cfg, v);
  }

  lemma FoundIsSame(cfg: RunConfig, independent: seq<Edge>, foundA: seq<Edge>, found: seq<Edge>)
    requires FullySearched(independent, cfg, foundA) && FoundIn(independent, cfg, found)
    ensures multiset(foundA) == multiset(found)
  {
    hide Searched;
    var visited, cut :| Searched(independent, cfg.seed, cfg.budget, found, visited, cut);
    SameFound(cfg, independent, independent, foundA, found, visited, cut);
  }

  lemma UnanimousIsKept(cfg: RunConfig, a: seq<Edge>, b: seq<Edge>, independent: seq<Edge>, relatedA: seq<Edge>, foundA: seq<Edge>, v: Address)
    requires FullySearched(a, cfg, relatedA) && FullySearched(independent, cfg, foundA) && ListingOf(b, a)
    requires Unanimous(cfg, a, independent, relatedA, foundA, v)
    ensures AlwaysKeeps(cfg, b, independent, v)
  {
    hide FullySearched, ListingOf, Justified, Keeps, IsDraft, BorneOut, Shortest, AllConfirmed, InFileOrder, Leading;
    forall related, visited, found, report | Justified(cfg, b, independent, related, visited, found, report) ensures Keeps(report, v) {
      SameGround(cfg, a, b, independent, relatedA, foundA, related, visited, found, report, v);
      if !Keeps(report, v) {
        var p := OnlyThePathSpeaks(cfg, b, independent, related, visited, found, report, v);
        SameShortest(relatedA, related, cfg.seed, v, cfg.budget.maxHops, p);
      }
    }
  }

  lemma UnfitIsNeverKept(cfg: RunConfig, a: seq<Edge>, b: seq<Edge>, independent: seq<Edge>, relatedA: seq<Edge>, foundA: seq<Edge>, v: Address)
    requires FullySearched(a, cfg, relatedA) && FullySearched(independent, cfg, foundA) && ListingOf(b, a)
    requires !IsDraft(relatedA, cfg.seed, cfg.amount, cfg.tolerance, v) || !BorneOut(cfg, a, independent, foundA, v)
    ensures NeverKeeps(cfg, b, independent, v)
  {
    hide FullySearched, ListingOf, Justified, Keeps, IsDraft, IndependentAgrees, Found, AllConfirmed, InFileOrder;
    forall related, visited, found, report | Justified(cfg, b, independent, related, visited, found, report) ensures !Keeps(report, v) {
      SameGround(cfg, a, b, independent, relatedA, foundA, related, visited, found, report, v);
      if Keeps(report, v) {
        var c := KeptIsEstablished(cfg, b, independent, related, visited, found, report, v);
      }
    }
  }

  // ---------------------------------------------------------------- the listing that puts a path first

  /** The edges that are not on the path, in their order. */
  function Others(a: seq<Edge>, p: seq<Edge>): seq<Edge>
  {
    if a == [] then []
    else Others(a[..|a| - 1], p) + if a[|a| - 1] in p then [] else [a[|a| - 1]]
  }

  lemma {:induction false} OthersMembers(a: seq<Edge>, p: seq<Edge>)
    ensures forall e :: e in Others(a, p) <==> e in a && e !in p
  {
    if a != [] {
      var n := |a| - 1;
      OthersMembers(a[..n], p);
      assert a == a[..n] + [a[n]];
    }
  }

  lemma {:induction false} OthersUnique(a: seq<Edge>, p: seq<Edge>)
    requires UniqueLocators(a)
    ensures UniqueLocators(Others(a, p))
  {
    if a != [] {
      var n := |a| - 1;
      OthersUnique(a[..n], p);
      OthersMembers(a[..n], p);
      forall i | 0 <= i < |Others(a[..n], p)| ensures LocatorOf(Others(a[..n], p)[i]) != LocatorOf(a[n]) {
        assert Others(a[..n], p)[i] in a[..n];
        var k :| 0 <= k < n && a[..n][k] == Others(a[..n], p)[i];
      }
    }
  }

  lemma {:induction false} EdgesFromConcat(x: seq<Edge>, y: seq<Edge>, u: Address)
    ensures EdgesFrom(x + y, u) == EdgesFrom(x, u) + EdgesFrom(y, u)
  {
    if y == [] {
      assert x + y == x;
    } else {
      var n := |y| - 1;
      assert (x + y)[..|x + y| - 1] == x + y[..n];
      EdgesFromConcat(x, y[..n], u);
    }
  }

  /** A path that visits no account twice has one edge at each of its accounts. */
  lemma {:induction false} OneEdgeEach(p: seq<Edge>, seed: Address, v: Address, i: nat)
    requires IsPath(p, seed, v) && Simple(p, seed) && i < |p|
    ensures EdgesFrom(p, p[i].from) == [p[i]]
  {
    var n := |p| - 1;
    SourcesDiffer(p, seed, v);
    if i < n {
      OneEdgeEach(p[..n], seed, p[n].from, i);
    } else {
      NoneFrom(p[..n], p[n].from);
    }
  }

  lemma SourcesDiffer(p: seq<Edge>, seed: Address, v: Address)
    requires IsPath(p, seed, v) && Simple(p, seed)
    ensures forall i, k :: 0 <= i < k < |p| ==> p[i].from != p[k].from
  {
    forall i, k | 0 <= i < k < |p| ensures p[i].from != p[k].from {
      StandsAt(p, seed, v, i);
      StandsAt(p, seed, v, k);
    }
  }

  lemma PathFirst(a: seq<Edge>, p: seq<Edge>, seed: Address, v: Address)
    requires UniqueLocators(a) && IsPath(p, seed, v) && Simple(p, seed) && forall e :: e in p ==> e in a
    ensures ListingOf(p + Others(a, p), a)
    ensures forall i :: 0 <= i < |p| ==> First(p + Others(a, p), p[i])
  {
    var b := p + Others(a, p);
    SourcesDiffer(p, seed, v);
    OthersMembers(a, p);
    OthersUnique(a, p);
    UniqueTogether(a, p);
    SameMembersSameMultiset(b, a);
    forall i | 0 <= i < |p| ensures First(b, p[i]) {
      EdgesFromConcat(p, Others(a, p), p[i].from);
      OneEdgeEach(p, seed, v, i);
    }
  }

  lemma UniqueTogether(a: seq<Edge>, p: seq<Edge>)
    requires UniqueLocators(a) && UniqueLocators(Others(a, p)) && (forall e :: e in p ==> e in a)
    requires forall i, k :: 0 <= i < k < |p| ==> p[i].from != p[k].from
    ensures UniqueLocators(p + Others(a, p))
  {
    var b := p + Others(a, p);
    OthersMembers(a, p);
    forall i, k | 0 <= i < k < |b| ensures LocatorOf(b[i]) != LocatorOf(b[k]) {
      if i < |p| {
        assert b[i] in p && (if k < |p| then b[k] in p else b[k] in Others(a, p));
        OtherLocator(a, b[i], b[k]);
      }
    }
  }

  lemma FirstIsFoundFirst(edges: seq<Edge>, related: seq<Edge>, e: Edge)
    requires InFileOrder(edges, related) && First(edges, e) && e in related
    ensures First(related, e)
  {
    EdgesFromMembers(related, e.from);
    assert e in EdgesFrom(related, e.from);
    assert EdgesFrom(related, e.from) <= EdgesFrom(edges, e.from);
  }

  /** Put a shortest path's edges first, and its confirmation decides every report. */
  lemma PathFirstDecides(cfg: RunConfig, a: seq<Edge>, independent: seq<Edge>, relatedA: seq<Edge>, foundA: seq<Edge>, v: Address, p: seq<Edge>)
    requires FullySearched(a, cfg, relatedA) && FullySearched(independent, cfg, foundA)
    requires Shortest(relatedA, cfg.seed, v, cfg.budget.maxHops, p)
    ensures ListingOf(p + Others(a, p), a)
    ensures IsDraft(relatedA, cfg.seed, cfg.amount, cfg.tolerance, v) && BorneOut(cfg, a, independent, foundA, v) && AllConfirmed(p, independent)
      ==> AlwaysKeeps(cfg, p + Others(a, p), independent, v)
    ensures !AllConfirmed(p, independent) ==> NeverKeeps(cfg, p + Others(a, p), independent, v)
  {
    var b := p + Others(a, p);
    FoundAreEdges(a, cfg, relatedA);
    PathAreEdges(relatedA, cfg.seed, v, p);
    PathFirst(a, p, cfg.seed, v);
    hide FullySearched, ListingOf, Justified, Keeps, IsDraft, BorneOut, AllConfirmed, InFileOrder, Shortest, First, Others, Leading;
    forall related, visited, found, report | Justified(cfg, b, independent, related, visited, found, report)
      ensures Keeps(report, v)
        <==> IsDraft(relatedA, cfg.seed, cfg.amount, cfg.tolerance, v) && BorneOut(cfg, a, independent, foundA, v) && AllConfirmed(p, independent)
    {
      SameGround(cfg, a, b, independent, relatedA, foundA, related, visited, found, report, v);
      FirstPathLeads(b, relatedA, related, cfg.seed, v, cfg.budget.maxHops, p);
      LeadDecides(cfg, b, independent, related, visited, found, report, v, p);
    }
  }

  lemma FirstPathLeads(b: seq<Edge>, relatedA: seq<Edge>, related: seq<Edge>, seed: Address, v: Address, maxHops: int, p: seq<Edge>)
    requires Shortest(relatedA, seed, v, maxHops, p) && (forall e :: e in relatedA <==> e in related) && InFileOrder(b, related)
    requires (forall i :: 0 <= i < |p| ==> First(b, p[i])) && forall e :: e in p ==> e in relatedA
    ensures Leading(related, seed, v, maxHops, p)
  {
    hide Shortest, First, InFileOrder;
    SameShortest(relatedA, related, seed, v, maxHops, p);
    forall i | 0 <= i < |p| ensures First(related, p[i]) {
      assert p[i] in p;
      FirstIsFoundFirst(b, related, p[i]);
    }
  }

  lemma FoundAreEdges(a: seq<Edge>, cfg: RunConfig, related: seq<Edge>)
    requires FullySearched(a, cfg, related)
    ensures UniqueLocators(a) && forall e :: e in related ==> e in a
  {
    hide UniqueLocators, AllWithinHops, OnlyBudgetsCut, Complete, Fits, InFileOrder;
  }

  lemma PathAreEdges(related: seq<Edge>, seed: Address, v: Address, p: seq<Edge>)
    requires PathIn(Members(related), p, seed, v)
    ensures forall e :: e in p ==> e in related
  {
  }

  /** When the order of the file does not matter. Where the budgets cut nothing, an account on which
      both edge sets agree and whose every shortest path is confirmed is reported for every listing of
      the edges; any other account is missing from every report on some listing. */
  lemma KeptForEveryOrderIff(cfg: RunConfig, a: seq<Edge>, independent: seq<Edge>, related: seq<Edge>, found: seq<Edge>, v: Address) returns (b: seq<Edge>)
    requires FullySearched(a, cfg, related) && FullySearched(independent, cfg, found)
    ensures ListingOf(b, a)
    ensures Unanimous(cfg, a, independent, related, found, v) ==> forall x :: ListingOf(x, a) ==> AlwaysKeeps(cfg, x, independent, v)
    ensures !Unanimous(cfg, a, independent, related, found, v) ==> NeverKeeps(cfg, b, independent, v)
  {
    b := a;
    FoundAreEdges(a, cfg, related);
    hide FullySearched, AlwaysKeeps, NeverKeeps, IsDraft, BorneOut, Shortest, AllConfirmed;
    if Unanimous(cfg, a, independent, related, found, v) {
      forall x | ListingOf(x, a) ensures AlwaysKeeps(cfg, x, independent, v) {
        UnanimousIsKept(cfg, a, x, independent, related, found, v);
      }
    } else if !IsDraft(related, cfg.seed, cfg.amount, cfg.tolerance, v) || !BorneOut(cfg, a, independent, found, v) {
      UnfitIsNeverKept(cfg, a, a, independent, related, found, v);
    } else {
      var p :| Shortest(related, cfg.seed, v, cfg.budget.maxHops, p) && !AllConfirmed(p, independent);
      PathFirstDecides(cfg, a, independent, related, found, v, p);
      b := p + Others(a, p);
    }
  }

  // ---------------------------------------------------------------- two transfers, one confirmed

  const CFG := RunConfig(0, 100, 0, 0, IndexedTransfers, BlockWindowScan, Budget(2, 10, 10))

  function Transfer(tx: nat, value: nat): Edge
  {
    Edge(tx, 0, 5, value, 0, None, None)
  }

  /** A few transfers straight from account 0 to account 5. */
  ghost predicate Direct(edges: seq<Edge>)
  {
    && 1 <= |edges| <= 10 && UniqueLocators(edges)
    && forall e :: e in edges ==> e.from == 0 && e.to == 5
  }

  lemma DirectReach(edges: seq<Edge>, v: Address)
    requires Direct(edges)
    ensures Reachable(Members(edges), 0, v) <==> v == 0 || v == 5
  {
    var es := Members(edges);
    assert edges[0] in edges && PathIn(es, [], 0, 0);
    PathGrows(es, [], 0, edges[0]);
    if Reachable(es, 0, v) {
      var p :| PathIn(es, p, 0, v);
      PathStaysInside(es, {0, 5}, p, 0, v);
    }
  }

  lemma DirectFits(edges: seq<Edge>)
    requires Direct(edges)
    ensures Fits(Members(edges), 0, CFG.budget)
  {
    var es := Members(edges);
    forall v ensures Reachable(es, 0, v) <==> v == 0 || v == 5 {
      DirectReach(edges, v);
    }
    UniqueSize(edges);
    SubsetSize(ReachedFrom(es, 0), {0, 5});
    SubsetSize(LeavingFrom(es, 0), es);
    assert PathIn(es, [], 0, 0);
  }

  lemma DirectSearched(edges: seq<Edge>)
    requires Direct(edges)
    ensures FullySearched(edges, CFG, edges)
  {
    hide Fits, Complete, AllWithinHops;
    DirectFits(edges);
    DirectFound(edges);
    assert Searched(edges, 0, CFG.budget, edges, {0, 5}, false);
  }

  lemma DirectFound(edges: seq<Edge>)
    requires Direct(edges)
    ensures Complete(Members(edges), 0, edges, {0, 5}) && AllWithinHops(edges, {0, 5}, 0, 2)
  {
    var es := Members(edges);
    forall v ensures Reachable(es, 0, v) <==> v == 0 || v == 5 {
      DirectReach(edges, v);
    }
    hide Reachable;
    assert edges[0] in edges && PathIn(es, [], 0, 0);
    PathGrows(es, [], 0, edges[0]);
    assert WithinHops(edges, 0, 2, 0) && WithinHops(edges, 0, 2, 5);
  }

  lemma {:induction false} DirectTotals(edges: seq<Edge>)
    requires forall e :: e in edges ==> e.from == 0 && e.to == 5
    ensures InSum(edges, 5) == Value(edges) && OutSum(edges, 5) == 0
  {
    if edges != [] {
      assert edges[|edges| - 1] in edges;
      DirectTotals(edges[..|edges| - 1]);
    }
  }

  lemma ValueOfTwo(x: Edge, y: Edge)
    ensures Value([x]) == x.value && Value([x, y]) == x.value + y.value
  {
    var a, b := [x], [x, y];
    assert a[..|a| - 1] == [] && b[..|b| - 1] == a;
  }

  lemma DirectIsShortest(edges: seq<Edge>, e: Edge)
    requires Direct(edges) && e in edges
    ensures Shortest(edges, 0, 5, 2, [e])
  {
    var es := Members(edges);
    assert PathIn(es, [], 0, 0) && e.from == 0 && e.to == 5;
    PathGrows(es, [], 0, e);
    assert [] + [e] == [e];
    forall q | PathIn(es, q, 0, 5) ensures 1 <= |q| {
    }
  }

  /** Two transfers pay an account its amount; the second edge set shows the first of them and another
      transfer for the second. Listed first, the confirmed one makes the account a candidate of every
      report; listed second, of none. */
  lemma OrderDecides()
    ensures ConfigOk(CFG) && ListingOf([Transfer(2, 40), Transfer(1, 60)], [Transfer(1, 60), Transfer(2, 40)])
    ensures AlwaysKeeps(CFG, [Transfer(1, 60), Transfer(2, 40)], [Transfer(1, 60), Transfer(3, 40)], 5)
    ensures NeverKeeps(CFG, [Transfer(2, 40), Transfer(1, 60)], [Transfer(1, 60), Transfer(3, 40)], 5)
  {
    hide FullySearched, ListingOf, AlwaysKeeps, NeverKeeps, Shortest, IsDraft, BorneOut, AllConfirmed, Others;
    var x, y, z := Transfer(1, 60), Transfer(2, 40), Transfer(3, 40);
    DirectSearched([x, y]);
    DirectSearched([x, z]);
    assert x in [x, y] && y in [x, y];
    DirectIsShortest([x, y], x);
    DirectIsShortest([x, y], y);
    WitnessGround(x, y, z);
    WitnessListings(x, y);
    PathFirstDecides(CFG, [x, y], [x, z], [x, y], [x, z], 5, [x]);
    PathFirstDecides(CFG, [x, y], [x, z], [x, y], [x, z], 5, [y]);
  }

  lemma WitnessListings(x: Edge, y: Edge)
    requires x != y
    ensures [x] + Others([x, y], [x]) == [x, y] && [y] + Others([x, y], [y]) == [y, x]
  {
    OthersOfTwo(x, y, [x]);
    OthersOfTwo(x, y, [y]);
    hide Others;
    assert x in [x] && y in [y] && x !in [y] && y !in [x];
  }

  lemma OthersOfTwo(x: Edge, y: Edge, p: seq<Edge>)
    ensures Others([x, y], p) == (if x in p then [] else [x]) + (if y in p then [] else [y])
  {
    var a, b := [x], [x, y];
    assert a[..|a| - 1] == [] && b[..|b| - 1] == a;
    assert Others(a, p) == Others([], p) + if x in p then [] else [x];
  }

  lemma WitnessGround(x: Edge, y: Edge, z: Edge)
    requires x == Transfer(1, 60) && y == Transfer(2, 40) && z == Transfer(3, 40)
    ensures IsDraft([x, y], 0, 100, 0, 5) && BorneOut(CFG, [x, y], [x, z], [x, z], 5)
    ensures AllConfirmed([x], [x, z]) && !AllConfirmed([y], [x, z])
  {
    DirectTotals([x, y]);
    DirectTotals([x, z]);
    ValueOfTwo(x, y);
    ValueOfTwo(x, z);
    assert x in [x, y];
    assert y in multiset([x, y]) && y !in multiset([x, z]);
    assert x in [x, z] && FactsMatch(x, x);
    assert !Confirmed([y][0], [x, z]);
  }
}
