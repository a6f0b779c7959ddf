/** What a report of the candidate finder shows, in the edges' own fields
    (scripts/contest/flow_final_candidates.py:329-351, 418-543). */
module FlowReports {
  import opened Basics
  import opened FlowGraph
  import opened FlowSearch
  import opened FlowPaths
  import opened FlowResiduals
  import opened FlowAnalysis
  import opened FlowOrder

  // ---------------------------------------------------------------- movements and paths

  /** The second edge set has this movement: the same transaction, parties, amount and asset, and no
      other log index or trace address where both are known. */
  predicate SeenIn(e: Edge, independent: seq<Edge>)
  {
    exists o :: o in independent && o.tx == e.tx && o.from == e.from && o.to == e.to && o.value == e.value && o.asset == e.asset
      && (o.logIndex == e.logIndex || o.logIndex == None || e.logIndex == None)
      && (o.trace == e.trace || o.trace == None || e.trace == None)
  }

  lemma ConfirmedIff(e: Edge, independent: seq<Edge>)
    ensures Confirmed(e, independent) <==> SeenIn(e, independent)
  {
    if o :| o in independent && FactsMatch(e, o) {
      assert o.tx == e.tx;
    }
    if SeenIn(e, independent) {
      var o :| o in independent && o.tx == e.tx && o.from == e.from && o.to == e.to && o.value == e.value && o.asset == e.asset
        && (o.logIndex == e.logIndex || o.logIndex == None || e.logIndex == None)
        && (o.trace == e.trace || o.trace == None || e.trace == None);
      assert FactsMatch(e, o);
    }
  }

  /** The edges lead from the seed to the account, one starting where the one before ends, through no
      account twice. */
  ghost predicate Leads(p: seq<Edge>, seed: Address, v: Address)
  {
    && p != [] && p[0].from == seed && p[|p| - 1].to == v
    && (forall i :: 0 <= i < |p| - 1 ==> p[i + 1].from == p[i].to)
    && (forall i :: 0 <= i < |p| ==> p[i].to != seed) && (forall i, k :: 0 <= i < k < |p| ==> p[i].to != p[k].to)
  }

  lemma ShortestLeads(related: seq<Edge>, seed: Address, v: Address, maxHops: int, p: seq<Edge>)
    requires Shortest(related, seed, v, maxHops, p) && v != seed
    ensures Leads(p, seed, v) && |p| <= maxHops && forall e :: e in p ==> e in related
  {
    StandsAt(p, seed, v, |p|);
    forall i | 0 <= i < |p| ensures p[i].from == At(p, seed, i) {
      StandsAt(p, seed, v, i);
    }
    PathAreEdges(related, seed, v, p);
  }

  /** Nothing leaves the account but transfers of nothing. */
  lemma {:induction false} NothingLeaves(edges: seq<Edge>, v: Address)
    ensures OutSum(edges, v) == 0 <==> forall e :: e in edges && e.from == v ==> e.value == 0
  {
    if edges != [] {
      var n := |edges| - 1;
      NothingLeaves(edges[..n], v);
      assert edges == edges[..n] + [edges[n]];
    }
  }

  /** The transfers to the account, in order. */
  function EdgesTo(edges: seq<Edge>, v: Address): seq<Edge>
  {
    if edges == [] then []
    else
      var e := edges[|edges| - 1];
      EdgesTo(edges[..|edges| - 1], v) + if e.to == v then [e] else []
  }

  /** What an account gets is the value of the transfers to it. */
  lemma {:induction false} ReceivedIs(edges: seq<Edge>, v: Address)
    ensures InSum(edges, v) == Value(EdgesTo(edges, v))
  {
    if edges != [] {
      var n := |edges| - 1;
      ReceivedIs(edges[..n], v);
      ValueMore(EdgesTo(edges[..n], v), edges[n]);
      assert EdgesTo(edges[..n], v) + [] == EdgesTo(edges[..n], v);
    }
  }

  lemma ValueMore(edges: seq<Edge>, e: Edge)
    ensures Value(edges + [e]) == Value(edges) + e.value
  {
    assert (edges + [e])[..|edges|] == edges;
  }

  /** These edges end at the account: some touch it, they bring nearly the amount, and none that moves
      anything leaves it. */
  ghost predicate Ends(edges: seq<Edge>, v: Address, amount: int, tolerance: int)
  {
    && (exists e :: e in edges && (e.from == v || e.to == v))
    && (forall e :: e in edges && e.from == v ==> e.value == 0)
    && -tolerance <= Value(EdgesTo(edges, v)) - amount <= tolerance
  }

  lemma EndsIff(edges: seq<Edge>, v: Address, amount: int, tolerance: int)
    ensures Ends(edges, v, amount, tolerance) <==> Touches(edges, v) && OutSum(edges, v) == 0 && Abs(InSum(edges, v) - amount) <= tolerance
  {
    NothingLeaves(edges, v);
    ReceivedIs(edges, v);
  }

  // ---------------------------------------------------------------- what is loaded

  /** The loaded edges are the rows in scope, in file order, each at its first place. */
  ghost predicate FirstPlaces(rows: seq<Edge>, scope: nat, edges: seq<Edge>, at: seq<nat>)
  {
    && |edges| == |at| && (forall j, k :: 0 <= j < k < |at| ==> at[j] < at[k])
    && (forall j :: 0 <= j < |at| ==> at[j] < |rows| && edges[j] == rows[at[j]] && edges[j].asset == scope && edges[j] !in rows[..at[j]])
    && forall e :: e in rows && e.asset == scope ==> e in edges
  }

  lemma {:induction false} LoadedInOrder(rows: seq<Edge>, scope: nat) returns (at: seq<nat>)
    ensures FirstPlaces(rows, scope, FirstRows(rows, scope), at)
  {
    hide FirstPlaces;
    if rows == [] {
      at := [];
      NoPlaces(scope);
    } else {
      var n := |rows| - 1;
      var was := LoadedInOrder(rows[..n], scope);
      FirstRowsMembers(rows[..n], scope);
      var before := FirstRows(rows[..n], scope);
      if rows[n].asset == scope && rows[n] !in before {
        at := was + [n];
        PlaceAdded(rows, scope, before, was);
      } else {
        at := was;
        PlacesStay(rows, scope, before, was);
      }
    }
  }

  lemma NoPlaces(scope: nat)
    ensures FirstPlaces([], scope, [], [])
  {
  }

  lemma PlaceAdded(rows: seq<Edge>, scope: nat, edges: seq<Edge>, at: seq<nat>)
    requires rows != [] && FirstPlaces(rows[..|rows| - 1], scope, edges, at)
    requires rows[|rows| - 1].asset == scope && rows[|rows| - 1] !in edges
    requires forall e :: e in edges <==> e in rows[..|rows| - 1] && e.asset == scope
    ensures FirstPlaces(rows, scope, edges + [rows[|rows| - 1]], at + [|rows| - 1])
  {
    var n := |rows| - 1;
    assert rows == rows[..n] + [rows[n]];
    forall j | 0 <= j < |at| ensures rows[..n][..at[j]] == rows[..at[j]] && rows[..n][at[j]] == rows[at[j]] {
    }
  }

  lemma PlacesStay(rows: seq<Edge>, scope: nat, edges: seq<Edge>, at: seq<nat>)
    requires rows != [] && FirstPlaces(rows[..|rows| - 1], scope, edges, at)
    requires rows[|rows| - 1].asset == scope ==> rows[|rows| - 1] in edges
    ensures FirstPlaces(rows, scope, edges, at)
  {
    var n := |rows| - 1;
    assert rows == rows[..n] + [rows[n]];
    forall j | 0 <= j < |at| ensures rows[..n][..at[j]] == rows[..at[j]] && rows[..n][at[j]] == rows[at[j]] {
    }
  }

  // ---------------------------------------------------------------- what a candidate shows

  /** A reported account is not the seed; the edges found in both sets end there; and its path is a
      shortest one from the seed, within the hop limit, each of whose movements the second set has. */
  ghost predicate Shows(cfg: RunConfig, independent: seq<Edge>, related: seq<Edge>, found: seq<Edge>, c: Candidate)
  {
    var v := c.account.address;
    && v != cfg.seed && Ends(related, v, cfg.amount, cfg.tolerance) && Ends(found, v, cfg.amount, cfg.tolerance)
    && c.account.totals == Totals(Value(EdgesTo(related, v)), 0) && c.independent == Totals(Value(EdgesTo(found, v)), 0)
    && Leads(c.path, cfg.seed, v) && |c.path| <= cfg.budget.maxHops
    && (forall e :: e in c.path ==> e in related && SeenIn(e, independent))
    && forall q :: PathIn(Members(related), q, cfg.seed, v) ==> |c.path| <= |q|
  }

  lemma EstablishedShows(cfg: RunConfig, related: seq<Edge>, independent: seq<Edge>, found: seq<Edge>, c: Candidate)
    requires Established(cfg, related, independent, found, c)
    ensures Shows(cfg, independent, related, found, c)
  {
    hide Leading, Leads, Ends, SeenIn, Confirmed;
    var v := c.account.address;
    EndsIff(related, v, cfg.amount, cfg.tolerance);
    EndsIff(found, v, cfg.amount, cfg.tolerance);
    ReceivedIs(related, v);
    ReceivedIs(found, v);
    ShortestLeads(related, cfg.seed, v, cfg.budget.maxHops, c.path);
    forall e | e in c.path ensures SeenIn(e, independent) {
      var i :| 0 <= i < |c.path| && c.path[i] == e;
      assert Confirmed(c.path[i], independent);
      ConfirmedIff(e, independent);
    }
  }

  lemma CandidateShows(cfg: RunConfig, discovery: seq<Edge>, independent: seq<Edge>, related: seq<Edge>, visited: set<Address>,
                       found: seq<Edge>, report: Report, c: Candidate)
    requires Justified(cfg, discovery, independent, related, visited, found, report) && c in report.candidates
    ensures Shows(cfg, independent, related, found, c) && multiset(discovery) != multiset(independent)
    ensures forall e :: e in c.path ==> e in discovery
  {
    hide Established, FoundIn, InOrder, DroppedEarly, RefutedDraft, Shows, IsDraft, Complete, AllWithinHops, OnlyBudgetsCut, Fits, InFileOrder, UniqueLocators;
    EstablishedShows(cfg, related, independent, found, c);
    ShowsPath(cfg, independent, related, found, c);
  }

  lemma ShowsPath(cfg: RunConfig, independent: seq<Edge>, related: seq<Edge>, found: seq<Edge>, c: Candidate)
    requires Shows(cfg, independent, related, found, c)
    ensures forall e :: e in c.path ==> e in related
  {
  }

  // ---------------------------------------------------------------- what keeps an account out

  /** The transactions named are those of the path's edges that the second set does not have, each edge
      once and in path order. */
  ghost predicate Names(p: seq<Edge>, independent: seq<Edge>, txs: seq<nat>, at: seq<nat>)
  {
    && |txs| == |at| && (forall j, k :: 0 <= j < k < |at| ==> at[j] < at[k])
    && (forall j :: 0 <= j < |at| ==> at[j] < |p| && !SeenIn(p[at[j]], independent) && txs[j] == p[at[j]].tx)
    && forall i :: 0 <= i < |p| && !SeenIn(p[i], independent) ==> exists j :: 0 <= j < |at| && at[j] == i
  }

  lemma {:induction false} TxsNamed(p: seq<Edge>, independent: seq<Edge>) returns (at: seq<nat>)
    ensures Names(p, independent, UnconfirmedTxs(p, independent), at)
  {
    hide SeenIn, Confirmed, Names;
    if p == [] {
      at := [];
      NothingNamed(independent);
    } else {
      var n := |p| - 1;
      var was := TxsNamed(p[..n], independent);
      ConfirmedIff(p[n], independent);
      at := if SeenIn(p[n], independent) then was else was + [n];
      NamesNext(p, independent, UnconfirmedTxs(p[..n], independent), was);
    }
  }

  lemma NothingNamed(independent: seq<Edge>)
    ensures Names([], independent, [], [])
  {
  }

  lemma NamesNext(p: seq<Edge>, independent: seq<Edge>, txs: seq<nat>, was: seq<nat>)
    requires p != [] && Names(p[..|p| - 1], independent, txs, was)
    ensures var n := |p| - 1;
      if SeenIn(p[n], independent) then Names(p, independent, txs + [], was) else Names(p, independent, txs + [p[n].tx], was + [n])
  {
    hide SeenIn;
    var n := |p| - 1;
    assert txs + [] == txs;
    assert forall i :: 0 <= i < n ==> p[..n][i] == p[i];
    var at := if SeenIn(p[n], independent) then was else was + [n];
    forall i | 0 <= i < |p| && !SeenIn(p[i], independent) ensures exists j :: 0 <= j < |at| && at[j] == i {
      if i < n {
        assert !SeenIn(p[..n][i], independent);
        var j :| 0 <= j < |was| && was[j] == i;
        assert at[j] == i;
      } else {
        assert at[|was|] == n;
      }
    }
  }

  /** A draft account to which a shortest path leads, one of whose movements the second set does not
      have, is excluded with exactly the transactions of these movements, and is no candidate. */
  lemma UnseenStaysOut(cfg: RunConfig, discovery: seq<Edge>, independent: seq<Edge>, related: seq<Edge>, visited: set<Address>,
                       found: seq<Edge>, report: Report, v: Address, p: seq<Edge>) returns (txs: seq<nat>, at: seq<nat>)
    requires Justified(cfg, discovery, independent, related, visited, found, report) && multiset(discovery) != multiset(independent)
    requires v != cfg.seed && Ends(related, v, cfg.amount, cfg.tolerance)
    requires Leading(related, cfg.seed, v, cfg.budget.maxHops, p) && exists e :: e in p && !SeenIn(e, independent)
    ensures !Keeps(report, v) && Names(p, independent, txs, at) && Exclusion(v, ConfirmationMissing(txs)) in report.excluded
  {
    hide Justified, Keeps, Ends, SeenIn, Leading, AllConfirmed, Confirmed, BorneOut;
    EndsIff(related, v, cfg.amount, cfg.tolerance);
    at := TxsNamed(p, independent);
    txs := UnconfirmedTxs(p, independent);
    var e :| e in p && !SeenIn(e, independent);
    var i :| 0 <= i < |p| && p[i] == e;
    ConfirmedIff(e, independent);
    NotAllConfirmed(p, independent, i);
    LeadDecides(cfg, discovery, independent, related, visited, found, report, v, p);
    ExcludedFor(cfg, discovery, independent, related, visited, found, report, v, p);
  }

  lemma NotAllConfirmed(p: seq<Edge>, independent: seq<Edge>, i: nat)
    requires i < |p| && !Confirmed(p[i], independent)
    ensures !AllConfirmed(p, independent)
  {
    hide Confirmed;
  }

  lemma ExcludedFor(cfg: RunConfig, discovery: seq<Edge>, independent: seq<Edge>, related: seq<Edge>, visited: set<Address>,
                    found: seq<Edge>, report: Report, v: Address, p: seq<Edge>)
    requires Justified(cfg, discovery, independent, related, visited, found, report) && multiset(discovery) != multiset(independent)
    requires IsDraft(related, cfg.seed, cfg.amount, cfg.tolerance, v) && !Keeps(report, v)
    requires Leading(related, cfg.seed, v, cfg.budget.maxHops, p) && !AllConfirmed(p, independent)
    ensures Exclusion(v, ConfirmationMissing(UnconfirmedTxs(p, independent))) in report.excluded
  {
    hide Searched, FoundIn, InOrder, DroppedEarly, Established, IsDraft, Leading, AllConfirmed, UnconfirmedTxs, Touches;
    var x :| x in report.excluded && x.address == v && RefutedDraft(cfg, discovery, independent, related, found, x);
    assert x.reason.ConfirmationMissing?;
    var q :| UnconfirmedPath(cfg, related, independent, v, q, x.reason.txs);
    assert q == p;
  }

  // ---------------------------------------------------------------- another amount

  ghost predicate AlwaysExcludes(cfg: RunConfig, discovery: seq<Edge>, independent: seq<Edge>, x: Exclusion)
  {
    forall related, visited, found, report :: Justified(cfg, discovery, independent, related, visited, found, report) ==> x in report.excluded
  }

  /** One transfer pays an account its amount; the second edge set shows the same transaction with less,
      and a further one that makes up for it. Every report excludes the account, naming the transaction. */
  lemma AmountDecides()
    ensures ConfigOk(CFG)
    ensures NeverKeeps(CFG, [Transfer(1, 100)], [Transfer(1, 40), Transfer(2, 60)], 5)
    ensures AlwaysExcludes(CFG, [Transfer(1, 100)], [Transfer(1, 40), Transfer(2, 60)], Exclusion(5, ConfirmationMissing([1])))
  {
    hide FullySearched, NeverKeeps, AlwaysKeeps, Shortest, IsDraft, BorneOut, AllConfirmed, Others, Justified, Keeps, InFileOrder, Leading, First, ListingOf;
    var x, y, z := Transfer(1, 100), Transfer(1, 40), Transfer(2, 60);
    AmountGround(x, y, z);
    DirectSearched([x]);
    DirectSearched([y, z]);
    assert x in [x];
    DirectIsShortest([x], x);
    OthersOfOne(x);
    PathFirstDecides(CFG, [x], [y, z], [x], [y, z], 5, [x]);
    FoundAreEdges([x], CFG, [x]);
    SelfListing([x]);
    forall related, visited, found, report | Justified(CFG, [x], [y, z], related, visited, found, report)
      ensures Exclusion(5, ConfirmationMissing([1])) in report.excluded
    {
      SameGround(CFG, [x], [x], [y, z], [x], [y, z], related, visited, found, report, 5);
      OnlyEdgeLeads(x);
      FirstPathLeads([x], [x], related, 0, 5, 2, [x]);
      NotKept(CFG, [x], [y, z], related, visited, found, report, 5);
      ExcludedFor(CFG, [x], [y, z], related, visited, found, report, 5, [x]);
    }
  }

  lemma NotKept(cfg: RunConfig, discovery: seq<Edge>, independent: seq<Edge>, related: seq<Edge>, visited: set<Address>,
                found: seq<Edge>, report: Report, v: Address)
    requires NeverKeeps(cfg, discovery, independent, v) && Justified(cfg, discovery, independent, related, visited, found, report)
    ensures !Keeps(report, v)
  {
    hide Justified, Keeps;
  }

  lemma SelfListing(a: seq<Edge>)
    requires UniqueLocators(a)
    ensures ListingOf(a, a)
  {
  }

  lemma OthersOfOne(x: Edge)
    ensures [x] + Others([x], [x]) == [x]
  {
    var a := [x];
    assert a[..|a| - 1] == [] && x in a;
    assert Others(a, a) == Others([], a) + [];
  }

  lemma OnlyEdgeLeads(x: Edge)
    ensures forall i :: 0 <= i < |[x]| ==> First([x], [x][i])
  {
    var a := [x];
    assert a[..|a| - 1] == [];
    assert EdgesFrom(a, x.from) == EdgesFrom([], x.from) + [x];
  }

  lemma AmountGround(x: Edge, y: Edge, z: Edge)
    requires x == Transfer(1, 100) && y == Transfer(1, 40) && z == Transfer(2, 60)
    ensures Direct([x]) && Direct([y, z])
    ensures IsDraft([x], 0, 100, 0, 5) && multiset([x]) != multiset([y, z])
    ensures !AllConfirmed([x], [y, z]) && UnconfirmedTxs([x], [y, z]) == [1]
  {
    DirectTotals([x]);
    ValueOfTwo(x, y);
    assert x in [x];
    assert x in multiset([x]) && x !in multiset([y, z]);
    assert !Confirmed(x, [y, z]);
    var a := [x];
    assert a[..|a| - 1] == [] && !Confirmed(a[0], [y, z]);
    assert UnconfirmedTxs(a, [y, z]) == UnconfirmedTxs([], [y, z]) + [1];
  }
}
