/** The whole candidate pipeline: search, residuals, selection, and the second edge set's say
    (scripts/contest/flow_final_candidates.py:329-351, 418-543). */
module FlowAnalysis {
  import opened Basics
  import opened FlowGraph
  import opened FlowSearch
  import opened FlowPaths
  import opened FlowResiduals

  datatype Collection = IndexedTransfers | TraceSubtree | BlockWindowScan

  datatype RunConfig = RunConfig(
    seed: Address, amount: int, tolerance: int, toleranceCap: int,
    collection: Collection, independent: Collection, budget: Budget)

  datatype ConfigError = ToleranceAboveCap | NegativeTolerance | NegativeAmount | BudgetNotPositive | SameCollection

  datatype Candidate = Candidate(account: Account, path: seq<Edge>, independent: Totals)

  datatype Report = Report(exhausted: bool, candidates: seq<Candidate>, excluded: seq<Exclusion>)

  datatype Outcome = Rejected(error: ConfigError) | Reported(report: Report)

  // ---------------------------------------------------------------- confirmation

  /** One movement seen by two sources: the same facts, and no locator on which they disagree. */
  predicate FactsMatch(a: Edge, b: Edge)
  {
    && a.tx == b.tx && a.from == b.from && a.to == b.to && a.value == b.value && a.asset == b.asset
    && !(a.logIndex.Some? && b.logIndex.Some? && a.logIndex != b.logIndex)
    && !(a.trace.Some? && b.trace.Some? && a.trace != b.trace)
  }

  predicate Confirmed(e: Edge, independent: seq<Edge>)
  {
    exists o :: o in independent && FactsMatch(e, o)
  }

  predicate AllConfirmed(path: seq<Edge>, independent: seq<Edge>)
  {
    forall i :: 0 <= i < |path| ==> Confirmed(path[i], independent)
  }

  /** The transactions of the path's unconfirmed edges, in path order. */
  function UnconfirmedTxs(path: seq<Edge>, independent: seq<Edge>): seq<nat>
  {
    if path == [] then []
    else UnconfirmedTxs(path[..|path| - 1], independent)
         + if Confirmed(path[|path| - 1], independent) then [] else [path[|path| - 1].tx]
  }

  lemma {:induction false} NoneUnconfirmed(path: seq<Edge>, independent: seq<Edge>)
    ensures UnconfirmedTxs(path, independent) == [] <==> AllConfirmed(path, independent)
  {
    hide Confirmed;
    if path != [] {
      var n := |path| - 1;
      NoneUnconfirmed(path[..n], independent);
      if AllConfirmed(path[..n], independent) && Confirmed(path[n], independent) {
        forall i | 0 <= i < |path| ensures Confirmed(path[i], independent) {
          assert i < n ==> path[..n][i] == path[i];
        }
      }
    }
  }

  method Unconfirmed(path: seq<Edge>, independent: seq<Edge>) returns (txs: seq<nat>)
    ensures txs == UnconfirmedTxs(path, independent)
    ensures txs == [] <==> AllConfirmed(path, independent)
  {
    hide Confirmed, AllConfirmed;
    txs := [];
    for n := 0 to |path|
      invariant txs == UnconfirmedTxs(path[..n], independent)
    {
      assert path[..n + 1][..n] == path[..n];
      if !Confirmed(path[n], independent) {
        txs := txs + [path[n].tx];
      }
    }
    assert path[..|path|] == path;
    NoneUnconfirmed(path, independent);
  }

  /** The second edge set reaches the account, shows nothing leaving it, and agrees on the amount. */
  ghost predicate IndependentAgrees(related: seq<Edge>, cfg: RunConfig, v: Address)
  {
    Touches(related, v) && OutSum(related, v) == 0 && Abs(InSum(related, v) - cfg.amount) <= cfg.tolerance
  }

  /** Everything that makes a reported candidate one. */
  ghost predicate Established(cfg: RunConfig, related: seq<Edge>, independent: seq<Edge>, relatedIndependent: seq<Edge>, c: Candidate)
  {
    && IsDraft(related, cfg.seed, cfg.amount, cfg.tolerance, c.account.address)
    && c.account.totals == TotalsOf(related, c.account.address)
    && Found(related, cfg.seed, c.account.address, cfg.budget.maxHops, c.path)
    && AllConfirmed(c.path, independent)
    && IndependentAgrees(relatedIndependent, cfg, c.account.address)
    && c.independent == TotalsOf(relatedIndependent, c.account.address)
  }

  /** Why an account that discovery called terminal is nevertheless not reported. */
  ghost predicate Refuted(cfg: RunConfig, copy: bool, related: seq<Edge>, independent: seq<Edge>, relatedIndependent: seq<Edge>,
                          v: Address, reason: Reason)
  {
    match reason
    case IdenticalContent => copy
    case ConfirmationMissing(txs) => !copy && txs != [] && exists p :: UnconfirmedPath(cfg, related, independent, v, p, txs)
    case IndependentDataMissing => !copy && PathConfirmed(cfg, related, independent, v) && !Touches(relatedIndependent, v)
    case IndependentOutflow =>
      !copy && PathConfirmed(cfg, related, independent, v) && Touches(relatedIndependent, v) && OutSum(relatedIndependent, v) != 0
    case IndependentMismatch =>
      && !copy && PathConfirmed(cfg, related, independent, v) && Touches(relatedIndependent, v)
      && OutSum(relatedIndependent, v) == 0 && Abs(InSum(relatedIndependent, v) - cfg.amount) > cfg.tolerance
    case _ => false
  }

  /** The path found to the account is confirmed throughout. */
  ghost predicate PathConfirmed(cfg: RunConfig, related: seq<Edge>, independent: seq<Edge>, v: Address)
  {
    exists p :: Found(related, cfg.seed, v, cfg.budget.maxHops, p) && AllConfirmed(p, independent)
  }

  ghost predicate UnconfirmedPath(cfg: RunConfig, related: seq<Edge>, independent: seq<Edge>, v: Address, p: seq<Edge>, txs: seq<nat>)
  {
    Found(related, cfg.seed, v, cfg.budget.maxHops, p) && txs == UnconfirmedTxs(p, independent)
  }

  datatype Examined = Keep(candidate: Candidate) | Refuse(reason: Reason)

  /** One draft account. The path lookup cannot fail: the search that put the account into the
      residual table also left a path to it among the related edges. */
  method Examine(cfg: RunConfig, copy: bool, related: seq<Edge>, independent: seq<Edge>,
                 ghost relatedIndependent: seq<Edge>, table: map<Address, Totals>, x: Account) returns (r: Examined)
    requires TableFor(relatedIndependent, table)
    requires IsDraft(related, cfg.seed, cfg.amount, cfg.tolerance, x.address) && x.totals == TotalsOf(related, x.address)
    requires WithinHops(related, cfg.seed, cfg.budget.maxHops, x.address)
    ensures r.Keep? ==> !copy && r.candidate.account == x && Established(cfg, related, independent, relatedIndependent, r.candidate)
    ensures r.Refuse? ==> Refuted(cfg, copy, related, independent, relatedIndependent, x.address, r.reason)
    ensures r != Refuse(PathNotFound)
  {
    hide Shortest, Found, Confirmed, AllConfirmed, UnconfirmedTxs;
    if copy {
      return Refuse(IdenticalContent);
    }
    var path := FindPathEdges(related, cfg.seed, x.address, cfg.budget.maxHops);
    assert path.Some?;
    var unconfirmed := Unconfirmed(path.value, independent);
    if unconfirmed != [] {
      assert UnconfirmedPath(cfg, related, independent, x.address, path.value, unconfirmed);
      return Refuse(ConfirmationMissing(unconfirmed));
    }
    assert PathConfirmed(cfg, related, independent, x.address);
    assert Look(table, x.address) == TotalsOf(relatedIndependent, x.address);
    if x.address !in table {
      return Refuse(IndependentDataMissing);
    }
    var ind := table[x.address];
    if ind.outflow != 0 {
      return Refuse(IndependentOutflow);
    }
    if Abs(ind.Residual() - cfg.amount) > cfg.tolerance {
      return Refuse(IndependentMismatch);
    }
    return Keep(Candidate(x, path.value, ind));
  }

  // ---------------------------------------------------------------- the pipeline

  ghost predicate ConfigOk(cfg: RunConfig)
  {
    && 0 <= cfg.tolerance <= cfg.toleranceCap && cfg.amount >= 0
    && cfg.budget.maxHops > 0 && cfg.budget.maxNodes > 0 && cfg.budget.maxEdges > 0
    && cfg.independent != cfg.collection
  }

  /** The first of the faults that a configuration has. */
  ghost predicate ConfigFault(cfg: RunConfig, e: ConfigError)
  {
    var above := cfg.tolerance > cfg.toleranceCap;
    var negative := cfg.tolerance < 0 || cfg.toleranceCap < 0;
    var spent := cfg.budget.maxHops <= 0 || cfg.budget.maxNodes <= 0 || cfg.budget.maxEdges <= 0;
    match e
    case ToleranceAboveCap => above
    case NegativeTolerance => !above && negative
    case NegativeAmount => !above && !negative && cfg.amount < 0
    case BudgetNotPositive => !above && !negative && cfg.amount >= 0 && spent
    case SameCollection => !above && !negative && cfg.amount >= 0 && !spent && cfg.independent == cfg.collection
  }

  method CheckConfig(cfg: RunConfig) returns (e: Option<ConfigError>)
    ensures e.None? <==> ConfigOk(cfg)
    ensures e.Some? ==> ConfigFault(cfg, e.value)
  {
    if cfg.tolerance > cfg.toleranceCap { return Some(ToleranceAboveCap); }
    if cfg.tolerance < 0 || cfg.toleranceCap < 0 { return Some(NegativeTolerance); }
    if cfg.amount < 0 { return Some(NegativeAmount); }
    if cfg.budget.maxHops <= 0 || cfg.budget.maxNodes <= 0 || cfg.budget.maxEdges <= 0 { return Some(BudgetNotPositive); }
    if cfg.independent == cfg.collection { return Some(SameCollection); }
    return None;
  }

  /** What the second half of the pipeline decides, account by account. */
  ghost predicate Decided(cfg: RunConfig, copy: bool, related: seq<Edge>, independent: seq<Edge>, relatedIndependent: seq<Edge>,
                          drafts: seq<Account>, candidates: seq<Candidate>, refused: seq<Exclusion>)
  {
    && (forall c :: c in candidates ==> !copy && c.account in drafts && Established(cfg, related, independent, relatedIndependent, c))
    && (forall x :: x in refused ==> RefusedDraft(drafts, x.address) && Refuted(cfg, copy, related, independent, relatedIndependent, x.address, x.reason))
    && (forall x :: x in drafts ==> (exists c :: c in candidates && c.account == x) || (exists e :: e in refused && e.address == x.address))
    && InOrder(candidates) && |candidates| + |refused| == |drafts|
  }

  /** Candidates are listed by address, each once. */
  ghost predicate InOrder(candidates: seq<Candidate>)
  {
    forall i, k :: 0 <= i < k < |candidates| ==> candidates[i].account.address < candidates[k].account.address
  }

  ghost predicate RefusedDraft(drafts: seq<Account>, v: Address)
  {
    exists x :: x in drafts && x.address == v
  }

  method Decide(cfg: RunConfig, copy: bool, related: seq<Edge>, independent: seq<Edge>, ghost relatedIndependent: seq<Edge>,
                table: map<Address, Totals>, drafts: seq<Account>)
    returns (candidates: seq<Candidate>, refused: seq<Exclusion>)
    requires TableFor(relatedIndependent, table)
    requires DraftList(related, cfg.seed, cfg.amount, cfg.tolerance, drafts)
    requires forall x :: x in drafts ==> WithinHops(related, cfg.seed, cfg.budget.maxHops, x.address)
    ensures Decided(cfg, copy, related, independent, relatedIndependent, drafts, candidates, refused)
    ensures forall x :: x in refused ==> x.reason != PathNotFound
  {
    candidates, refused := [], [];
    hide TableFor, Established, Refuted, IsDraft, WithinHops, Ascending, TotalsOf;
    for n := 0 to |drafts|
      invariant Decided(cfg, copy, related, independent, relatedIndependent, drafts[..n], candidates, refused)
      invariant forall x :: x in refused ==> x.reason != PathNotFound
    {
      assert drafts[n] in drafts;
      assert drafts[..n + 1] == drafts[..n] + [drafts[n]];
      var r := Examine(cfg, copy, related, independent, relatedIndependent, table, drafts[n]);
      EarlierAreBefore(drafts, n);
      DecideOne(cfg, copy, related, independent, relatedIndependent, drafts[..n], candidates, refused, drafts[n], r);
      match r
      case Keep(c) => candidates := candidates + [c];
      case Refuse(reason) => refused := refused + [Exclusion(drafts[n].address, reason)];
    }
    assert drafts[..|drafts|] == drafts;
  }

  lemma EarlierAreBefore(drafts: seq<Account>, n: nat)
    requires Ascending(drafts) && n < |drafts|
    ensures forall y :: y in drafts[..n] ==> y.address < drafts[n].address
  {
  }

  lemma DecideOne(cfg: RunConfig, copy: bool, related: seq<Edge>, independent: seq<Edge>, relatedIndependent: seq<Edge>,
                  drafts: seq<Account>, candidates: seq<Candidate>, refused: seq<Exclusion>, x: Account, r: Examined)
    requires Decided(cfg, copy, related, independent, relatedIndependent, drafts, candidates, refused)
    requires r.Keep? ==> !copy && r.candidate.account == x && Established(cfg, related, independent, relatedIndependent, r.candidate)
    requires r.Refuse? ==> Refuted(cfg, copy, related, independent, relatedIndependent, x.address, r.reason)
    requires forall y :: y in drafts ==> y.address < x.address
    ensures match r
      case Keep(c) => Decided(cfg, copy, related, independent, relatedIndependent, drafts + [x], candidates + [c], refused)
      case Refuse(reason) => Decided(cfg, copy, related, independent, relatedIndependent, drafts + [x], candidates, refused + [Exclusion(x.address, reason)])
  {
    hide Established, Refuted;
    var more := drafts + [x];
    assert forall y :: y in more <==> y in drafts || y == x;
    forall y | y in drafts ensures RefusedDraft(more, y.address) { assert y in more; }
    assert RefusedDraft(more, x.address) by { assert x in more; }
    forall v | RefusedDraft(drafts, v) ensures RefusedDraft(more, v) {
      var y :| y in drafts && y.address == v;
      assert y in more;
    }
    match r
    case Keep(c) =>
      assert forall d :: d in candidates + [c] <==> d in candidates || d == c;
      assert forall i :: 0 <= i < |candidates| ==> candidates[i] in candidates;
    case Refuse(reason) =>
      var e := Exclusion(x.address, reason);
      assert forall d :: d in refused + [e] <==> d in refused || d == e;
  }

  /** The report, tied to the two searches it rests on. */
  ghost predicate Justified(cfg: RunConfig, discovery: seq<Edge>, independent: seq<Edge>, related: seq<Edge>, visited: set<Address>,
                            relatedIndependent: seq<Edge>, report: Report)
  {
    && Searched(discovery, cfg.seed, cfg.budget, related, visited, report.exhausted)
    && FoundIn(independent, cfg, relatedIndependent) && InOrder(report.candidates)
    && (forall c :: c in report.candidates ==>
          Established(cfg, related, independent, relatedIndependent, c) && multiset(discovery) != multiset(independent))
    && (forall x :: x in report.excluded ==> x.address != cfg.seed && x.reason != PathNotFound)
    && (forall x :: x in report.excluded ==>
          DroppedEarly(cfg, related, x) || RefutedDraft(cfg, discovery, independent, related, relatedIndependent, x))
    && (forall x :: DroppedEarly(cfg, related, x) ==> x in report.excluded)
    && (forall v :: IsDraft(related, cfg.seed, cfg.amount, cfg.tolerance, v) ==>
          (exists c :: c in report.candidates && c.account.address == v)
          || (exists x :: x in report.excluded && x.address == v && RefutedDraft(cfg, discovery, independent, related, relatedIndependent, x)))
  }

  /** These are the edges that the search of the second edge set found. */
  ghost predicate FoundIn(edges: seq<Edge>, cfg: RunConfig, related: seq<Edge>)
  {
    exists visited, exhausted :: Searched(edges, cfg.seed, cfg.budget, related, visited, exhausted)
  }

  /** The account's own totals rule it out. */
  ghost predicate DroppedEarly(cfg: RunConfig, related: seq<Edge>, x: Exclusion)
  {
    x.address != cfg.seed && Touches(related, x.address)
    && NearMiss(TotalsOf(related, x.address), cfg.amount, cfg.tolerance, x.reason)
  }

  /** A draft account that the second edge set does not bear out. */
  ghost predicate RefutedDraft(cfg: RunConfig, discovery: seq<Edge>, independent: seq<Edge>,
                               related: seq<Edge>, relatedIndependent: seq<Edge>, x: Exclusion)
  {
    && IsDraft(related, cfg.seed, cfg.amount, cfg.tolerance, x.address)
    && Refuted(cfg, multiset(discovery) == multiset(independent), related, independent, relatedIndependent, x.address, x.reason)
  }

  lemma DraftsWithinHops(edges: seq<Edge>, cfg: RunConfig, related: seq<Edge>, visited: set<Address>, exhausted: bool, drafts: seq<Account>)
    requires Searched(edges, cfg.seed, cfg.budget, related, visited, exhausted)
    requires DraftList(related, cfg.seed, cfg.amount, cfg.tolerance, drafts)
    ensures forall x :: x in drafts ==> WithinHops(related, cfg.seed, cfg.budget.maxHops, x.address)
  {
    hide WithinHops, UniqueLocators, Complete;
    forall x | x in drafts ensures WithinHops(related, cfg.seed, cfg.budget.maxHops, x.address) {
      assert Touches(related, x.address);
    }
  }

  /** Rejects exactly the configurations out of range, and otherwise reports candidates that both
      edge sets bear out; no draft account is ever lost for want of a discovery path. */
  method RunAnalysis(cfg: RunConfig, discovery: seq<Edge>, independent: seq<Edge>)
    returns (r: Outcome, ghost related: seq<Edge>, ghost visited: set<Address>, ghost relatedIndependent: seq<Edge>)
    ensures r.Reported? <==> ConfigOk(cfg)
    ensures r.Rejected? ==> ConfigFault(cfg, r.error)
    ensures r.Reported? ==> Justified(cfg, discovery, independent, related, visited, relatedIndependent, r.report)
  {
    hide Justified, Searched, TableFor, DraftList, Decided, Wanted, Unwanted;
    var e := CheckConfig(cfg);
    if e.Some? {
      return Rejected(e.value), *, *, *;
    }
    var found, seen, exhausted := DiscoverRelatedEdges(discovery, cfg.seed, cfg.budget);
    var table, order := AggregateResiduals(found);
    var drafts, excluded := SelectCandidates(table, order, cfg.seed, cfg.amount, cfg.tolerance);
    SelectedDrafts(found, table, order, cfg.seed, cfg.amount, cfg.tolerance, drafts);
    DraftsWithinHops(discovery, cfg, found, seen, exhausted, drafts);
    var copy := multiset(discovery) == multiset(independent);
    var foundIndependent, seenIndependent, cut := DiscoverRelatedEdges(independent, cfg.seed, cfg.budget);
    assert FoundIn(independent, cfg, foundIndependent);
    var tableIndependent, _ := AggregateResiduals(foundIndependent);
    var candidates, refused := Decide(cfg, copy, found, independent, foundIndependent, tableIndependent, drafts);
    related, visited, relatedIndependent := found, seen, foundIndependent;
    var report := Report(exhausted, candidates, excluded + refused);
    Justify(cfg, discovery, independent, found, seen, foundIndependent, table, order, drafts, excluded, refused, report);
    r := Reported(report);
  }

  lemma Justify(cfg: RunConfig, discovery: seq<Edge>, independent: seq<Edge>, related: seq<Edge>, visited: set<Address>,
                relatedIndependent: seq<Edge>, table: map<Address, Totals>, order: seq<Address>,
                drafts: seq<Account>, excluded: seq<Exclusion>, refused: seq<Exclusion>, report: Report)
    requires Searched(discovery, cfg.seed, cfg.budget, related, visited, report.exhausted) && FoundIn(independent, cfg, relatedIndependent)
    requires TableFor(related, table) && forall v :: v in order <==> v in table
    requires DraftList(related, cfg.seed, cfg.amount, cfg.tolerance, drafts)
    requires forall x :: x in excluded <==> Unwanted(table, order, cfg.seed, cfg.amount, cfg.tolerance, x)
    requires Decided(cfg, multiset(discovery) == multiset(independent), related, independent, relatedIndependent, drafts, report.candidates, refused)
    requires forall x :: x in refused ==> x.reason != PathNotFound
    requires report.excluded == excluded + refused
    ensures Justified(cfg, discovery, independent, related, visited, relatedIndependent, report)
  {
    hide Searched, FoundIn, Established, Refuted, IsDraft, Ascending, NearMiss, TableFor;
    forall x ensures x in excluded <==> DroppedEarly(cfg, related, x) {
      EarlyDrops(cfg, related, table, order, x);
    }
    EarlyReasons(cfg, related, excluded);
    forall x | x in refused ensures x.address != cfg.seed && RefutedDraft(cfg, discovery, independent, related, relatedIndependent, x) {
      DraftIsNotSeed(related, cfg, drafts, x.address);
    }
    hide DroppedEarly, Decided;
    forall v | IsDraft(related, cfg.seed, cfg.amount, cfg.tolerance, v)
      ensures (exists c :: c in report.candidates && c.account.address == v)
        || (exists x :: x in report.excluded && x.address == v && RefutedDraft(cfg, discovery, independent, related, relatedIndependent, x))
    {
      assert Account(v, TotalsOf(related, v)) in drafts;
      DraftDecided(cfg, multiset(discovery) == multiset(independent), related, independent, relatedIndependent, drafts,
                   report.candidates, refused, Account(v, TotalsOf(related, v)));
    }
    DecidedCandidates(cfg, multiset(discovery) == multiset(independent), related, independent, relatedIndependent, drafts, report.candidates, refused);
  }

  lemma DraftDecided(cfg: RunConfig, copy: bool, related: seq<Edge>, independent: seq<Edge>, relatedIndependent: seq<Edge>,
                     drafts: seq<Account>, candidates: seq<Candidate>, refused: seq<Exclusion>, x: Account)
    requires Decided(cfg, copy, related, independent, relatedIndependent, drafts, candidates, refused) && x in drafts
    ensures (exists c :: c in candidates && c.account.address == x.address) || (exists e :: e in refused && e.address == x.address)
  {
    hide Established, Refuted;
  }

  lemma DecidedCandidates(cfg: RunConfig, copy: bool, related: seq<Edge>, independent: seq<Edge>, relatedIndependent: seq<Edge>,
                          drafts: seq<Account>, candidates: seq<Candidate>, refused: seq<Exclusion>)
    requires Decided(cfg, copy, related, independent, relatedIndependent, drafts, candidates, refused)
    ensures forall c :: c in candidates ==> !copy && Established(cfg, related, independent, relatedIndependent, c)
    ensures InOrder(candidates)
  {
    hide Established, Refuted;
  }

  lemma EarlyDrops(cfg: RunConfig, related: seq<Edge>, table: map<Address, Totals>, order: seq<Address>, x: Exclusion)
    requires TableFor(related, table) && forall v :: v in order <==> v in table
    ensures Unwanted(table, order, cfg.seed, cfg.amount, cfg.tolerance, x) <==> DroppedEarly(cfg, related, x)
  {
    hide NearMiss;
    assert Look(table, x.address) == TotalsOf(related, x.address);
  }

  lemma EarlyReasons(cfg: RunConfig, related: seq<Edge>, excluded: seq<Exclusion>)
    requires forall x :: x in excluded <==> DroppedEarly(cfg, related, x)
    ensures forall x :: x in excluded ==> x.address != cfg.seed && x.reason != PathNotFound
  {
  }

  lemma DraftIsNotSeed(related: seq<Edge>, cfg: RunConfig, drafts: seq<Account>, v: Address)
    requires DraftList(related, cfg.seed, cfg.amount, cfg.tolerance, drafts) && RefusedDraft(drafts, v)
    ensures v != cfg.seed && IsDraft(related, cfg.seed, cfg.amount, cfg.tolerance, v)
  {
  }

  // ---------------------------------------------------------------- order of the input

  lemma {:induction false} AtMostOnce(s: seq<Edge>, e: Edge)
    requires UniqueLocators(s)
    ensures multiset(s)[e] <= 1
  {
    if s != [] {
      var n := |s| - 1;
      assert s == s[..n] + [s[n]];
      AtMostOnce(s[..n], e);
      assert forall i :: 0 <= i < n ==> LocatorOf(s[i]) != LocatorOf(s[n]);
    }
  }

  lemma SameMembersSameMultiset(a: seq<Edge>, b: seq<Edge>)
    requires UniqueLocators(a) && UniqueLocators(b) && forall e :: e in a <==> e in b
    ensures multiset(a) == multiset(b)
  {
    forall e ensures multiset(a)[e] == multiset(b)[e] {
      AtMostOnce(a, e);
      AtMostOnce(b, e);
      assert (e in multiset(a) <==> e in a) && (e in multiset(b) <==> e in b);
    }
  }

  lemma SameEdges(a: seq<Edge>, b: seq<Edge>)
    requires multiset(a) == multiset(b)
    ensures Members(a) == Members(b)
  {
    forall e ensures e in a <==> e in b {
      assert (e in multiset(a) <==> e in a) && (e in multiset(b) <==> e in b);
    }
  }

  /** Whether a search is cut short does not depend on the order of its edges. */
  lemma CutIgnoresOrder(cfg: RunConfig, a: seq<Edge>, b: seq<Edge>, relatedA: seq<Edge>, relatedB: seq<Edge>,
                        visitedA: set<Address>, visitedB: set<Address>, cutA: bool, cutB: bool)
    requires UniqueLocators(a) && UniqueLocators(b) && multiset(a) == multiset(b)
    requires Searched(a, cfg.seed, cfg.budget, relatedA, visitedA, cutA)
    requires Searched(b, cfg.seed, cfg.budget, relatedB, visitedB, cutB)
    ensures cutA == cutB
  {
    hide UniqueLocators, Fits, Complete, Budgeted, AllWithinHops, OnlyBudgetsCut;
    SameEdges(a, b);
  }

  /** When the search of one listing of the edges was not cut short, every other listing of the same
      edges is searched in full too and gives the same drafts. */
  lemma DraftsIgnoreInputOrder(cfg: RunConfig, a: seq<Edge>, b: seq<Edge>, relatedA: seq<Edge>, relatedB: seq<Edge>,
                               visitedA: set<Address>, visitedB: set<Address>, cutB: bool, draftsA: seq<Account>, draftsB: seq<Account>)
    requires UniqueLocators(a) && UniqueLocators(b) && multiset(a) == multiset(b)
    requires Searched(a, cfg.seed, cfg.budget, relatedA, visitedA, false)
    requires Searched(b, cfg.seed, cfg.budget, relatedB, visitedB, cutB)
    requires DraftList(relatedA, cfg.seed, cfg.amount, cfg.tolerance, draftsA)
    requires DraftList(relatedB, cfg.seed, cfg.amount, cfg.tolerance, draftsB)
    ensures !cutB && draftsA == draftsB
  {
    CutIgnoresOrder(cfg, a, b, relatedA, relatedB, visitedA, visitedB, false, cutB);
    SameEdges(a, b);
    hide UniqueLocators, DraftList, Fits, AllWithinHops, OnlyBudgetsCut;
    assert visitedA == visitedB;
    SameMembersSameMultiset(relatedA, relatedB);
    DraftIgnoresOrder(relatedA, relatedB, cfg.seed, cfg.amount, cfg.tolerance, draftsA, draftsB);
  }
}
