/** Per-account totals over the related edges, and the draft candidates they select
    (scripts/contest/flow_final_candidates.py:267-282, 354-415). */
module FlowResiduals {
  import opened Basics
  import opened FlowGraph

  datatype Totals = Totals(inflow: nat, outflow: nat)
  {
    function Residual(): int
    {
      inflow - outflow
    }
  }

  // ---------------------------------------------------------------- sums

  function InSum(edges: seq<Edge>, v: Address): nat
  {
    if edges == [] then 0
    else InSum(edges[..|edges| - 1], v) + (if edges[|edges| - 1].to == v then edges[|edges| - 1].value else 0)
  }

  function OutSum(edges: seq<Edge>, v: Address): nat
  {
    if edges == [] then 0
    else OutSum(edges[..|edges| - 1], v) + (if edges[|edges| - 1].from == v then edges[|edges| - 1].value else 0)
  }

  function TotalsOf(edges: seq<Edge>, v: Address): Totals
  {
    Totals(InSum(edges, v), OutSum(edges, v))
  }

  function Value(edges: seq<Edge>): nat
  {
    if edges == [] then 0 else Value(edges[..|edges| - 1]) + edges[|edges| - 1].value
  }

  predicate Touches(edges: seq<Edge>, v: Address)
  {
    exists e :: e in edges && (e.to == v || e.from == v)
  }

  /** The accounts in the order in which the table first mentions them. */
  function Mentioned(order: seq<Address>, v: Address): (r: seq<Address>)
    ensures forall u :: u in r <==> u in order || u == v
    ensures NoRepeats(order) ==> NoRepeats(r)
  {
    if v in order then order
    else
      assert (order + [v])[..|order|] == order;
      NoRepeatsLast(order + [v]);
      order + [v]
  }

  function Look(table: map<Address, Totals>, v: Address): Totals
  {
    if v in table then table[v] else Totals(0, 0)
  }

  ghost predicate TableFor(edges: seq<Edge>, table: map<Address, Totals>)
  {
    forall v :: (v in table <==> Touches(edges, v)) && Look(table, v) == TotalsOf(edges, v)
  }

  /** Credits the receiver, then debits the sender, which may be the same account. */
  function AddEdge(table: map<Address, Totals>, e: Edge): map<Address, Totals>
  {
    var credited := table[e.to := Look(table, e.to).(inflow := Look(table, e.to).inflow + e.value)];
    credited[e.from := Look(credited, e.from).(outflow := Look(credited, e.from).outflow + e.value)]
  }

  lemma AddEdgeOk(edges: seq<Edge>, table: map<Address, Totals>, e: Edge)
    requires TableFor(edges, table)
    ensures TableFor(edges + [e], AddEdge(table, e))
  {
    var more := edges + [e];
    assert more[..|more| - 1] == edges && more[|more| - 1] == e;
    forall v ensures (v in AddEdge(table, e) <==> Touches(more, v)) && Look(AddEdge(table, e), v) == TotalsOf(more, v) {
      assert Touches(more, v) <==> Touches(edges, v) || e.to == v || e.from == v by {
        assert forall d :: d in more <==> d in edges || d == e;
        assert e in more;
      }
    }
  }

  /** Adds every edge to its two accounts; `order` is the insertion order of the table. */
  method AggregateResiduals(related: seq<Edge>) returns (table: map<Address, Totals>, order: seq<Address>)
    ensures TableFor(related, table)
    ensures NoRepeats(order) && forall v :: v in order <==> v in table
  {
    hide TableFor, Touches, TotalsOf;
    table, order := map[], [];
    EmptyTable();
    for n := 0 to |related|
      invariant TableFor(related[..n], table)
      invariant NoRepeats(order) && forall v :: v in order <==> v in table
    {
      var e := related[n];
      assert related[..n + 1] == related[..n] + [e];
      AddEdgeOk(related[..n], table, e);
      order := Mentioned(Mentioned(order, e.to), e.from);
      table := AddEdge(table, e);
    }
    assert related[..|related|] == related;
  }

  lemma EmptyTable()
    ensures TableFor([], map[])
  {
  }

  // ---------------------------------------------------------------- conservation

  function SumIn(order: seq<Address>, edges: seq<Edge>): nat
  {
    if order == [] then 0 else SumIn(order[..|order| - 1], edges) + InSum(edges, order[|order| - 1])
  }

  function SumOut(order: seq<Address>, edges: seq<Edge>): nat
  {
    if order == [] then 0 else SumOut(order[..|order| - 1], edges) + OutSum(edges, order[|order| - 1])
  }

  function SumResiduals(order: seq<Address>, edges: seq<Edge>): int
  {
    if order == [] then 0 else SumResiduals(order[..|order| - 1], edges) + TotalsOf(edges, order[|order| - 1]).Residual()
  }

  lemma {:induction false} LastEdge(order: seq<Address>, edges: seq<Edge>)
    requires edges != [] && NoRepeats(order)
    ensures var front, e := edges[..|edges| - 1], edges[|edges| - 1];
      && SumIn(order, edges) == SumIn(order, front) + (if e.to in order then e.value else 0)
      && SumOut(order, edges) == SumOut(order, front) + (if e.from in order then e.value else 0)
  {
    if order != [] {
      var n := |order| - 1;
      NoRepeatsLast(order);
      LastEdge(order[..n], edges);
      assert order == order[..n] + [order[n]];
    }
  }

  lemma {:induction false} SumsCover(order: seq<Address>, edges: seq<Edge>)
    requires NoRepeats(order) && forall e :: e in edges ==> e.to in order && e.from in order
    ensures SumIn(order, edges) == Value(edges) == SumOut(order, edges)
  {
    if edges == [] {
      NoEdges(order);
    } else {
      var n := |edges| - 1;
      assert edges[n] in edges && forall e :: e in edges[..n] ==> e in edges;
      SumsCover(order, edges[..n]);
      LastEdge(order, edges);
    }
  }

  lemma {:induction false} NoEdges(order: seq<Address>)
    ensures SumIn(order, []) == 0 == SumOut(order, [])
  {
    if order != [] {
      NoEdges(order[..|order| - 1]);
    }
  }

  lemma {:induction false} ResidualsAreDifferences(order: seq<Address>, edges: seq<Edge>)
    ensures SumResiduals(order, edges) == SumIn(order, edges) - SumOut(order, edges)
  {
    if order != [] {
      ResidualsAreDifferences(order[..|order| - 1], edges);
    }
  }

  /** Nothing is created or lost: inflows and outflows over the table both add up to the value of
      the edges, self-transfers included, so the residuals cancel. */
  lemma Conservation(order: seq<Address>, edges: seq<Edge>)
    requires NoRepeats(order) && forall v :: v in order <==> Touches(edges, v)
    ensures SumIn(order, edges) == Value(edges) && SumOut(order, edges) == Value(edges)
    ensures SumResiduals(order, edges) == 0
  {
    SumsCover(order, edges);
    ResidualsAreDifferences(order, edges);
  }

  // ---------------------------------------------------------------- order of the edges

  lemma {:induction false} SumsOfConcat(a: seq<Edge>, b: seq<Edge>, v: Address)
    ensures InSum(a + b, v) == InSum(a, v) + InSum(b, v)
    ensures OutSum(a + b, v) == OutSum(a, v) + OutSum(b, v)
  {
    if b == [] {
      assert a + b == a;
    } else {
      var n := |b| - 1;
      assert (a + b)[..|a + b| - 1] == a + b[..n];
      SumsOfConcat(a, b[..n], v);
    }
  }

  lemma TotalsWithout(b: seq<Edge>, k: nat, v: Address)
    requires k < |b|
    ensures var rest := b[..k] + b[k + 1..];
      && multiset(b) == multiset(rest) + multiset{b[k]}
      && InSum(b, v) == InSum(rest, v) + (if b[k].to == v then b[k].value else 0)
      && OutSum(b, v) == OutSum(rest, v) + (if b[k].from == v then b[k].value else 0)
  {
    assert b == b[..k] + [b[k]] + b[k + 1..];
    SumsOfConcat(b[..k], [b[k]], v);
    SumsOfConcat(b[..k] + [b[k]], b[k + 1..], v);
    SumsOfConcat(b[..k], b[k + 1..], v);
    OneEdge(b[k], v);
  }

  /** The totals do not depend on the order of the edges. */
  lemma {:induction false} TotalsIgnoreOrder(a: seq<Edge>, b: seq<Edge>, v: Address)
    requires multiset(a) == multiset(b)
    ensures TotalsOf(a, v) == TotalsOf(b, v)
  {
    assert |multiset(a)| == |a| && |multiset(b)| == |b|;
    if a != [] {
      var n := |a| - 1;
      assert a == a[..n] + [a[n]];
      assert a[n] in multiset(b);
      var k :| 0 <= k < |b| && b[k] == a[n];
      TotalsWithout(b, k, v);
      hide InSum, OutSum;
      SameRest(multiset(a[..n]), multiset(b[..k] + b[k + 1..]), a[n]);
      TotalsIgnoreOrder(a[..n], b[..k] + b[k + 1..], v);
      TotalsLast(a, v);
    }
  }

  lemma SameRest(x: multiset<Edge>, y: multiset<Edge>, e: Edge)
    requires x + multiset{e} == y + multiset{e}
    ensures x == y
  {
    assert x == x + multiset{e} - multiset{e};
  }

  lemma TotalsLast(a: seq<Edge>, v: Address)
    requires a != []
    ensures var n := |a| - 1;
      && InSum(a, v) == InSum(a[..n], v) + (if a[n].to == v then a[n].value else 0)
      && OutSum(a, v) == OutSum(a[..n], v) + (if a[n].from == v then a[n].value else 0)
  {
  }

  lemma OneEdge(e: Edge, v: Address)
    ensures InSum([e], v) == if e.to == v then e.value else 0
    ensures OutSum([e], v) == if e.from == v then e.value else 0
  {
    assert [e][..0] == [];
  }

  // ---------------------------------------------------------------- selection

  datatype Reason =
    | PassthroughNearZero | GrossInflowOnly | HasRelatedOutflow
    | IdenticalContent | PathNotFound | ConfirmationMissing(txs: seq<nat>)
    | IndependentDataMissing | IndependentOutflow | IndependentMismatch

  datatype Exclusion = Exclusion(address: Address, reason: Reason)

  datatype Account = Account(address: Address, totals: Totals)

  function Abs(n: int): nat
  {
    if n < 0 then -n else n
  }

  datatype Verdict = Draft | Drop(reason: Reason) | Ignore

  /** What the residual and the lack of related outflow say about one account. */
  function Judge(t: Totals, amount: int, tolerance: int): Verdict
  {
    if Abs(t.Residual() - amount) > tolerance then
      if t.inflow > 0 && t.outflow > 0 && Abs(t.Residual()) <= tolerance then Drop(PassthroughNearZero)
      else if t.inflow > 0 && Abs(t.inflow - amount) <= tolerance then Drop(GrossInflowOnly)
      else Ignore
    else if t.outflow != 0 then Drop(HasRelatedOutflow)
    else Draft
  }

  /** What is received, sent and left over is near the amount, and nothing is sent. */
  predicate EndsHere(t: Totals, amount: int, tolerance: int)
  {
    Abs(t.inflow - t.outflow - amount) <= tolerance && t.outflow == 0
  }

  /** A near miss: what is left over is near the amount although something is sent; or it is not, and
      the account passes on nearly all it gets, or else gets nearly the amount. */
  predicate NearMiss(t: Totals, amount: int, tolerance: int, reason: Reason)
  {
    var near := Abs(t.inflow - t.outflow - amount) <= tolerance;
    var passing := t.inflow > 0 && t.outflow > 0 && Abs(t.inflow - t.outflow) <= tolerance;
    match reason
    case HasRelatedOutflow => near && t.outflow != 0
    case PassthroughNearZero => !near && passing
    case GrossInflowOnly => !near && !passing && t.inflow > 0 && Abs(t.inflow - amount) <= tolerance
    case _ => false
  }

  lemma JudgeMeans(t: Totals, amount: int, tolerance: int)
    ensures Judge(t, amount, tolerance) == Draft <==> EndsHere(t, amount, tolerance)
    ensures forall reason :: Judge(t, amount, tolerance) == Drop(reason) <==> NearMiss(t, amount, tolerance, reason)
  {
  }

  predicate Ascending(items: seq<Account>)
  {
    forall i, k :: 0 <= i < k < |items| ==> items[i].address < items[k].address
  }

  function InsertAccount(items: seq<Account>, x: Account): (r: seq<Account>)
    requires Ascending(items) && forall i :: 0 <= i < |items| ==> items[i].address != x.address
    ensures Ascending(r) && forall y :: y in r <==> y in items || y == x
  {
    if items == [] then [x]
    else if x.address < items[0].address then [x] + items
    else
      var r := InsertAccount(items[1..], x);
      assert items == [items[0]] + items[1..];
      assert forall i :: 0 <= i < |r| ==> r[i] in r;
      [items[0]] + r
  }

  /** The accounts that are draft candidates for these edges. */
  ghost predicate IsDraft(edges: seq<Edge>, seed: Address, amount: int, tolerance: int, v: Address)
  {
    && v != seed && Touches(edges, v) && OutSum(edges, v) == 0
    && Abs(InSum(edges, v) - amount) <= tolerance
  }

  ghost predicate DraftList(edges: seq<Edge>, seed: Address, amount: int, tolerance: int, draft: seq<Account>)
  {
    && Ascending(draft)
    && forall x :: x in draft <==> IsDraft(edges, seed, amount, tolerance, x.address) && x.totals == TotalsOf(edges, x.address)
  }

  function SortAccounts(items: seq<Account>): (r: seq<Account>)
    requires forall i, k :: 0 <= i < k < |items| ==> items[i].address != items[k].address
    ensures Ascending(r) && forall y :: y in r <==> y in items
  {
    if items == [] then []
    else
      var n := |items| - 1;
      var r := SortAccounts(items[..n]);
      assert items == items[..n] + [items[n]];
      assert forall i :: 0 <= i < |r| ==> r[i] in items[..n];
      InsertAccount(r, items[n])
  }

  ghost predicate Wanted(table: map<Address, Totals>, seen: seq<Address>, seed: Address, amount: int, tolerance: int, x: Account)
  {
    && x.address in seen && x.address != seed && x.address in table && x.totals == table[x.address]
    && EndsHere(x.totals, amount, tolerance)
  }

  ghost predicate Unwanted(table: map<Address, Totals>, seen: seq<Address>, seed: Address, amount: int, tolerance: int, x: Exclusion)
  {
    && x.address in seen && x.address != seed && x.address in table
    && NearMiss(table[x.address], amount, tolerance, x.reason)
  }

  method SelectCandidates(table: map<Address, Totals>, order: seq<Address>, seed: Address, amount: int, tolerance: int)
    returns (draft: seq<Account>, excluded: seq<Exclusion>)
    requires NoRepeats(order) && forall v :: v in order <==> v in table
    ensures Ascending(draft)
    ensures forall x :: x in draft <==> Wanted(table, order, seed, amount, tolerance, x)
    ensures forall x :: x in excluded <==> Unwanted(table, order, seed, amount, tolerance, x)
  {
    hide Judge, EndsHere, NearMiss;
    draft, excluded := [], [];
    for n := 0 to |order|
      invariant forall i, k :: 0 <= i < k < |draft| ==> draft[i].address != draft[k].address
      invariant forall x :: x in draft <==> Wanted(table, order[..n], seed, amount, tolerance, x)
      invariant forall x :: x in excluded <==> Unwanted(table, order[..n], seed, amount, tolerance, x)
    {
      var v := order[n];
      assert order[..n + 1] == order[..n] + [v];
      NoRepeatsIff(order);
      JudgeMeans(table[v], amount, tolerance);
      if v != seed {
        match Judge(table[v], amount, tolerance)
        case Draft =>
          assert forall i :: 0 <= i < |draft| ==> draft[i] in draft;
          draft := draft + [Account(v, table[v])];
        case Drop(reason) =>
          excluded := excluded + [Exclusion(v, reason)];
        case Ignore =>
      }
    }
    assert order[..|order|] == order;
    draft := SortAccounts(draft);
  }

  lemma SelectedDrafts(edges: seq<Edge>, table: map<Address, Totals>, order: seq<Address>,
                       seed: Address, amount: int, tolerance: int, draft: seq<Account>)
    requires TableFor(edges, table) && (forall v :: v in order <==> v in table) && Ascending(draft)
    requires forall x :: x in draft <==> Wanted(table, order, seed, amount, tolerance, x)
    ensures DraftList(edges, seed, amount, tolerance, draft)
  {
    forall x ensures x in draft <==> IsDraft(edges, seed, amount, tolerance, x.address) && x.totals == TotalsOf(edges, x.address) {
      assert Look(table, x.address) == TotalsOf(edges, x.address);
    }
  }

  lemma NoMembers(a: seq<Account>, b: seq<Account>)
    requires forall x :: x in a <==> x in b
    ensures a == [] ==> b == []
  {
    if |b| > 0 {
      var x := b[0];
      assert x in b;
    }
  }

  /** A draft list is determined by its members. */
  lemma {:induction false} SameDrafts(a: seq<Account>, b: seq<Account>)
    requires Ascending(a) && Ascending(b) && forall x :: x in a <==> x in b
    ensures a == b
  {
    if a == [] || b == [] {
      NoMembers(a, b);
      NoMembers(b, a);
    } else {
      assert a[0] in b && b[0] in a;
      assert a[0] == b[0];
      forall x ensures x in a[1..] <==> x in b[1..] {
        assert x in a <==> x == a[0] || x in a[1..];
        assert x in b <==> x == b[0] || x in b[1..];
      }
      SameDrafts(a[1..], b[1..]);
    }
  }

  /** The draft list depends on the related edges only as a multiset. */
  lemma DraftIgnoresOrder(a: seq<Edge>, b: seq<Edge>, seed: Address, amount: int, tolerance: int, x: seq<Account>, y: seq<Account>)
    requires multiset(a) == multiset(b)
    requires DraftList(a, seed, amount, tolerance, x) && DraftList(b, seed, amount, tolerance, y)
    ensures x == y
  {
    forall v ensures TotalsOf(a, v) == TotalsOf(b, v) && (Touches(a, v) <==> Touches(b, v)) {
      TotalsIgnoreOrder(a, b, v);
      assert forall e :: e in a <==> e in multiset(a);
      assert forall e :: e in b <==> e in multiset(b);
    }
    SameDrafts(x, y);
  }
}
