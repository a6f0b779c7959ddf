/** The append-only ledger of source attempts
    (src/scan_tool/adapters/sqlite_storage.py:75-97, 462-544). */
module AttemptLedger {
  import opened Basics
  import opened SourceAttempts

  type AnalysisId = nat

  datatype Tag = NoTag | Latest | Pending | Fixed(nat)

  /** `call` stands for everything in a request's fingerprint but the block tag. */
  datatype Request = Request(call: nat, tag: Tag)

  /** The UNIQUE columns of a stored attempt. */
  datatype Slot = Slot(analysis: AnalysisId, request: Request, provider: ProviderId, number: nat)

  type Ledger = map<Slot, Attempt>

  // ---------------------------------------------------------------- renumbering

  ghost function MaxOf(s: set<nat>): (m: nat)
    ensures forall x :: x in s ==> x <= m
    ensures if s == {} then m == 0 else m in s
  {
    if s == {} then 0
    else
      var x :| x in s;
      assert s == (s - {x}) + {x};
      Max(x, MaxOf(s - {x}))
  }

  ghost function Numbers(l: Ledger, a: AnalysisId, q: Request, p: ProviderId): set<nat>
  {
    set slot | slot in l && slot.analysis == a && slot.request == q && slot.provider == p :: slot.number
  }

  /** The highest number stored for one analysis, request and provider. */
  ghost function Highest(l: Ledger, a: AnalysisId, q: Request, p: ProviderId): nat
  {
    MaxOf(Numbers(l, a, q, p))
  }

  ghost function Renumber(l: Ledger, a: AnalysisId, q: Request, attempts: seq<Attempt>): (rows: seq<Attempt>)
  {
    seq(|attempts|, i requires 0 <= i < |attempts| =>
      attempts[i].(number := Highest(l, a, q, attempts[i].provider) + attempts[i].number))
  }

  function SlotOf(a: AnalysisId, q: Request, t: Attempt): Slot
  {
    Slot(a, q, t.provider, t.number)
  }

  ghost predicate DistinctSlots(rows: seq<Attempt>)
  {
    forall i, k :: 0 <= i < k < |rows| ==> !SameSlot(rows[i], rows[k])
  }

  predicate SameSlot(x: Attempt, y: Attempt)
  {
    x.provider == y.provider && x.number == y.number
  }

  ghost predicate FreshSlots(l: Ledger, a: AnalysisId, q: Request, rows: seq<Attempt>)
  {
    forall i :: 0 <= i < |rows| ==> rows[i].number >= 1 && SlotOf(a, q, rows[i]) !in l
  }

  ghost function Inserted(l: Ledger, a: AnalysisId, q: Request, rows: seq<Attempt>): Ledger
  {
    if rows == [] then l
    else
      var n := |rows| - 1;
      Inserted(l, a, q, rows[..n])[SlotOf(a, q, rows[n]) := rows[n]]
  }

  /** All rows or none: the analysis must exist and no slot may be taken twice. */
  ghost function Save(l: Ledger, runs: set<AnalysisId>, a: AnalysisId, q: Request, attempts: seq<Attempt>): Option<Ledger>
  {
    var rows := Renumber(l, a, q, attempts);
    if (rows == [] || a in runs) && DistinctSlots(rows) && FreshSlots(l, a, q, rows) then Some(Inserted(l, a, q, rows)) else None
  }

  // ---------------------------------------------------------------- gap-free ledgers

  /** Numbers run from one without a gap. */
  ghost predicate GapFree(l: Ledger)
  {
    forall slot :: slot in l ==> slot.number >= 1 && (slot.number == 1 || slot.(number := slot.number - 1) in l)
  }

  lemma {:induction false} GapFreeDown(l: Ledger, slot: Slot, k: nat)
    requires GapFree(l) && slot in l && 1 <= k <= slot.number
    ensures slot.(number := k) in l
    decreases slot.number
  {
    if k < slot.number {
      GapFreeDown(l, slot.(number := slot.number - 1), k);
    } else {
      assert slot.(number := k) == slot;
    }
  }

  lemma HighestBounds(l: Ledger, slot: Slot)
    requires slot in l
    ensures slot.number <= Highest(l, slot.analysis, slot.request, slot.provider)
  {
    assert slot.number in Numbers(l, slot.analysis, slot.request, slot.provider);
  }

  lemma HighestStored(l: Ledger, a: AnalysisId, q: Request, p: ProviderId)
    ensures Highest(l, a, q, p) > 0 ==> Slot(a, q, p, Highest(l, a, q, p)) in l
  {
    var m := Highest(l, a, q, p);
    if m > 0 {
      assert m in Numbers(l, a, q, p);
    }
  }

  /** In a gap-free ledger the stored numbers are exactly 1..n. */
  lemma StoredNumbers(l: Ledger, a: AnalysisId, q: Request, p: ProviderId, k: nat)
    requires GapFree(l)
    ensures Slot(a, q, p, k) in l <==> 1 <= k <= Highest(l, a, q, p)
  {
    if Slot(a, q, p, k) in l {
      HighestBounds(l, Slot(a, q, p, k));
    }
    HighestStored(l, a, q, p);
    if 1 <= k <= Highest(l, a, q, p) {
      GapFreeDown(l, Slot(a, q, p, Highest(l, a, q, p)), k);
    }
  }

  // ---------------------------------------------------------------- the attempts of an execution

  ghost predicate DistinctProviders(tried: seq<Adapter>)
  {
    forall i, k :: 0 <= i < k < |tried| ==> tried[i].provider != tried[k].provider
  }

  lemma {:induction false} TrailPrefix(r: RetryPolicy, tried: seq<Adapter>, w: World, i: nat)
    requires r.maxAttempts >= 1 && i < |tried|
    ensures Trail(r, tried[..i], w) + Ladder(r, tried[i], w, 1) <= Trail(r, tried, w)
  {
    var n := |tried| - 1;
    if i < n {
      assert tried[..n][..i] == tried[..i] && tried[..n][i] == tried[i];
      TrailPrefix(r, tried[..n], w, i);
    }
  }

  /** The rung of the m-th attempt at the i-th source, as it stands in the trail. */
  lemma RungInTrail(r: RetryPolicy, tried: seq<Adapter>, w: World, i: nat, m: nat)
    requires ValidRetry(r) && i < |tried| && m < |Ladder(r, tried[i], w, 1)|
    ensures var j := |Trail(r, tried[..i], w)| + m;
      j < |Trail(r, tried, w)| && Trail(r, tried, w)[j] == Ladder(r, tried[i], w, 1)[m]
      && Trail(r, tried, w)[j].provider == tried[i].provider && Trail(r, tried, w)[j].number == m + 1
  {
    TrailPrefix(r, tried, w, i);
    LadderHasRungs(r, tried[i], w, 1);
    var ladder := Ladder(r, tried[i], w, 1);
    assert Rung(r, tried[i], 1 + m, m == |ladder| - 1, ladder[m]);
    var j := |Trail(r, tried[..i], w)| + m;
    assert (Trail(r, tried[..i], w) + ladder)[j] == ladder[m];
  }

  /** Every attempt of the trail is a rung of one source. */
  lemma {:induction false} TrailRung(r: RetryPolicy, tried: seq<Adapter>, w: World, j: nat) returns (i: nat, m: nat)
    requires r.maxAttempts >= 1 && j < |Trail(r, tried, w)|
    ensures i < |tried| && m < |Ladder(r, tried[i], w, 1)| && j == |Trail(r, tried[..i], w)| + m
  {
    var n := |tried| - 1;
    if j < |Trail(r, tried[..n], w)| {
      i, m := TrailRung(r, tried[..n], w, j);
      assert tried[..n][..i] == tried[..i];
    } else {
      i, m := n, j - |Trail(r, tried[..n], w)|;
    }
  }

  lemma {:induction false} TrailGrows(r: RetryPolicy, tried: seq<Adapter>, w: World, i: nat, k: nat)
    requires ValidRetry(r) && i < k < |tried|
    ensures |Trail(r, tried[..i], w)| + |Ladder(r, tried[i], w, 1)| <= |Trail(r, tried[..k], w)|
  {
    assert tried[..k][..i] == tried[..i] && tried[..k][i] == tried[i];
    TrailPrefix(r, tried[..k], w, i);
  }

  lemma DistinctRungs(r: RetryPolicy, tried: seq<Adapter>, w: World, x: nat, y: nat)
    requires ValidRetry(r) && DistinctProviders(tried) && x < y < |Trail(r, tried, w)|
    ensures !SameSlot(Trail(r, tried, w)[x], Trail(r, tried, w)[y])
  {
    hide DistinctProviders;
    var i, m := TrailRung(r, tried, w, x);
    var k, n := TrailRung(r, tried, w, y);
    RungInTrail(r, tried, w, i, m);
    RungInTrail(r, tried, w, k, n);
    hide Trail, Ladder;
    OtherProvider(tried, i, k);
  }

  lemma OtherProvider(tried: seq<Adapter>, i: nat, k: nat)
    requires DistinctProviders(tried) && i < |tried| && k < |tried|
    ensures tried[i].provider == tried[k].provider ==> i == k
  {
  }

  lemma SharedProvider(r: RetryPolicy, tried: seq<Adapter>, w: World, i: nat, k: nat)
    requires ValidRetry(r) && i < k < |tried| && tried[i].provider == tried[k].provider
    ensures !DistinctSlots(Trail(r, tried, w))
  {
    hide Trail, Ladder;
    LadderHasRungs(r, tried[i], w, 1);
    LadderHasRungs(r, tried[k], w, 1);
    RungInTrail(r, tried, w, i, 0);
    RungInTrail(r, tried, w, k, 0);
    TrailGrows(r, tried, w, i, k);
    var trail := Trail(r, tried, w);
    assert SameSlot(trail[|Trail(r, tried[..i], w)|], trail[|Trail(r, tried[..k], w)|]);
  }

  /** No slot of a trail repeats exactly when no two tried sources share a provider. */
  lemma TrailSlots(r: RetryPolicy, tried: seq<Adapter>, w: World)
    requires ValidRetry(r)
    ensures DistinctSlots(Trail(r, tried, w)) <==> DistinctProviders(tried)
  {
    hide Trail, SameSlot;
    if DistinctProviders(tried) {
      forall x, y | 0 <= x < y < |Trail(r, tried, w)| ensures !SameSlot(Trail(r, tried, w)[x], Trail(r, tried, w)[y]) {
        DistinctRungs(r, tried, w, x, y);
      }
    } else {
      var i, k :| 0 <= i < k < |tried| && tried[i].provider == tried[k].provider;
      SharedProvider(r, tried, w, i, k);
    }
  }

  lemma RenumberedSlots(l: Ledger, a: AnalysisId, q: Request, attempts: seq<Attempt>)
    requires forall i :: 0 <= i < |attempts| ==> attempts[i].number >= 1
    ensures DistinctSlots(Renumber(l, a, q, attempts)) <==> DistinctSlots(attempts)
    ensures FreshSlots(l, a, q, Renumber(l, a, q, attempts))
  {
    var rows := Renumber(l, a, q, attempts);
    forall i, k | 0 <= i < k < |rows| ensures SameSlot(rows[i], rows[k]) <==> SameSlot(attempts[i], attempts[k]) {
    }
    forall i | 0 <= i < |rows| ensures rows[i].number >= 1 && SlotOf(a, q, rows[i]) !in l {
      if SlotOf(a, q, rows[i]) in l {
        HighestBounds(l, SlotOf(a, q, rows[i]));
        assert false;
      }
    }
  }

  lemma TrailNumbers(r: RetryPolicy, tried: seq<Adapter>, w: World)
    requires ValidRetry(r)
    ensures forall i :: 0 <= i < |Trail(r, tried, w)| ==> Trail(r, tried, w)[i].number >= 1
  {
    forall j | 0 <= j < |Trail(r, tried, w)| ensures Trail(r, tried, w)[j].number >= 1 {
      var i, m := TrailRung(r, tried, w, j);
      RungInTrail(r, tried, w, i, m);
    }
  }

  /** An execution's attempts are stored exactly when its analysis exists and the sources it tried
      have distinct providers. */
  lemma SaveSucceedsIff(l: Ledger, runs: set<AnalysisId>, a: AnalysisId, q: Request, r: RetryPolicy, tried: seq<Adapter>, w: World)
    requires ValidRetry(r)
    ensures Save(l, runs, a, q, Trail(r, tried, w)).Some? <==> (tried == [] || a in runs) && DistinctProviders(tried)
  {
    TrailSlots(r, tried, w);
    TrailNumbers(r, tried, w);
    RenumberedSlots(l, a, q, Trail(r, tried, w));
    if tried != [] {
      LadderHasRungs(r, tried[|tried| - 1], w, 1);
    }
  }

  lemma {:induction false} InsertedRows(l: Ledger, a: AnalysisId, q: Request, rows: seq<Attempt>, slot: Slot)
    ensures slot in Inserted(l, a, q, rows) <==> slot in l || exists j :: 0 <= j < |rows| && SlotOf(a, q, rows[j]) == slot
    ensures FreshSlots(l, a, q, rows) && slot in l ==> Inserted(l, a, q, rows)[slot] == l[slot]
  {
    if rows != [] {
      var n := |rows| - 1;
      InsertedRows(l, a, q, rows[..n], slot);
      assert rows == rows[..n] + [rows[n]];
      if slot in Inserted(l, a, q, rows) && slot !in l && SlotOf(a, q, rows[n]) != slot {
        var j :| 0 <= j < n && SlotOf(a, q, rows[..n][j]) == slot;
        assert SlotOf(a, q, rows[j]) == slot;
      }
      if j: nat :| j < n && SlotOf(a, q, rows[j]) == slot {
        assert SlotOf(a, q, rows[..n][j]) == slot;
      }
    }
  }

  /** The slots that the i-th source of an execution adds. */
  ghost predicate Adds(l: Ledger, a: AnalysisId, q: Request, r: RetryPolicy, tried: seq<Adapter>, w: World, i: nat, slot: Slot)
    requires r.maxAttempts >= 1
  {
    && i < |tried| && slot.analysis == a && slot.request == q && slot.provider == tried[i].provider
    && Highest(l, a, q, slot.provider) < slot.number <= Highest(l, a, q, slot.provider) + |Ladder(r, tried[i], w, 1)|
  }

  ghost predicate IsRow(a: AnalysisId, q: Request, rows: seq<Attempt>, j: nat, slot: Slot)
  {
    j < |rows| && SlotOf(a, q, rows[j]) == slot
  }

  lemma RowAdds(l: Ledger, a: AnalysisId, q: Request, r: RetryPolicy, tried: seq<Adapter>, w: World, slot: Slot, j: nat) returns (i: nat)
    requires ValidRetry(r) && IsRow(a, q, Renumber(l, a, q, Trail(r, tried, w)), j, slot)
    ensures Adds(l, a, q, r, tried, w, i, slot)
  {
    var m;
    i, m := TrailRung(r, tried, w, j);
    RungInTrail(r, tried, w, i, m);
    hide Trail, Ladder, Highest;
  }

  lemma AddsRow(l: Ledger, a: AnalysisId, q: Request, r: RetryPolicy, tried: seq<Adapter>, w: World, slot: Slot, i: nat) returns (j: nat)
    requires ValidRetry(r) && Adds(l, a, q, r, tried, w, i, slot)
    ensures IsRow(a, q, Renumber(l, a, q, Trail(r, tried, w)), j, slot)
  {
    hide Trail, Ladder, Highest;
    var m := slot.number - Highest(l, a, q, slot.provider) - 1;
    RungInTrail(r, tried, w, i, m);
    j := |Trail(r, tried[..i], w)| + m;
  }

  /** What storing adds: for each source, as many numbers as it made attempts, right above the
      highest stored for its provider; nothing stored before is lost or changed. */
  lemma SavedSlots(l: Ledger, runs: set<AnalysisId>, a: AnalysisId, q: Request, r: RetryPolicy, tried: seq<Adapter>, w: World, slot: Slot)
    requires ValidRetry(r) && Save(l, runs, a, q, Trail(r, tried, w)).Some?
    ensures var saved := Save(l, runs, a, q, Trail(r, tried, w)).value;
      && (slot in saved <==> slot in l || exists i :: Adds(l, a, q, r, tried, w, i, slot))
      && (slot in l ==> saved[slot] == l[slot])
  {
    hide Trail, Adds, Renumber, Inserted;
    var rows := Renumber(l, a, q, Trail(r, tried, w));
    InsertedRows(l, a, q, rows, slot);
    if j: nat :| j < |rows| && SlotOf(a, q, rows[j]) == slot {
      var i := RowAdds(l, a, q, r, tried, w, slot, j);
    }
    if i :| Adds(l, a, q, r, tried, w, i, slot) {
      var j := AddsRow(l, a, q, r, tried, w, slot, i);
    }
  }

  lemma BelowIsSaved(l: Ledger, runs: set<AnalysisId>, a: AnalysisId, q: Request, r: RetryPolicy, tried: seq<Adapter>, w: World, slot: Slot)
    requires ValidRetry(r) && GapFree(l) && Save(l, runs, a, q, Trail(r, tried, w)).Some?
    requires slot in Save(l, runs, a, q, Trail(r, tried, w)).value
    ensures slot.number >= 1 && (slot.number == 1 || slot.(number := slot.number - 1) in Save(l, runs, a, q, Trail(r, tried, w)).value)
  {
    hide Save, Trail, Ladder, Highest;
    SavedSlots(l, runs, a, q, r, tried, w, slot);
    if slot.number > 1 {
      var below := slot.(number := slot.number - 1);
      SavedSlots(l, runs, a, q, r, tried, w, below);
      if slot !in l {
        var i :| Adds(l, a, q, r, tried, w, i, slot);
        if below.number > Highest(l, a, q, slot.provider) {
          assert Adds(l, a, q, r, tried, w, i, below);
        } else {
          HighestStored(l, a, q, slot.provider);
        }
      }
    }
  }

  /** Storing the attempts of any execution keeps the ledger gap-free. */
  lemma SaveKeepsGapFree(l: Ledger, runs: set<AnalysisId>, a: AnalysisId, q: Request, r: RetryPolicy, tried: seq<Adapter>, w: World)
    requires ValidRetry(r) && GapFree(l) && Save(l, runs, a, q, Trail(r, tried, w)).Some?
    ensures GapFree(Save(l, runs, a, q, Trail(r, tried, w)).value)
  {
    hide Save, Trail;
    var saved := Save(l, runs, a, q, Trail(r, tried, w)).value;
    forall slot | slot in saved ensures slot.number >= 1 && (slot.number == 1 || slot.(number := slot.number - 1) in saved) {
      BelowIsSaved(l, runs, a, q, r, tried, w, slot);
    }
  }
}
