/** What an execution stores and what later lookups read back, field by field
    (src/scan_tool/application/storage_orchestration.py:40-164; src/scan_tool/adapters/sqlite_storage.py:462-655). */
module CacheLaws {
  import opened Basics
  import opened SourceAttempts
  import opened AttemptLedger
  import opened SourceCache

  // ---------------------------------------------------------------- rows of the ledger

  lemma {:induction false} InsertedRow(l: Ledger, a: AnalysisId, q: Request, rows: seq<Attempt>, j: nat)
    requires DistinctSlots(rows) && j < |rows|
    ensures SlotOf(a, q, rows[j]) in Inserted(l, a, q, rows) && Inserted(l, a, q, rows)[SlotOf(a, q, rows[j])] == rows[j]
  {
    var n := |rows| - 1;
    if j < n {
      assert forall i, k :: 0 <= i < k < n ==> !SameSlot(rows[..n][i], rows[..n][k]);
      InsertedRow(l, a, q, rows[..n], j);
      assert !SameSlot(rows[j], rows[n]);
    }
  }

  /** Each call of each source asked is stored as it happened, under the next number of its provider. */
  lemma SavedRow(l: Ledger, runs: set<AnalysisId>, a: AnalysisId, q: Request, r: RetryPolicy, tried: seq<Adapter>, w: World, i: nat, m: nat)
    requires ValidRetry(r) && Save(l, runs, a, q, Trail(r, tried, w)).Some? && i < |tried| && m < |Ladder(r, tried[i], w, 1)|
    ensures var number := Highest(l, a, q, tried[i].provider) + m + 1;
      var slot, saved := Slot(a, q, tried[i].provider, number), Save(l, runs, a, q, Trail(r, tried, w)).value;
      slot in saved && saved[slot] == Ladder(r, tried[i], w, 1)[m].(number := number)
  {
    hide Trail, Ladder, Highest, Inserted, FreshSlots, DistinctSlots;
    RungInTrail(r, tried, w, i, m);
    var j := |Trail(r, tried[..i], w)| + m;
    InsertedRow(l, a, q, Renumber(l, a, q, Trail(r, tried, w)), j);
  }

  /** The attempts as they were made, each with its number above what its provider had. */
  ghost predicate Numbered(l: Ledger, a: AnalysisId, q: Request, attempts: seq<Attempt>, rows: seq<Attempt>)
  {
    |rows| == |attempts| && forall i :: 0 <= i < |rows| ==> NumberedAs(l, a, q, attempts[i], rows[i])
  }

  ghost predicate NumberedAs(l: Ledger, a: AnalysisId, q: Request, t: Attempt, row: Attempt)
  {
    && row.source == t.source && row.provider == t.provider && row.outcome == t.outcome
    && row.retryable == t.retryable && row.wait == t.wait
    && row.number == Highest(l, a, q, t.provider) + t.number
  }

  // ---------------------------------------------------------------- lookups

  /** The entry under a key is there, its source is permitted, and its bytes are. */
  predicate Readable(s: Store, k: CacheKey, allowed: set<SourceId>)
  {
    k in s.cache && s.cache[k].source in allowed && s.cache[k].artifact in s.files
    && s.files[s.cache[k].artifact] == s.cache[k].artifact.body
  }

  /** A call is a hit exactly when a permitted entry can be read back; then it carries the entry's
      source, provider, bytes and fallbacks and stores nothing. A permitted entry that cannot be read
      back raises, and asks nobody either. */
  lemma LookUpMeans(s: Store, r: RetryPolicy, adapters: map<SourceId, Adapter>, c: Call, w: World)
    requires r.maxAttempts >= 1 && Inv(s)
    ensures var (t, x) := Fetch(s, r, adapters, c, w);
      && (x.Hit? <==> Readable(s, c.key, c.policy.allowed))
      && (x.Hit? ==> t == s && x.response.source == s.cache[c.key].source && x.response.provider == s.cache[c.key].provider
                     && x.response.body == s.cache[c.key].artifact.body && x.response.fallbackFrom == s.cache[c.key].fallbackFrom)
      && (c.key in s.cache && s.cache[c.key].source in c.policy.allowed && !x.Hit? ==> t == s && x == Raised(ArtifactIntegrity))
      && (c.key in s.cache && s.cache[c.key].source in c.policy.allowed
          <==> StepAnswer(s, r, adapters, LookUp(c)).Some?)
  {
    hide Save, Renumber, SourceAttempts.Run;
    if c.key in s.cache {
      assert EntryOk(s, c.key);
    }
  }

  // ---------------------------------------------------------------- what a miss stores

  /** The bytes' file is not there or holds them. */
  predicate Undamaged(s: Store, body: Body)
  {
    Sha(body) in s.files ==> s.files[Sha(body)] == body
  }

  /** An answer after a miss is the sources', with the numbers the attempts got; its bytes are on file,
      the ledger is the grown one, and only a fixed block's first answer becomes an entry. */
  lemma AnswerStores(s: Store, r: RetryPolicy, adapters: map<SourceId, Adapter>, c: Call, w: World)
    requires r.maxAttempts >= 1 && Complete(s, r, adapters, c, w).1.Miss?
    ensures var (t, x) := Complete(s, r, adapters, c, w);
      var run := SourceAttempts.Run(r, adapters, c.policy, w);
      && run.Succeeded? && x.response == run.response && Undamaged(s, x.response.body)
      && Save(s.ledger, s.runs, c.analysis, c.key.request, run.attempts) == Some(t.ledger)
      && Numbered(s.ledger, c.analysis, c.key.request, run.attempts, x.attempts)
      && t.files == s.files[Sha(x.response.body) := x.response.body] && t.artifacts == s.artifacts + {Sha(x.response.body)}
      && t.cache == (if c.key.request.tag.Fixed? && c.key !in s.cache
                     then s.cache[c.key := Entry(x.response.source, x.response.provider, Sha(x.response.body), x.response.fallbackFrom)]
                     else s.cache)
      && (c.key.request.tag.Fixed? && c.key in s.cache ==>
            s.cache[c.key].source == x.response.source && s.cache[c.key].provider == x.response.provider
            && s.cache[c.key].artifact == Sha(x.response.body))
      && t.runs == s.runs
  {
    hide Save, SourceAttempts.Run, Highest;
  }

  /** A fixed block's entry says something else. */
  predicate OtherProvenance(s: Store, k: CacheKey, y: Response)
  {
    && k.request.tag.Fixed? && k in s.cache
    && (s.cache[k].source != y.source || s.cache[k].provider != y.provider || s.cache[k].artifact != Sha(y.body))
  }

  /** An execution that does not answer adds no entry. When no source answered, the attempts are stored
      and returned with the orchestrator's code, or nothing is; when one did, the failure says what
      stood in the way. */
  lemma FailureStores(s: Store, r: RetryPolicy, adapters: map<SourceId, Adapter>, c: Call, w: World)
    requires r.maxAttempts >= 1 && !Complete(s, r, adapters, c, w).1.Miss?
    ensures var (t, x) := Complete(s, r, adapters, c, w);
      var run := SourceAttempts.Run(r, adapters, c.policy, w);
      var saved := Save(s.ledger, s.runs, c.analysis, c.key.request, run.attempts);
      && t.cache == s.cache && t.runs == s.runs && (x.NoAnswer? || x.Raised?)
      && (x.NoAnswer? <==> run.GaveUp? && saved.Some?)
      && (x.NoAnswer? ==> x.code == run.code && t == s.(ledger := saved.value) && Numbered(s.ledger, c.analysis, c.key.request, run.attempts, x.attempts))
      && (x == Raised(AttemptsRejected) <==> saved.None? && (run.Succeeded? ==> Undamaged(s, run.response.body)))
      && (x == Raised(ArtifactIntegrity) <==> run.Succeeded? && !Undamaged(s, run.response.body))
      && (x == Raised(CacheConflict) <==> run.Succeeded? && Undamaged(s, run.response.body) && saved.Some?)
      && (x == Raised(CacheConflict) ==> OtherProvenance(s, c.key, run.response))
      && (t.ledger == s.ledger || (saved.Some? && t.ledger == saved.value))
  {
    hide Save, SourceAttempts.Run, Highest;
  }

  // ---------------------------------------------------------------- what is stored is read back

  /** A fixed block's first answer is what every later lookup whose policy permits its source reads
      back - source, provider, bytes and fallbacks - whatever happened in between, as long as the file
      holds the bytes. */
  lemma StoredIsReadBack(s: Store, r: RetryPolicy, adapters: map<SourceId, Adapter>, c: Call, w: World, ops: seq<Op>, d: Call, v: World)
    requires ValidRetry(r) && Inv(s) && c.key.request.tag.Fixed? && c.key !in s.cache && Complete(s, r, adapters, c, w).1.Miss?
    requires var (t, x) := Complete(s, r, adapters, c, w);
      var u := After(t, r, adapters, ops);
      d.key == c.key && x.response.source in d.policy.allowed
      && Sha(x.response.body) in u.files && u.files[Sha(x.response.body)] == x.response.body
    ensures Fetch(After(Complete(s, r, adapters, c, w).0, r, adapters, ops), r, adapters, d, v).1 == Hit(Complete(s, r, adapters, c, w).1.response)
  {
    hide Complete, Fetch, After, Inv;
    var (t, x) := Complete(s, r, adapters, c, w);
    AnswerStores(s, r, adapters, c, w);
    CompleteKeeps(s, r, adapters, c, w);
    AfterKeeps(t, r, adapters, ops);
    LookUpMeans(After(t, r, adapters, ops), r, adapters, d, v);
    assert c.key in t.cache;
  }
}
