/** When an execution gets an answer, per run and as a caller can tell beforehand
    (src/scan_tool/application/storage_orchestration.py:40-164; src/scan_tool/adapters/sqlite_storage.py:462-655). */
module SourceAnswers {
  import opened Basics
  import opened SourceAttempts
  import opened AttemptLedger
  import opened SourceCache

  // ---------------------------------------------------------------- worlds

  /** No source ever answers. */
  function AllFail(id: SourceId, n: nat): Reply { Failure(Permanent, NoHint, 0.0) }

  /** Every source answers with the same body. */
  function AllAnswer(body: Body): World { (id: SourceId, n: nat) => Payload(body) }

  lemma {:induction false} NobodyReached(r: RetryPolicy, sources: seq<Adapter>)
    requires r.maxAttempts >= 1
    ensures Reached(r, sources, AllFail) == |sources|
  {
    if sources != [] {
      NobodyReached(r, sources[1..]);
    }
  }

  lemma FirstAnswers(r: RetryPolicy, adapters: map<SourceId, Adapter>, p: Policy, body: Body)
    requires r.maxAttempts >= 1 && p.rules == Allowed && !p.offline && Usable(adapters, p) != []
    ensures var first := Usable(adapters, p)[0];
      && Tried(r, adapters, p, AllAnswer(body)) == [first]
      && Run(r, adapters, p, AllAnswer(body)).Succeeded?
      && Run(r, adapters, p, AllAnswer(body)).response == Response(first.source, first.provider, body, [])
      && Run(r, adapters, p, AllAnswer(body)).attempts == Trail(r, [first], AllAnswer(body))
  {
    var w := AllAnswer(body);
    var sources := Usable(adapters, p);
    hide Usable;
    assert Final(r, sources[0], w, 1) == Payload(body);
    assert Reached(r, sources, w) == 1 && sources[..1] == [sources[0]];
    assert [sources[0]][..0] == [];
  }

  // ---------------------------------------------------------------- which attempts are stored

  /** The policy lets no source be asked. */
  predicate Gated(p: Policy)
  {
    p.rules != Allowed || p.offline
  }

  lemma StoredInWorld(l: Ledger, runs: set<AnalysisId>, a: AnalysisId, q: Request, r: RetryPolicy, adapters: map<SourceId, Adapter>, p: Policy, w: World)
    requires ValidRetry(r)
    requires Gated(p) || Usable(adapters, p) == [] || (a in runs && DistinctProviders(Usable(adapters, p)))
    ensures Save(l, runs, a, q, Run(r, adapters, p, w).attempts).Some?
  {
    var tried := Tried(r, adapters, p, w);
    RunFollowsTrail(r, adapters, p, w);
    SaveSucceedsIff(l, runs, a, q, r, tried, w);
    hide Save, Run, Usable, Reached;
  }

  lemma StoredWhenAllFail(l: Ledger, runs: set<AnalysisId>, a: AnalysisId, q: Request, r: RetryPolicy, adapters: map<SourceId, Adapter>, p: Policy)
    requires ValidRetry(r) && !Gated(p)
    ensures Save(l, runs, a, q, Run(r, adapters, p, AllFail).attempts).Some?
      <==> (Usable(adapters, p) == [] || a in runs) && DistinctProviders(Usable(adapters, p))
  {
    var sources := Usable(adapters, p);
    NobodyReached(r, sources);
    assert Tried(r, adapters, p, AllFail) == sources;
    RunFollowsTrail(r, adapters, p, AllFail);
    SaveSucceedsIff(l, runs, a, q, r, sources, AllFail);
    hide Save, Run, Usable;
  }

  /** A caller's guarantee: the attempts are stored whatever the sources answer exactly when the
      policy lets none be asked, none is usable, or the analysis is known and the usable sources have
      distinct providers. */
  lemma AlwaysStoredIff(l: Ledger, runs: set<AnalysisId>, a: AnalysisId, q: Request, r: RetryPolicy, adapters: map<SourceId, Adapter>, p: Policy)
    requires ValidRetry(r)
    ensures (forall w: World :: Save(l, runs, a, q, Run(r, adapters, p, w).attempts).Some?)
      <==> Gated(p) || Usable(adapters, p) == [] || (a in runs && DistinctProviders(Usable(adapters, p)))
  {
    hide Save, Run, Usable, DistinctProviders;
    if Gated(p) || Usable(adapters, p) == [] || (a in runs && DistinctProviders(Usable(adapters, p))) {
      forall w: World ensures Save(l, runs, a, q, Run(r, adapters, p, w).attempts).Some? {
        StoredInWorld(l, runs, a, q, r, adapters, p, w);
      }
    } else {
      StoredWhenAllFail(l, runs, a, q, r, adapters, p);
      var w: World := AllFail;
      assert !Save(l, runs, a, q, Run(r, adapters, p, w).attempts).Some?;
    }
  }

  /** Two sources of one provider that both fail: the execution's attempts are refused. */
  lemma SharedProviderIsRefused(q: Request, r: RetryPolicy)
    requires ValidRetry(r)
    ensures var adapters := map[1 := Adapter(1, 9), 2 := Adapter(2, 9)];
      Save(map[], {1}, 1, q, Run(r, adapters, Policy(Allowed, {1, 2}, [1, 2], true, false), AllFail).attempts) == None
  {
    var adapters := map[1 := Adapter(1, 9), 2 := Adapter(2, 9)];
    var p := Policy(Allowed, {1, 2}, [1, 2], true, false);
    BothUsable(adapters, p);
    StoredWhenAllFail(map[], {1}, 1, q, r, adapters, p);
    hide Save, Run, Usable;
    var sources := Usable(adapters, p);
    assert sources[0].provider == sources[1].provider;
  }

  lemma BothUsable(adapters: map<SourceId, Adapter>, p: Policy)
    requires adapters == map[1 := Adapter(1, 9), 2 := Adapter(2, 9)] && p == Policy(Allowed, {1, 2}, [1, 2], true, false)
    ensures Usable(adapters, p) == [Adapter(1, 9), Adapter(2, 9)]
  {
    assert [1, 2][..1] == [1] && [1][..0] == [];
    assert Select(adapters, p, [1]) == [Adapter(1, 9)];
  }

  // ---------------------------------------------------------------- answers

  /** The file under the body's digest holds something else. */
  predicate Damaged(s: Store, body: Body)
  {
    Sha(body) in s.files && s.files[Sha(body)] != body
  }

  /** What a missed execution needs: a source that answers, an undamaged file, attempts that can be
      stored, and for a fixed block a key that is not cached. */
  ghost predicate CanComplete(s: Store, r: RetryPolicy, adapters: map<SourceId, Adapter>, c: Call, w: World)
    requires r.maxAttempts >= 1
  {
    var x := Run(r, adapters, c.policy, w);
    && x.Succeeded? && !Damaged(s, x.response.body)
    && Save(s.ledger, s.runs, c.analysis, c.key.request, x.attempts).Some?
    && (c.key.request.tag.Fixed? ==> c.key !in s.cache)
  }

  /** Exactly when an execution answers. */
  lemma AnswersIff(s: Store, r: RetryPolicy, adapters: map<SourceId, Adapter>, c: Call, w: World)
    requires r.maxAttempts >= 1 && Inv(s) && Filed(adapters)
    ensures Answered(Fetch(s, r, adapters, c, w).1)
      <==> if CacheHit(s, c) then Intact(s, s.cache[c.key].artifact) else CanComplete(s, r, adapters, c, w)
  {
    if CacheHit(s, c) {
      HitsAskNobody(s, r, adapters, c, w, w);
    } else {
      if c.key in s.cache && c.key.request.tag.Fixed? {
        ExcludedSourceBlocks(s, r, adapters, c, w);
      }
      hide Save, Renumber, Run, GapFree;
    }
  }

  lemma FreshBody(files: map<Sha, Body>) returns (body: Body)
    ensures Sha(body) !in files
  {
    var bodies := set sha | sha in files :: sha.body;
    body := MaxOf(bodies) + 1;
    assert forall sha :: sha in files ==> sha.body in bodies;
  }

  /** The caller's side: some answer of the sources leads to a response. */
  ghost predicate CanBeAnswered(s: Store, adapters: map<SourceId, Adapter>, c: Call)
  {
    if CacheHit(s, c) then Intact(s, s.cache[c.key].artifact)
    else
      && (c.key.request.tag.Fixed? ==> c.key !in s.cache)
      && !Gated(c.policy) && Usable(adapters, c.policy) != [] && c.analysis in s.runs
  }

  lemma AnsweredMeansPossible(s: Store, r: RetryPolicy, adapters: map<SourceId, Adapter>, c: Call, w: World)
    requires ValidRetry(r) && Inv(s) && Filed(adapters) && Answered(Fetch(s, r, adapters, c, w).1)
    ensures CanBeAnswered(s, adapters, c)
  {
    AnswersIff(s, r, adapters, c, w);
    if !CacheHit(s, c) {
      var tried := Tried(r, adapters, c.policy, w);
      RunFollowsTrail(r, adapters, c.policy, w);
      SaveSucceedsIff(s.ledger, s.runs, c.analysis, c.key.request, r, tried, w);
      hide Save, Fetch, Inv;
    }
  }

  lemma PossibleIsAnswered(s: Store, r: RetryPolicy, adapters: map<SourceId, Adapter>, c: Call) returns (w: World)
    requires ValidRetry(r) && Inv(s) && Filed(adapters) && CanBeAnswered(s, adapters, c)
    ensures Answered(Fetch(s, r, adapters, c, w).1)
  {
    var body := FreshBody(s.files);
    w := AllAnswer(body);
    if !CacheHit(s, c) {
      FirstAnswers(r, adapters, c.policy, body);
      var first := Usable(adapters, c.policy)[0];
      SaveSucceedsIff(s.ledger, s.runs, c.analysis, c.key.request, r, [first], w);
    }
    hide Save, Run, Fetch, Usable;
    AnswersIff(s, r, adapters, c, w);
  }

  /** Whether any answer of the sources can lead to a response, from what a caller can check: an intact
      permitted entry; or no permitted entry, no entry at all if the block is fixed, a policy that
      lets sources be asked, a usable source, and a known analysis. */
  lemma SomeWorldAnswersIff(s: Store, r: RetryPolicy, adapters: map<SourceId, Adapter>, c: Call)
    requires ValidRetry(r) && Inv(s) && Filed(adapters)
    ensures (exists w: World :: Answered(Fetch(s, r, adapters, c, w).1)) <==> CanBeAnswered(s, adapters, c)
  {
    hide Fetch, CanBeAnswered, Inv;
    if w: World :| Answered(Fetch(s, r, adapters, c, w).1) {
      AnsweredMeansPossible(s, r, adapters, c, w);
    }
    if CanBeAnswered(s, adapters, c) {
      var w := PossibleIsAnswered(s, r, adapters, c);
    }
  }

  /** A block cached from source 1 is asked of source 2 under a policy that permits only source 2, and
      source 2 answers with the very same bytes: the execution raises a conflict. */
  lemma SecondSourceConflicts(r: RetryPolicy)
    requires ValidRetry(r)
    ensures var k := CacheKey(1, Request(0, Fixed(100)));
      var s := Store({1}, map[], map[k := Entry(1, 1, Sha(5), [])], {Sha(5)}, map[Sha(5) := 5]);
      var c := Call(1, k, Policy(Allowed, {2}, [2], false, false));
      && Inv(s) && Run(r, map[2 := Adapter(2, 2)], c.policy, AllAnswer(5)).Succeeded?
      && Fetch(s, r, map[2 := Adapter(2, 2)], c, AllAnswer(5)).1 == Raised(CacheConflict)
  {
    var k := CacheKey(1, Request(0, Fixed(100)));
    var s := Store({1}, map[], map[k := Entry(1, 1, Sha(5), [])], {Sha(5)}, map[Sha(5) := 5]);
    var p := Policy(Allowed, {2}, [2], false, false);
    var adapters := map[2 := Adapter(2, 2)];
    assert [2][..1] == [2] && [2][..0] == [];
    assert Usable(adapters, p) == [Adapter(2, 2)];
    assert EntryOk(s, k);
    FirstAnswers(r, adapters, p, 5);
    SaveSucceedsIff(s.ledger, s.runs, 1, k.request, r, [Adapter(2, 2)], AllAnswer(5));
    hide Save, Renumber, Run, Usable;
  }
}
