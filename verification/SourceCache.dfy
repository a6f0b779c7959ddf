/** Cache-first execution over the immutable cache, the content-addressed artifact store and the
    attempt ledger (src/scan_tool/application/storage_orchestration.py:24-164;
    src/scan_tool/adapters/sqlite_storage.py:222-228, 296-347, 462-655; src/scan_tool/adapters/artifacts.py:32-99). */
module SourceCache {
  import opened Basics
  import opened SourceAttempts
  import opened AttemptLedger

  /** A digest names one body: the hash is taken to be injective. */
  datatype Sha = Sha(body: Body)

  datatype CacheKey = CacheKey(chain: nat, request: Request)

  datatype Entry = Entry(source: SourceId, provider: ProviderId, artifact: Sha, fallbackFrom: seq<SourceId>)

  /** `files` is what the disk holds under each digest. */
  datatype Store = Store(
    runs: set<AnalysisId>, ledger: Ledger, cache: map<CacheKey, Entry>, artifacts: set<Sha>, files: map<Sha, Body>)

  datatype Problem = MissingArtifact | ArtifactIntegrity | AttemptsRejected | CacheConflict

  datatype Answer =
    | Hit(response: Response)
    | Miss(response: Response, attempts: seq<Attempt>)
    | NoAnswer(code: ErrorCode, attempts: seq<Attempt>)
    | Raised(problem: Problem)

  datatype Call = Call(analysis: AnalysisId, key: CacheKey, policy: Policy)

  // ---------------------------------------------------------------- one execution

  predicate CacheHit(s: Store, c: Call)
  {
    c.key in s.cache && s.cache[c.key].source in c.policy.allowed
  }

  function FromCache(s: Store, e: Entry): Answer
  {
    if e.artifact !in s.artifacts then Raised(MissingArtifact)
    else if e.artifact !in s.files || Sha(s.files[e.artifact]) != e.artifact then Raised(ArtifactIntegrity)
    else Hit(Response(e.source, e.provider, s.files[e.artifact], e.fallbackFrom))
  }

  function EntryOf(r: Response): Entry
  {
    Entry(r.source, r.provider, Sha(r.body), r.fallbackFrom)
  }

  predicate Conflicts(s: Store, k: CacheKey, e: Entry)
  {
    k in s.cache && (s.cache[k].source != e.source || s.cache[k].provider != e.provider || s.cache[k].artifact != e.artifact)
  }

  /** The first entry under a key stays. */
  function Cached(s: Store, k: CacheKey, e: Entry): Store
  {
    if k in s.cache then s else s.(cache := s.cache[k := e])
  }

  function Written(s: Store, body: Body): Store
  {
    s.(files := s.files[Sha(body) := body], artifacts := s.artifacts + {Sha(body)})
  }

  ghost function Persist(s: Store, c: Call, x: Execution): (Store, Answer)
    requires x.Succeeded?
  {
    var r := x.response;
    var sha := Sha(r.body);
    if sha in s.files && s.files[sha] != r.body then (s, Raised(ArtifactIntegrity))
    else
      var w := Written(s, r.body);
      var saved := Save(w.ledger, w.runs, c.analysis, c.key.request, x.attempts);
      if saved.None? then (w, Raised(AttemptsRejected))
      else
        var t := w.(ledger := saved.value);
        var rows := Renumber(s.ledger, c.analysis, c.key.request, x.attempts);
        if !c.key.request.tag.Fixed? then (t, Miss(r, rows))
        else if Conflicts(t, c.key, EntryOf(r)) then (t, Raised(CacheConflict))
        else (Cached(t, c.key, EntryOf(r)), Miss(r, rows))
  }

  /** The second half of an execution, after a lookup that missed: the sources are asked, and what
      they answered is stored in one go. */
  ghost function Complete(s: Store, retry: RetryPolicy, adapters: map<SourceId, Adapter>, c: Call, w: World): (Store, Answer)
    requires retry.maxAttempts >= 1
  {
    var x := SourceAttempts.Run(retry, adapters, c.policy, w);
    if x.Succeeded? then Persist(s, c, x)
    else
      var saved := Save(s.ledger, s.runs, c.analysis, c.key.request, x.attempts);
      if saved.None? then (s, Raised(AttemptsRejected))
      else (s.(ledger := saved.value), NoAnswer(x.code, Renumber(s.ledger, c.analysis, c.key.request, x.attempts)))
  }

  /** An execution that nothing else interrupts. */
  ghost function Fetch(s: Store, retry: RetryPolicy, adapters: map<SourceId, Adapter>, c: Call, w: World): (Store, Answer)
    requires retry.maxAttempts >= 1
  {
    if CacheHit(s, c) then (s, FromCache(s, s.cache[c.key]))
    else Complete(s, retry, adapters, c, w)
  }

  // ---------------------------------------------------------------- runs

  /** While one execution waits for its sources others may look up and store, so a lookup and the
      completion after a miss are steps of their own. Besides, analyses are opened, and files may be
      altered or lost behind the store's back. */
  datatype Op =
    | LookUp(call: Call)
    | AfterMiss(call: Call, world: World)
    | OpenAnalysis(analysis: AnalysisId)
    | AlterFile(sha: Sha, content: Option<Body>)

  ghost function Next(s: Store, retry: RetryPolicy, adapters: map<SourceId, Adapter>, op: Op): Store
    requires retry.maxAttempts >= 1
  {
    match op
    case LookUp(_) => s
    case AfterMiss(c, w) => Complete(s, retry, adapters, c, w).0
    case OpenAnalysis(a) => s.(runs := s.runs + {a})
    case AlterFile(sha, None) => s.(files := s.files - {sha})
    case AlterFile(sha, Some(body)) => s.(files := s.files[sha := body])
  }

  ghost function After(s: Store, retry: RetryPolicy, adapters: map<SourceId, Adapter>, ops: seq<Op>): Store
    requires retry.maxAttempts >= 1
  {
    if ops == [] then s else Next(After(s, retry, adapters, ops[..|ops| - 1]), retry, adapters, ops[|ops| - 1])
  }

  /** Entries are for fixed blocks and name stored artifacts; the ledger has no gap. */
  ghost predicate Inv(s: Store)
  {
    && (forall k :: k in s.cache ==> EntryOk(s, k))
    && GapFree(s.ledger)
  }

  predicate EntryOk(s: Store, k: CacheKey)
    requires k in s.cache
  {
    k.request.tag.Fixed? && s.cache[k].artifact in s.artifacts
  }

  /** No entry, artifact or attempt is lost or changed. */
  ghost predicate Keeps(s: Store, t: Store)
  {
    && (forall k :: k in s.cache ==> k in t.cache && t.cache[k] == s.cache[k])
    && s.artifacts <= t.artifacts
    && (forall slot :: slot in s.ledger ==> slot in t.ledger && t.ledger[slot] == s.ledger[slot])
  }

  lemma KeepsTransitive(a: Store, b: Store, c: Store)
    requires Keeps(a, b) && Keeps(b, c)
    ensures Keeps(a, c)
  {
  }

  lemma RunAttempts(retry: RetryPolicy, adapters: map<SourceId, Adapter>, p: Policy, w: World) returns (tried: seq<Adapter>)
    requires retry.maxAttempts >= 1
    ensures tried == Tried(retry, adapters, p, w)
    ensures SourceAttempts.Run(retry, adapters, p, w).attempts == Trail(retry, tried, w)
  {
    tried := Tried(retry, adapters, p, w);
    RunFollowsTrail(retry, adapters, p, w);
  }

  lemma SavedLedger(l: Ledger, runs: set<AnalysisId>, c: Call, retry: RetryPolicy, adapters: map<SourceId, Adapter>, w: World)
    requires ValidRetry(retry) && GapFree(l)
    ensures var saved := Save(l, runs, c.analysis, c.key.request, SourceAttempts.Run(retry, adapters, c.policy, w).attempts);
      saved.Some? ==> GapFree(saved.value) && forall slot :: slot in l ==> slot in saved.value && saved.value[slot] == l[slot]
  {
    hide Save, SourceAttempts.Run, Tried, GapFree;
    var tried := RunAttempts(retry, adapters, c.policy, w);
    var saved := Save(l, runs, c.analysis, c.key.request, Trail(retry, tried, w));
    if saved.Some? {
      SaveKeepsGapFree(l, runs, c.analysis, c.key.request, retry, tried, w);
      forall slot | slot in l ensures slot in saved.value && saved.value[slot] == l[slot] {
        SavedSlots(l, runs, c.analysis, c.key.request, retry, tried, w, slot);
      }
    }
  }

  lemma GrownKeeps(s: Store, t: Store)
    requires Inv(s) && s.cache == t.cache && s.artifacts <= t.artifacts && GapFree(t.ledger)
    requires forall slot :: slot in s.ledger ==> slot in t.ledger && t.ledger[slot] == s.ledger[slot]
    ensures Inv(t) && Keeps(s, t)
  {
    hide GapFree;
    forall k | k in t.cache ensures EntryOk(t, k) {
      assert EntryOk(s, k);
    }
  }

  lemma CachedKeeps(s: Store, k: CacheKey, e: Entry)
    requires Inv(s) && k.request.tag.Fixed? && e.artifact in s.artifacts
    ensures Inv(Cached(s, k, e)) && Keeps(s, Cached(s, k, e))
  {
    hide GapFree;
    var t := Cached(s, k, e);
    forall x | x in t.cache ensures EntryOk(t, x) {
      if x in s.cache { assert EntryOk(s, x); }
    }
  }

  lemma PersistKeeps(s: Store, c: Call, x: Execution)
    requires Inv(s) && x.Succeeded?
    requires var saved := Save(s.ledger, s.runs, c.analysis, c.key.request, x.attempts);
      saved.Some? ==> GapFree(saved.value) && forall slot :: slot in s.ledger ==> slot in saved.value && saved.value[slot] == s.ledger[slot]
    ensures Inv(Persist(s, c, x).0) && Keeps(s, Persist(s, c, x).0)
  {
    assert GapFree(s.ledger);
    hide Save, Renumber, GapFree, Inv, Keeps, Conflicts, Cached;
    var w := Written(s, x.response.body);
    GrownKeeps(s, s);
    GrownKeeps(s, w);
    var saved := Save(s.ledger, s.runs, c.analysis, c.key.request, x.attempts);
    if saved.Some? {
      var t := w.(ledger := saved.value);
      GrownKeeps(s, t);
      if c.key.request.tag.Fixed? {
        CachedKeeps(t, c.key, EntryOf(x.response));
        KeepsTransitive(s, t, Cached(t, c.key, EntryOf(x.response)));
      }
    }
  }

  lemma CompleteKeeps(s: Store, retry: RetryPolicy, adapters: map<SourceId, Adapter>, c: Call, w: World)
    requires ValidRetry(retry) && Inv(s)
    ensures Inv(Complete(s, retry, adapters, c, w).0) && Keeps(s, Complete(s, retry, adapters, c, w).0)
  {
    SavedLedger(s.ledger, s.runs, c, retry, adapters, w);
    assert GapFree(s.ledger);
    hide Save, Renumber, SourceAttempts.Run, GapFree, Inv, Keeps, Persist;
    GrownKeeps(s, s);
    var x := SourceAttempts.Run(retry, adapters, c.policy, w);
    if x.Succeeded? {
      PersistKeeps(s, c, x);
    } else {
      var saved := Save(s.ledger, s.runs, c.analysis, c.key.request, x.attempts);
      if saved.Some? {
        GrownKeeps(s, s.(ledger := saved.value));
      }
    }
  }

  lemma {:induction false} AfterKeeps(s: Store, retry: RetryPolicy, adapters: map<SourceId, Adapter>, ops: seq<Op>)
    requires ValidRetry(retry) && Inv(s)
    ensures Inv(After(s, retry, adapters, ops)) && Keeps(s, After(s, retry, adapters, ops))
  {
    if ops != [] {
      var n := |ops| - 1;
      AfterKeeps(s, retry, adapters, ops[..n]);
      var mid := After(s, retry, adapters, ops[..n]);
      NextKeeps(mid, retry, adapters, ops[n]);
      hide Inv, Next;
      KeepsTransitive(s, mid, Next(mid, retry, adapters, ops[n]));
    }
  }

  lemma NextKeeps(s: Store, retry: RetryPolicy, adapters: map<SourceId, Adapter>, op: Op)
    requires ValidRetry(retry) && Inv(s)
    ensures Inv(Next(s, retry, adapters, op)) && Keeps(s, Next(s, retry, adapters, op))
  {
    hide Complete;
    if op.AfterMiss? {
      CompleteKeeps(s, retry, adapters, op.call, op.world);
    } else {
      hide GapFree;
      forall k | k in Next(s, retry, adapters, op).cache ensures EntryOk(Next(s, retry, adapters, op), k) {
        assert EntryOk(s, k);
      }
    }
  }

  // ---------------------------------------------------------------- the cache agrees with the source

  predicate Answered(a: Answer)
  {
    a.Hit? || a.Miss?
  }

  /** The response is the one the cache holds. */
  predicate Provenance(s: Store, k: CacheKey, r: Response)
  {
    k in s.cache && s.cache[k].source == r.source && s.cache[k].provider == r.provider && s.cache[k].artifact == Sha(r.body)
  }

  lemma AnswerIsCached(s: Store, retry: RetryPolicy, adapters: map<SourceId, Adapter>, c: Call, w: World)
    requires retry.maxAttempts >= 1 && c.key.request.tag.Fixed?
    requires Answered(Complete(s, retry, adapters, c, w).1)
    ensures Provenance(Complete(s, retry, adapters, c, w).0, c.key, Complete(s, retry, adapters, c, w).1.response)
  {
    hide Save, Renumber, SourceAttempts.Run;
  }

  lemma {:induction false} AfterSplits(s: Store, retry: RetryPolicy, adapters: map<SourceId, Adapter>, ops: seq<Op>, i: nat)
    requires retry.maxAttempts >= 1 && i <= |ops|
    ensures After(s, retry, adapters, ops) == After(After(s, retry, adapters, ops[..i]), retry, adapters, ops[i..])
  {
    hide Next;
    if i == |ops| {
      assert ops[..i] == ops && ops[i..] == [];
    } else {
      var n := |ops| - 1;
      assert ops[..n][..i] == ops[..i] && ops[..n][i..] == ops[i..][..n - i] && ops[i..][n - i] == ops[n];
      AfterSplits(s, retry, adapters, ops[..n], i);
    }
  }

  /** What a step gives its caller: a lookup answers on a hit, a completion always. */
  ghost function StepAnswer(s: Store, retry: RetryPolicy, adapters: map<SourceId, Adapter>, op: Op): Option<Answer>
    requires retry.maxAttempts >= 1
  {
    match op
    case LookUp(c) => if CacheHit(s, c) then Some(FromCache(s, s.cache[c.key])) else None
    case AfterMiss(c, w) => Some(Complete(s, retry, adapters, c, w).1)
    case _ => None
  }

  lemma StepAnswerIsCached(s: Store, retry: RetryPolicy, adapters: map<SourceId, Adapter>, op: Op)
    requires retry.maxAttempts >= 1 && (op.LookUp? || op.AfterMiss?) && op.call.key.request.tag.Fixed?
    requires StepAnswer(s, retry, adapters, op).Some? && Answered(StepAnswer(s, retry, adapters, op).value)
    ensures Provenance(Next(s, retry, adapters, op), op.call.key, StepAnswer(s, retry, adapters, op).value.response)
  {
    hide Complete;
    if op.AfterMiss? {
      AnswerIsCached(s, retry, adapters, op.call, op.world);
    }
  }

  /** The i-th step of a run answers a caller who asked for this key. */
  ghost predicate AnswersAt(s: Store, retry: RetryPolicy, adapters: map<SourceId, Adapter>, ops: seq<Op>, i: nat, k: CacheKey, r: Response)
    requires retry.maxAttempts >= 1
  {
    && i < |ops| && (ops[i].LookUp? || ops[i].AfterMiss?) && ops[i].call.key == k
    && var a := StepAnswer(After(s, retry, adapters, ops[..i]), retry, adapters, ops[i]);
       a.Some? && Answered(a.value) && a.value.response == r
  }

  lemma AnswerStays(s: Store, retry: RetryPolicy, adapters: map<SourceId, Adapter>, ops: seq<Op>, i: nat, k: CacheKey, r: Response)
    requires ValidRetry(retry) && Inv(s) && k.request.tag.Fixed? && AnswersAt(s, retry, adapters, ops, i, k, r)
    ensures Provenance(After(s, retry, adapters, ops), k, r)
  {
    hide StepAnswer, Next, Inv;
    var before := After(s, retry, adapters, ops[..i]);
    AfterKeeps(s, retry, adapters, ops[..i]);
    StepAnswerIsCached(before, retry, adapters, ops[i]);
    assert ops[..i + 1][..i] == ops[..i];
    var after := After(s, retry, adapters, ops[..i + 1]);
    NextKeeps(before, retry, adapters, ops[i]);
    AfterSplits(s, retry, adapters, ops, i + 1);
    AfterKeeps(after, retry, adapters, ops[i + 1..]);
  }

  /** Over any interleaving of executions by any analyses under changing policies, with any answers
      from the sources and any damage to files: all responses for one chain and fixed-block request,
      hit or miss, carry the same source, provider and bytes. */
  lemma ResponsesAgree(s: Store, retry: RetryPolicy, adapters: map<SourceId, Adapter>, ops: seq<Op>, k: CacheKey,
                       i: nat, a: Response, j: nat, b: Response)
    requires ValidRetry(retry) && Inv(s) && k.request.tag.Fixed?
    requires AnswersAt(s, retry, adapters, ops, i, k, a) && AnswersAt(s, retry, adapters, ops, j, k, b)
    ensures a.source == b.source && a.provider == b.provider && a.body == b.body
  {
    hide AnswersAt, After, Inv;
    AnswerStays(s, retry, adapters, ops, i, k, a);
    AnswerStays(s, retry, adapters, ops, j, k, b);
  }

  /** A hit asks no source: whatever the sources would answer, the response is the same and nothing
      is stored; and it happens exactly when a permitted entry's file is intact. */
  lemma HitsAskNobody(s: Store, retry: RetryPolicy, adapters: map<SourceId, Adapter>, c: Call, w: World, other: World)
    requires retry.maxAttempts >= 1 && Inv(s)
    ensures Fetch(s, retry, adapters, c, w).1.Hit? <==> CacheHit(s, c) && Intact(s, s.cache[c.key].artifact)
    ensures CacheHit(s, c) ==> Fetch(s, retry, adapters, c, w) == Fetch(s, retry, adapters, c, other) && Fetch(s, retry, adapters, c, w).0 == s
    ensures Fetch(s, retry, adapters, c, w).1 != Raised(MissingArtifact)
  {
    hide Save, Renumber, SourceAttempts.Run;
    if c.key in s.cache {
      assert EntryOk(s, c.key);
    }
  }

  predicate Intact(s: Store, sha: Sha)
  {
    sha in s.files && s.files[sha] == sha.body
  }

  lemma {:induction false} SelectAllowed(adapters: map<SourceId, Adapter>, p: Policy, ids: seq<SourceId>)
    requires Filed(adapters)
    ensures forall a :: a in Select(adapters, p, ids) ==> a.source in p.allowed
  {
    if ids != [] {
      SelectAllowed(adapters, p, ids[..|ids| - 1]);
    }
  }

  lemma ResponderIsAllowed(retry: RetryPolicy, adapters: map<SourceId, Adapter>, p: Policy, w: World)
    requires retry.maxAttempts >= 1 && Filed(adapters) && SourceAttempts.Run(retry, adapters, p, w).Succeeded?
    ensures SourceAttempts.Run(retry, adapters, p, w).response.source in p.allowed
  {
    ResponseIsFirstAnswer(retry, adapters, p, w);
    SelectAllowed(adapters, p, if p.fallback || p.order == [] then p.order else p.order[..1]);
    var n := |SourceAttempts.Run(retry, adapters, p, w).response.fallbackFrom|;
    assert Usable(adapters, p)[n] in Usable(adapters, p);
  }

  /** Once a fixed-block response is cached from one source, a policy that excludes that source gets
      no answer from anyone: another source's answer conflicts with the entry. */
  lemma ExcludedSourceBlocks(s: Store, retry: RetryPolicy, adapters: map<SourceId, Adapter>, c: Call, w: World)
    requires retry.maxAttempts >= 1 && Filed(adapters)
    requires c.key in s.cache && c.key.request.tag.Fixed? && s.cache[c.key].source !in c.policy.allowed
    ensures !Answered(Fetch(s, retry, adapters, c, w).1)
  {
    if SourceAttempts.Run(retry, adapters, c.policy, w).Succeeded? {
      ResponderIsAllowed(retry, adapters, c.policy, w);
    }
    hide Save, Renumber, SourceAttempts.Run;
  }

  // ---------------------------------------------------------------- the executor

  class CachedExecutor {
    const orchestrator: Orchestrator
    var runs: set<AnalysisId>
    var ledger: Ledger
    var cache: map<CacheKey, Entry>
    var artifacts: set<Sha>
    var files: map<Sha, Body>

    constructor (orchestrator: Orchestrator)
      ensures View() == Store({}, map[], map[], {}, map[]) && Inv(View()) && this.orchestrator == orchestrator
    {
      this.orchestrator := orchestrator;
      runs, ledger, cache, artifacts, files := {}, map[], map[], {}, map[];
    }

    ghost function View(): Store
      reads this
    {
      Store(runs, ledger, cache, artifacts, files)
    }

    method MaxAttemptNumber(a: AnalysisId, q: Request, p: ProviderId) returns (m: nat)
      ensures m == Highest(ledger, a, q, p)
    {
      m := 0;
      var left := ledger.Keys;
      while left != {}
        invariant left <= ledger.Keys
        invariant forall slot :: slot in ledger && slot !in left && slot.analysis == a && slot.request == q && slot.provider == p ==> slot.number <= m
        invariant m == 0 || Slot(a, q, p, m) in ledger
        decreases left
      {
        var slot :| slot in left;
        left := left - {slot};
        if slot.analysis == a && slot.request == q && slot.provider == p && slot.number > m {
          m := slot.number;
        }
      }
      HighestStored(ledger, a, q, p);
      if m > 0 {
        HighestBounds(ledger, Slot(a, q, p, m));
      }
    }

    /** The ledger is read once per provider, before anything is inserted. */
    method NumberRows(a: AnalysisId, q: Request, attempts: seq<Attempt>) returns (rows: seq<Attempt>)
      ensures rows == Renumber(ledger, a, q, attempts)
    {
      rows := [];
      var offsets: map<ProviderId, nat> := map[];
      for i := 0 to |attempts|
        invariant forall p :: p in offsets ==> offsets[p] == Highest(ledger, a, q, p)
        invariant |rows| == i && rows == Renumber(ledger, a, q, attempts)[..i]
      {
        var p := attempts[i].provider;
        if p !in offsets {
          var m := MaxAttemptNumber(a, q, p);
          offsets := offsets[p := m];
        }
        rows := rows + [attempts[i].(number := offsets[p] + attempts[i].number)];
      }
    }

    /** The inserts are one transaction. */
    method SaveAttempts(a: AnalysisId, q: Request, attempts: seq<Attempt>) returns (saved: Option<seq<Attempt>>)
      modifies this`ledger
      ensures match Save(old(ledger), runs, a, q, attempts)
        case Some(l) => saved == Some(Renumber(old(ledger), a, q, attempts)) && ledger == l
        case None => saved == None && ledger == old(ledger)
    {
      var rows := NumberRows(a, q, attempts);
      var next := InsertRows(a, q, rows);
      SaveIs(ledger, runs, a, q, attempts, rows);
      hide Renumber, Save, Inserted, DistinctSlots, FreshSlots;
      if next.None? {
        return None;
      }
      ledger := next.value;
      return Some(rows);
    }

    /** The ledger with the rows inserted, or nothing when a row breaks a constraint. */
    method InsertRows(a: AnalysisId, q: Request, rows: seq<Attempt>) returns (next: Option<Ledger>)
      ensures next == if (rows == [] || a in runs) && DistinctSlots(rows) && FreshSlots(ledger, a, q, rows)
                      then Some(Inserted(ledger, a, q, rows)) else None
    {
      hide Inserted, DistinctSlots, FreshSlots;
      if rows != [] && a !in runs {
        return None;
      }
      var grown := ledger;
      NoRows(ledger, a, q, rows);
      for i := 0 to |rows|
        invariant grown == Inserted(ledger, a, q, rows[..i])
        invariant DistinctSlots(rows[..i]) && FreshSlots(ledger, a, q, rows[..i])
      {
        var slot := SlotOf(a, q, rows[i]);
        NextRow(ledger, a, q, rows, i);
        if rows[i].number < 1 || slot in grown {
          return None;
        }
        grown := grown[slot := rows[i]];
      }
      assert rows[..|rows|] == rows;
      return Some(grown);
    }

    /** Write once; an existing file is verified instead. */
    method WriteArtifact(body: Body) returns (ok: bool)
      modifies this`files
      ensures ok <==> !(Sha(body) in old(files) && old(files)[Sha(body)] != body)
      ensures files == if ok then old(files)[Sha(body) := body] else old(files)
    {
      var sha := Sha(body);
      if sha in files {
        return Sha(files[sha]) == sha;
      }
      files := files[sha := body];
      return true;
    }

    method PutCache(k: CacheKey, e: Entry) returns (ok: bool)
      modifies this`cache
      ensures ok <==> !Conflicts(old(View()), k, e)
      ensures View() == if ok then Cached(old(View()), k, e) else old(View())
    {
      if k !in cache {
        cache := cache[k := e];
      }
      var row := cache[k];
      return row.source == e.source && row.provider == e.provider && row.artifact == e.artifact;
    }

    method ReadCached(c: Call) returns (answer: Option<Answer>)
      ensures answer == if CacheHit(View(), c) then Some(FromCache(View(), cache[c.key])) else None
    {
      if c.key !in cache || cache[c.key].source !in c.policy.allowed {
        return None;
      }
      var e := cache[c.key];
      if e.artifact !in artifacts {
        return Some(Raised(MissingArtifact));
      }
      if e.artifact !in files || Sha(files[e.artifact]) != e.artifact {
        return Some(Raised(ArtifactIntegrity));
      }
      return Some(Hit(Response(e.source, e.provider, files[e.artifact], e.fallbackFrom)));
    }

    method Execute(c: Call, w: World) returns (answer: Answer)
      requires orchestrator.Valid()
      modifies this
      ensures (View(), answer) == Fetch(old(View()), orchestrator.retry, orchestrator.adapters, c, w)
    {
      hide Complete;
      var cached := ReadCached(c);
      if cached.Some? {
        return cached.value;
      }
      answer := CompleteMiss(c, w);
    }

    /** After a miss, whatever has been stored since the lookup. */
    method CompleteMiss(c: Call, w: World) returns (answer: Answer)
      requires orchestrator.Valid()
      modifies this
      ensures (View(), answer) == Complete(old(View()), orchestrator.retry, orchestrator.adapters, c, w)
    {
      hide Save, Renumber, SourceAttempts.Run;
      var x := orchestrator.Execute(c.policy, w);
      match x {
        case GaveUp(code, attempts) =>
          var saved := SaveAttempts(c.analysis, c.key.request, attempts);
          return if saved.Some? then NoAnswer(code, saved.value) else Raised(AttemptsRejected);
        case Succeeded(r, attempts) =>
          var written := WriteArtifact(r.body);
          if !written {
            return Raised(ArtifactIntegrity);
          }
          artifacts := artifacts + {Sha(r.body)};
          var saved := SaveAttempts(c.analysis, c.key.request, attempts);
          if saved.None? {
            return Raised(AttemptsRejected);
          }
          if c.key.request.tag.Fixed? {
            var put := PutCache(c.key, EntryOf(r));
            if !put {
              return Raised(CacheConflict);
            }
          }
          return Miss(r, saved.value);
      }
    }
  }

  lemma NoRows(l: Ledger, a: AnalysisId, q: Request, rows: seq<Attempt>)
    ensures Inserted(l, a, q, rows[..0]) == l && DistinctSlots(rows[..0]) && FreshSlots(l, a, q, rows[..0])
  {
  }

  lemma SaveIs(l: Ledger, runs: set<AnalysisId>, a: AnalysisId, q: Request, attempts: seq<Attempt>, rows: seq<Attempt>)
    requires rows == Renumber(l, a, q, attempts)
    ensures Save(l, runs, a, q, attempts)
      == if (rows == [] || a in runs) && DistinctSlots(rows) && FreshSlots(l, a, q, rows) then Some(Inserted(l, a, q, rows)) else None
  {
  }

  /** One more insert succeeds exactly when its slot is free. */
  lemma NextRow(l: Ledger, a: AnalysisId, q: Request, rows: seq<Attempt>, i: nat)
    requires i < |rows| && DistinctSlots(rows[..i]) && FreshSlots(l, a, q, rows[..i])
    ensures var slot := SlotOf(a, q, rows[i]);
      var free := rows[i].number >= 1 && slot !in Inserted(l, a, q, rows[..i]);
      && (free ==> DistinctSlots(rows[..i + 1]) && FreshSlots(l, a, q, rows[..i + 1])
                   && Inserted(l, a, q, rows[..i + 1]) == Inserted(l, a, q, rows[..i])[slot := rows[i]])
      && (!free ==> !(DistinctSlots(rows) && FreshSlots(l, a, q, rows)))
  {
    var slot := SlotOf(a, q, rows[i]);
    InsertedRows(l, a, q, rows[..i], slot);
    assert rows[..i + 1][..i] == rows[..i];
    if DistinctSlots(rows) && FreshSlots(l, a, q, rows) {
      forall j | 0 <= j < i ensures SlotOf(a, q, rows[..i][j]) != slot {
        assert !SameSlot(rows[j], rows[i]);
      }
    }
    if rows[i].number >= 1 && slot !in Inserted(l, a, q, rows[..i]) {
      forall j | 0 <= j < i ensures !SameSlot(rows[..i][j], rows[i]) {
        assert SlotOf(a, q, rows[..i][j]) != slot;
      }
      assert rows[..i + 1] == rows[..i] + [rows[i]];
    }
  }
}
