/** Building a candidate, replaying it independently, and the promotion gate
    (src/scan_tool/application/candidate_verifier.py:126-367, 453-506, 554-602, 657-750). */
module CandidateVerifier {
  import opened Basics
  import opened CandidateModel

  // ---------------------------------------------------------------- policy checks

  datatype Scope = Scope(manifest: Manifest, problem: Problem, plan: Plan, reporter: Job, runs: seq<EvidenceRun>)

  predicate CommonPolicy(s: Scope)
  {
    && s.manifest.active && s.problem.competition == s.manifest.id
    && (s.problem.status == Running || s.problem.status == Partial || s.problem.status == Verifying || s.problem.status == ProblemReview)
    && s.plan.approved && s.problem.plan == s.plan.id && s.plan.problem == s.problem.id
  }

  predicate RunPolicy(problem: Problem, r: EvidenceRun)
  {
    && r.job.problem == problem.id && r.job.role == EvidenceRole
    && (r.job.status == JobComplete || r.job.status == JobPartial)
    && r.job.analysis == Some(r.request) && r.result.analysis == r.request && r.result.status != AnalysisFailed
  }

  predicate RunsPolicy(problem: Problem, plan: Id, runs: seq<EvidenceRun>)
  {
    runs != [] && forall i :: 0 <= i < |runs| ==> RunPolicy(problem, runs[i]) && runs[i].job.plan == plan
  }

  function Results(runs: seq<EvidenceRun>): seq<Document>
  {
    seq(|runs|, i requires 0 <= i < |runs| => runs[i].result)
  }

  // ---------------------------------------------------------------- build

  datatype Build = Build(scope: Scope, id: Id, selected: seq<Id>, uncertainties: seq<nat>)

  predicate BuildPolicy(b: Build)
  {
    && CommonPolicy(b.scope) && b.scope.reporter.role == Reporter
    && (b.scope.reporter.status == JobRunning || b.scope.reporter.status == JobComplete)
    && b.selected != [] && RunsPolicy(b.scope.problem, b.scope.plan.id, b.scope.runs)
  }

  datatype Outcome<T> = Done(value: T) | PolicyRejected | ScopeRejected | Raised

  function BuildCandidate(b: Build): Outcome<Candidate>
  {
    if !BuildPolicy(b) then PolicyRejected
    else
      var maps := MapsOf(Results(b.scope.runs));
      if maps.None? || !NoRepeats(b.selected) || !AllIn(b.selected, maps.value.results) then ScopeRejected
      else
        var selected := Pick(maps.value.results, b.selected);
        var refs := Dedup(CitedEvidence(selected));
        if refs == [] || !AllIn(refs, maps.value.evidence) || !NoRepeats(b.uncertainties) then ScopeRejected
        else Done(Candidate(b.id, b.scope.problem.id, b.scope.problem.format, CanonicalAnswer(selected), Draft, b.selected, refs,
                            [], b.uncertainties, b.scope.reporter.id, false))
  }

  // ---------------------------------------------------------------- verify

  datatype Check =
    | AnswerFormat | AnswerValue | ChainId | ResultValues | EvidenceValues | AddressCheck | TransactionCheck | RawAmount | Decimals
    | IndependentReplay

  datatype CheckResult = CheckResult(check: Check, passed: bool, results: seq<Id>, evidence: seq<Id>)

  datatype VerificationStatus = Pass | Conflict | Incomplete

  datatype Verification = Verification(
    id: Id, problem: Id, candidate: Id, verifier: Id, status: VerificationStatus, required: seq<Check>, checks: seq<CheckResult>,
    independent: seq<Id>, conflicts: seq<Check>, missing: seq<Id>)

  datatype Verify = Verify(scope: Scope, candidate: Candidate, verifier: Job, id: Id)

  predicate VerifyPolicy(v: Verify)
  {
    && CommonPolicy(v.scope) && v.candidate.problem == v.scope.problem.id
    && (v.candidate.status == Draft || v.candidate.status == ReviewRequired)
    && v.candidate.creator == v.scope.reporter.id
    && v.scope.reporter.role == Reporter && v.scope.reporter.problem == v.scope.problem.id && v.scope.reporter.plan == v.scope.plan.id
    && v.verifier.id != v.scope.reporter.id && v.verifier.role == Verifier
    && v.verifier.problem == v.scope.problem.id && v.verifier.plan == v.scope.plan.id
    && (v.verifier.status == JobQueued || v.verifier.status == JobRunning)
    && RunsPolicy(v.scope.problem, v.scope.plan.id, v.scope.runs)
  }

  /** The candidate refers to results and evidence of these analyses, each result once. */
  predicate InScope(c: Candidate, runs: seq<EvidenceRun>)
  {
    var maps := MapsOf(Results(runs));
    maps.Some? && NoRepeats(c.results) && AllIn(c.results, maps.value.results) && AllIn(c.evidence, maps.value.evidence)
  }

  /** `valid` is the part of the pair contract beyond the identity of the analysis. */
  datatype Reply = AdapterFailed | Replayed(reused: bool, valid: bool, result: Document)

  datatype Replay = AllReplayed(docs: seq<Document>, calls: nat) | ReplayFailed(calls: nat) | ReplayInvalid(calls: nat)

  /** Replaying the runs in order; the first that fails stops it. */
  function ReplayRuns(runs: seq<EvidenceRun>, replies: nat -> Reply): Replay
  {
    if runs == [] then AllReplayed([], 0)
    else
      var n := |runs| - 1;
      var before := ReplayRuns(runs[..n], replies);
      if !before.AllReplayed? then before
      else if !runs[n].intact then ReplayFailed(before.calls)
      else
        match replies(n)
        case AdapterFailed => ReplayFailed(before.calls + 1)
        case Replayed(reused, valid, doc) =>
          if reused || !valid || doc.analysis != runs[n].request then ReplayInvalid(before.calls + 1)
          else AllReplayed(before.docs + [doc], before.calls + 1)
  }

  function RequiredChecks(selected: seq<ResultItem>, evidence: seq<Evidence>): seq<Check>
  {
    var values := Json.List(seq(|selected|, i requires 0 <= i < |selected| => selected[i].value));
    [AnswerFormat, AnswerValue, ChainId, ResultValues, EvidenceValues]
    + (if Named(values, Addresses) != [] then [AddressCheck] else [])
    + (if exists i :: 0 <= i < |evidence| && evidence[i].transaction.Some? then [TransactionCheck] else [])
    + (if Named(values, RawAmounts) != [] then [RawAmount] else [])
    + (if Named(values, DecimalCounts) != [] then [Decimals] else [])
  }

  predicate SameRecords<R(==)>(ids: seq<Id>, a: map<Id, R>, b: map<Id, R>)
  {
    forall id :: id in ids ==> id in a && id in b && a[id] == b[id]
  }

  /** Replayed documents by analysis; the last of a repeated identifier stays. */
  function ByAnalysis(docs: seq<Document>): map<Id, Document>
  {
    if docs == [] then map[] else ByAnalysis(docs[..|docs| - 1])[docs[|docs| - 1].analysis := docs[|docs| - 1]]
  }

  predicate ChainsAgree(runs: seq<EvidenceRun>, docs: seq<Document>)
  {
    forall i :: 0 <= i < |runs| ==> ChainAgrees(runs[i], ByAnalysis(docs))
  }

  predicate ChainAgrees(r: EvidenceRun, byId: map<Id, Document>)
  {
    r.result.analysis in byId && byId[r.result.analysis].chain == r.result.chain
  }

  predicate BasePass(v: Verify, original: Maps, replay: Maps, docs: seq<Document>, check: Check)
  {
    var c := v.candidate;
    match check
    case AnswerFormat => c.format == v.scope.problem.format
    case AnswerValue => AllIn(c.results, replay.results) && c.results != [] && c.answer == CanonicalAnswer(Pick(replay.results, c.results))
    case ChainId => ChainsAgree(v.scope.runs, docs)
    case EvidenceValues => SameRecords(c.evidence, original.evidence, replay.evidence)
    case TransactionCheck => SameRecords(c.evidence, original.evidence, replay.evidence)
    case IndependentReplay => false
    case _ => SameRecords(c.results, original.results, replay.results)
  }

  function MissingEvidence(ids: seq<Id>, replay: map<Id, Evidence>): seq<Id>
  {
    if ids == [] then []
    else MissingEvidence(ids[..|ids| - 1], replay) + if ids[|ids| - 1] in replay then [] else [ids[|ids| - 1]]
  }

  function Conflicts(v: Verify, original: Maps, replay: Maps, docs: seq<Document>, required: seq<Check>, missing: seq<Id>): seq<Check>
  {
    if required == [] then []
    else
      var check := required[|required| - 1];
      Conflicts(v, original, replay, docs, required[..|required| - 1], missing)
      + if !BasePass(v, original, replay, docs, check) && !(check == EvidenceValues && missing != []) then [check] else []
  }

  function JobIds(runs: seq<EvidenceRun>): seq<Id>
  {
    seq(|runs|, i requires 0 <= i < |runs| => runs[i].job.id)
  }

  function IndependentJobs(v: Verify): seq<Id>
  {
    Dedup([v.scope.reporter.id] + JobIds(v.scope.runs))
  }

  function RecordVerification(v: Verify, original: Maps, replay: Maps, docs: seq<Document>): Verification
    requires AllIn(v.candidate.results, original.results) && AllIn(v.candidate.evidence, original.evidence)
  {
    var c := v.candidate;
    var required := RequiredChecks(Pick(original.results, c.results), Pick(original.evidence, c.evidence));
    var missing := MissingEvidence(c.evidence, replay.evidence);
    var conflicts := Conflicts(v, original, replay, docs, required, missing);
    var checks := seq(|required|, i requires 0 <= i < |required| =>
      CheckResult(required[i], BasePass(v, original, replay, docs, required[i]), c.results, c.evidence));
    var status :=
      if missing != [] then Incomplete
      else if conflicts != [] || exists i :: 0 <= i < |required| && !BasePass(v, original, replay, docs, required[i]) then Conflict
      else Pass;
    Verification(v.id, v.scope.problem.id, c.id, v.verifier.id, status, required, checks, IndependentJobs(v), conflicts, missing)
  }

  /** The record left when a replay fails: incomplete, every cited evidence missing, no check made. */
  function IncompleteVerification(v: Verify): Verification
  {
    Verification(v.id, v.scope.problem.id, v.candidate.id, v.verifier.id, Incomplete, [IndependentReplay], [], IndependentJobs(v), [], v.candidate.evidence)
  }

  /** No record can be made for a candidate that repeats its evidence. */
  function VerifyCandidate(v: Verify, replies: nat -> Reply): Outcome<Verification>
  {
    if !VerifyPolicy(v) then PolicyRejected
    else if !InScope(v.candidate, v.scope.runs) then ScopeRejected
    else
      var replay := ReplayRuns(v.scope.runs, replies);
      if !NoRepeats(v.candidate.evidence) then Raised
      else if !replay.AllReplayed? then Done(IncompleteVerification(v))
      else
        var maps := MapsOf(replay.docs);
        if maps.None? then Raised
        else Done(RecordVerification(v, MapsOf(Results(v.scope.runs)).value, maps.value, replay.docs))
  }

  /** Policy and scope first, then the replays, then the comparison. */
  method RunVerifier(v: Verify, replies: nat -> Reply) returns (x: Outcome<Verification>, calls: nat)
    ensures x == VerifyCandidate(v, replies)
    ensures calls == if x.PolicyRejected? || x.ScopeRejected? then 0 else ReplayRuns(v.scope.runs, replies).calls
  {
    calls := 0;
    if !VerifyPolicy(v) {
      return PolicyRejected, 0;
    }
    var original := AnalysisMaps(Results(v.scope.runs));
    if original.None? || !NoRepeats(v.candidate.results) || !AllIn(v.candidate.results, original.value.results)
       || !AllIn(v.candidate.evidence, original.value.evidence) {
      return ScopeRejected, 0;
    }
    hide RecordVerification, VerifyPolicy, ReplayRuns, MapsOf;
    var replay := ReplayAll(v.scope.runs, replies);
    calls := replay.calls;
    if !NoRepeats(v.candidate.evidence) {
      return Raised, calls;
    }
    if !replay.AllReplayed? {
      return Done(IncompleteVerification(v)), calls;
    }
    var replayed := AnalysisMaps(replay.docs);
    if replayed.None? {
      return Raised, calls;
    }
    return Done(RecordVerification(v, original.value, replayed.value, replay.docs)), calls;
  }

  /** Replays are made one by one and the first failure ends them. */
  method ReplayAll(runs: seq<EvidenceRun>, replies: nat -> Reply) returns (replay: Replay)
    ensures replay == ReplayRuns(runs, replies)
  {
    var docs: seq<Document>, calls := [], 0;
    for i := 0 to |runs|
      invariant ReplayRuns(runs[..i], replies) == AllReplayed(docs, calls)
    {
      assert runs[..i + 1][..i] == runs[..i];
      if !runs[i].intact {
        ReplayStops(runs, i + 1, replies);
        return ReplayFailed(calls);
      }
      calls := calls + 1;
      var reply := replies(i);
      if reply.AdapterFailed? {
        ReplayStops(runs, i + 1, replies);
        return ReplayFailed(calls);
      }
      if reply.reused || !reply.valid || reply.result.analysis != runs[i].request {
        ReplayStops(runs, i + 1, replies);
        return ReplayInvalid(calls);
      }
      docs := docs + [reply.result];
    }
    assert runs[..|runs|] == runs;
    return AllReplayed(docs, calls);
  }

  lemma {:induction false} ReplayStops(runs: seq<EvidenceRun>, n: nat, replies: nat -> Reply)
    requires n <= |runs| && !ReplayRuns(runs[..n], replies).AllReplayed?
    ensures ReplayRuns(runs, replies) == ReplayRuns(runs[..n], replies)
  {
    if n == |runs| {
      assert runs[..n] == runs;
    } else {
      var m := |runs| - 1;
      assert runs[..m][..n] == runs[..n];
      ReplayStops(runs[..m], n, replies);
    }
  }

  // ---------------------------------------------------------------- what a pass means

  /** The replay reproduced what the candidate rests on. */
  predicate Reproduced(v: Verify, original: Maps, replay: Maps, docs: seq<Document>)
    requires AllIn(v.candidate.results, original.results)
  {
    && v.candidate.format == v.scope.problem.format && v.candidate.results != []
    && SameRecords(v.candidate.results, original.results, replay.results)
    && SameRecords(v.candidate.evidence, original.evidence, replay.evidence)
    && ChainsAgree(v.scope.runs, docs)
    && v.candidate.answer == CanonicalAnswer(Pick(original.results, v.candidate.results))
  }

  lemma {:induction false} MissingIff(ids: seq<Id>, replay: map<Id, Evidence>)
    ensures MissingEvidence(ids, replay) == [] <==> AllIn(ids, replay)
  {
    if ids != [] {
      MissingIff(ids[..|ids| - 1], replay);
      assert ids == ids[..|ids| - 1] + [ids[|ids| - 1]];
    }
  }

  lemma {:induction false} ConflictsIff(v: Verify, original: Maps, replay: Maps, docs: seq<Document>, required: seq<Check>)
    ensures Conflicts(v, original, replay, docs, required, []) == [] <==> forall check :: check in required ==> BasePass(v, original, replay, docs, check)
  {
    hide BasePass;
    if required != [] {
      var n := |required| - 1;
      ConflictsIff(v, original, replay, docs, required[..n]);
      assert required == required[..n] + [required[n]];
    }
  }

  lemma AlwaysRequired(selected: seq<ResultItem>, evidence: seq<Evidence>)
    ensures forall check :: check in [AnswerFormat, AnswerValue, ChainId, ResultValues, EvidenceValues] ==> check in RequiredChecks(selected, evidence)
    ensures IndependentReplay !in RequiredChecks(selected, evidence)
  {
    var five := [AnswerFormat, AnswerValue, ChainId, ResultValues, EvidenceValues];
    assert five <= RequiredChecks(selected, evidence);
    forall check | check in five ensures check in RequiredChecks(selected, evidence) {
      var i :| 0 <= i < |five| && five[i] == check;
      assert RequiredChecks(selected, evidence)[i] == check;
    }
  }

  lemma SamePick<R>(ids: seq<Id>, a: map<Id, R>, b: map<Id, R>)
    requires AllIn(ids, a) && AllIn(ids, b) && forall id :: id in ids ==> a[id] == b[id]
    ensures Pick(a, ids) == Pick(b, ids)
  {
  }

  lemma ReproducedPasses(v: Verify, original: Maps, replay: Maps, docs: seq<Document>)
    requires AllIn(v.candidate.results, original.results) && AllIn(v.candidate.evidence, original.evidence)
    ensures Reproduced(v, original, replay, docs)
      <==> forall check :: check in [AnswerFormat, AnswerValue, ChainId, ResultValues, EvidenceValues] ==> BasePass(v, original, replay, docs, check)
    ensures Reproduced(v, original, replay, docs) ==> forall check: Check :: check != IndependentReplay ==> BasePass(v, original, replay, docs, check)
  {
    if SameRecords(v.candidate.results, original.results, replay.results) {
      SamePick(v.candidate.results, original.results, replay.results);
    }
    var five := [AnswerFormat, AnswerValue, ChainId, ResultValues, EvidenceValues];
    assert five[0] in five && five[1] in five && five[2] in five && five[3] in five && five[4] in five;
  }

  ghost predicate AllPass(v: Verify, original: Maps, replay: Maps, docs: seq<Document>, required: seq<Check>)
  {
    forall check :: check in required ==> BasePass(v, original, replay, docs, check)
  }

  lemma AllPassIff(v: Verify, original: Maps, replay: Maps, docs: seq<Document>, required: seq<Check>)
    ensures AllPass(v, original, replay, docs, required)
      <==> forall i :: 0 <= i < |required| ==> BasePass(v, original, replay, docs, required[i])
  {
  }

  /** The status against the checks. */
  lemma PassIffChecks(v: Verify, original: Maps, replay: Maps, docs: seq<Document>)
    requires AllIn(v.candidate.results, original.results) && AllIn(v.candidate.evidence, original.evidence)
    ensures var x := RecordVerification(v, original, replay, docs);
      && (x.status == Pass <==> x.missing == [] && AllPass(v, original, replay, docs, x.required))
      && (AllPass(v, original, replay, docs, x.required) <==> forall i :: 0 <= i < |x.checks| ==> x.checks[i].passed)
      && (x.status == Incomplete <==> x.missing != [])
  {
    hide BasePass, RequiredChecks, Conflicts, MissingEvidence, IndependentJobs, Pick, AllPass, RecordVerification;
    var x := RecordVerification(v, original, replay, docs);
    StatusSays(v, original, replay, docs);
    ConflictsIff(v, original, replay, docs, x.required);
    AllPassIff(v, original, replay, docs, x.required);
    AllPassMeans(v, original, replay, docs, x.required);
  }

  lemma AllPassMeans(v: Verify, original: Maps, replay: Maps, docs: seq<Document>, required: seq<Check>)
    ensures AllPass(v, original, replay, docs, required)
      <==> forall check :: check in required ==> BasePass(v, original, replay, docs, check)
  {
    hide BasePass;
  }

  lemma StatusSays(v: Verify, original: Maps, replay: Maps, docs: seq<Document>)
    requires AllIn(v.candidate.results, original.results) && AllIn(v.candidate.evidence, original.evidence)
    ensures var x := RecordVerification(v, original, replay, docs);
      && x.conflicts == Conflicts(v, original, replay, docs, x.required, x.missing) && |x.checks| == |x.required|
      && (forall i :: 0 <= i < |x.required| ==> x.checks[i].passed == BasePass(v, original, replay, docs, x.required[i]))
      && (x.status == Pass <==> x.missing == [] && x.conflicts == [] && forall i :: 0 <= i < |x.required| ==> x.checks[i].passed)
      && (x.status == Incomplete <==> x.missing != [])
  {
    hide BasePass, RequiredChecks, Conflicts, MissingEvidence, IndependentJobs, Pick;
  }

  lemma AllPassIffReproduced(v: Verify, original: Maps, replay: Maps, docs: seq<Document>)
    requires AllIn(v.candidate.results, original.results) && AllIn(v.candidate.evidence, original.evidence)
    ensures AllPass(v, original, replay, docs, RecordVerification(v, original, replay, docs).required)
      <==> Reproduced(v, original, replay, docs)
  {
    AlwaysRequired(Pick(original.results, v.candidate.results), Pick(original.evidence, v.candidate.evidence));
    ReproducedPasses(v, original, replay, docs);
    hide BasePass, RequiredChecks, Conflicts, MissingEvidence, IndependentJobs, Pick, Reproduced;
  }

  /** A verification passes exactly when no cited evidence is missing and every check made holds, and
      that is exactly when the replay reproduced every selected result, every cited evidence, the
      chains, and the answer. */
  lemma PassIffReproduced(v: Verify, original: Maps, replay: Maps, docs: seq<Document>)
    requires AllIn(v.candidate.results, original.results) && AllIn(v.candidate.evidence, original.evidence)
    ensures var x := RecordVerification(v, original, replay, docs);
      && (x.status == Pass <==> x.missing == [] && forall i :: 0 <= i < |x.checks| ==> x.checks[i].passed)
      && (x.status == Pass <==> Reproduced(v, original, replay, docs))
      && (x.status == Incomplete <==> !AllIn(v.candidate.evidence, replay.evidence))
  {
    MissingIff(v.candidate.evidence, replay.evidence);
    PassIffChecks(v, original, replay, docs);
    AllPassIffReproduced(v, original, replay, docs);
    ReproducedHasEvidence(v, original, replay, docs);
    MissingField(v, original, replay, docs);
    hide RecordVerification, Reproduced, MissingEvidence, AllPass;
  }

  lemma MissingField(v: Verify, original: Maps, replay: Maps, docs: seq<Document>)
    requires AllIn(v.candidate.results, original.results) && AllIn(v.candidate.evidence, original.evidence)
    ensures RecordVerification(v, original, replay, docs).missing == MissingEvidence(v.candidate.evidence, replay.evidence)
  {
  }

  lemma ReproducedHasEvidence(v: Verify, original: Maps, replay: Maps, docs: seq<Document>)
    requires AllIn(v.candidate.results, original.results)
    ensures Reproduced(v, original, replay, docs) ==> AllIn(v.candidate.evidence, replay.evidence)
  {
  }
}
