/** The promotion gate and what building, verifying and promoting achieve together
    (src/scan_tool/application/candidate_verifier.py:370-427, 509-551, 604-654). */
module CandidatePromotion {
  import opened Basics
  import opened CandidateModel
  import opened CandidateVerifier

  datatype Promotion = Promotion(
    manifest: Manifest, problem: Problem, candidate: Candidate, verification: Verification, reporter: Job, verifier: Job,
    runs: seq<EvidenceRun>)

  predicate PromotionPolicy(p: Promotion)
  {
    && p.manifest.active && p.problem.competition == p.manifest.id
    && p.candidate.problem == p.problem.id && p.verification.problem == p.problem.id && p.verification.candidate == p.candidate.id
    && p.reporter.id == p.candidate.creator && p.verifier.id == p.verification.verifier && p.verifier.id != p.reporter.id
    && (p.candidate.status == Draft || p.candidate.status == ReviewRequired)
    && p.reporter.role == Reporter && p.reporter.problem == p.problem.id && p.reporter.plan == p.verifier.plan
    && p.verifier.role == Verifier && p.verifier.problem == p.problem.id && p.reporter.id in p.verification.independent
    && RunsPolicy(p.problem, p.reporter.plan, p.runs)
  }

  // ---------------------------------------------------------------- the gate

  predicate CompleteRun(r: EvidenceRun)
  {
    r.job.status == JobComplete && r.result.status == AnalysisComplete
  }

  predicate ResultCovered(v: Verification, id: Id)
  {
    exists i :: 0 <= i < |v.checks| && v.checks[i].passed && id in v.checks[i].results
  }

  predicate EvidenceCovered(v: Verification, id: Id)
  {
    exists i :: 0 <= i < |v.checks| && v.checks[i].passed && id in v.checks[i].evidence
  }

  predicate CheckPassed(v: Verification, check: Check)
  {
    exists i :: 0 <= i < |v.checks| && v.checks[i].passed && v.checks[i].check == check
  }

  predicate Covers(v: Verification, c: Candidate)
  {
    && (forall id :: id in c.results ==> ResultCovered(v, id))
    && (forall id :: id in c.evidence ==> EvidenceCovered(v, id))
  }

  predicate Confirmed(m: map<Id, ResultItem>, ids: seq<Id>)
    requires AllIn(ids, m)
  {
    forall id :: id in ids ==> m[id].classification == ConfirmedFact
  }

  predicate Independent(v: Verification, reporter: Job, runs: seq<EvidenceRun>)
  {
    reporter.id in v.independent && forall i :: 0 <= i < |runs| ==> runs[i].job.id in v.independent
  }

  predicate RequiredPassed(v: Verification, required: seq<Check>)
  {
    forall i :: 0 <= i < |required| ==> CheckPassed(v, required[i])
  }

  predicate Ready(p: Promotion)
    requires InScope(p.candidate, p.runs)
  {
    var maps := MapsOf(Results(p.runs)).value;
    var selected := Pick(maps.results, p.candidate.results);
    && p.verification.status == Pass
    && (forall i :: 0 <= i < |p.runs| ==> CompleteRun(p.runs[i]))
    && p.candidate.uncertainties == []
    && Independent(p.verification, p.reporter, p.runs)
    && Covers(p.verification, p.candidate)
    && RequiredPassed(p.verification, RequiredChecks(selected, Pick(maps.evidence, p.candidate.evidence)))
    && p.candidate.answer == CanonicalAnswer(selected)
    && Confirmed(maps.results, p.candidate.results)
  }

  /** The record is refused when it repeats evidence or uncertainties, or would be ready without
      results or evidence. */
  function Promote(p: Promotion): Outcome<Candidate>
  {
    if !PromotionPolicy(p) then PolicyRejected
    else if !InScope(p.candidate, p.runs) then ScopeRejected
    else
      var ready := Ready(p);
      if !NoRepeats(p.candidate.evidence) || !NoRepeats(p.candidate.uncertainties) then Raised
      else if ready && (p.candidate.results == [] || p.candidate.evidence == []) then Raised
      else Done(p.candidate.(status := if ready then SubmissionReady else ReviewRequired,
                             verifications := Dedup(p.candidate.verifications + [p.verification.id]),
                             submit := ready))
  }

  predicate Promoted(p: Promotion)
  {
    Promote(p).Done? && Promote(p).value.status == SubmissionReady
  }

  lemma PromotedIsReady(p: Promotion)
    requires Promoted(p)
    ensures PromotionPolicy(p) && InScope(p.candidate, p.runs) && Ready(p)
  {
    hide Ready;
  }

  // ---------------------------------------------------------------- the chain

  /** Every run was replayed and the replay agrees on the selected results, the cited evidence and
      the chains. */
  predicate Agreed(v: Verify, replies: nat -> Reply)
    requires InScope(v.candidate, v.scope.runs)
  {
    var original, replay := MapsOf(Results(v.scope.runs)).value, ReplayRuns(v.scope.runs, replies);
    && replay.AllReplayed? && MapsOf(replay.docs).Some?
    && SameRecords(v.candidate.results, original.results, MapsOf(replay.docs).value.results)
    && SameRecords(v.candidate.evidence, original.evidence, MapsOf(replay.docs).value.evidence)
    && ChainsAgree(v.scope.runs, replay.docs)
  }

  lemma BuiltFacts(b: Build)
    requires BuildCandidate(b).Done?
    ensures var c := BuildCandidate(b).value;
      && InScope(c, b.scope.runs) && c.results != [] && c.evidence != [] && c.format == b.scope.problem.format
      && c.answer == CanonicalAnswer(Pick(MapsOf(Results(b.scope.runs)).value.results, c.results))
      && c.uncertainties == b.uncertainties && c.results == b.selected
      && NoRepeats(c.evidence) && NoRepeats(c.uncertainties)
  {
  }

  /** The evidence a built candidate cites is exactly the evidence of its results. */
  lemma BuiltEvidence(b: Build, id: Id)
    requires BuildCandidate(b).Done?
    ensures InScope(BuildCandidate(b).value, b.scope.runs)
    ensures var c := BuildCandidate(b).value;
      id in c.evidence <==> exists r :: r in Pick(MapsOf(Results(b.scope.runs)).value.results, c.results) && id in r.evidence
  {
    BuiltFacts(b);
    CitedBySome(Pick(MapsOf(Results(b.scope.runs)).value.results, b.selected), id);
  }

  /** The promotion made of a verification's own parts. */
  function PromotionOf(v: Verify, x: Verification): Promotion
  {
    Promotion(v.scope.manifest, v.scope.problem, v.candidate, x, v.scope.reporter, v.verifier, v.scope.runs)
  }

  lemma FollowsPolicy(v: Verify, replies: nat -> Reply)
    requires VerifyCandidate(v, replies).Done?
    ensures PromotionPolicy(PromotionOf(v, VerifyCandidate(v, replies).value))
    ensures Independent(VerifyCandidate(v, replies).value, v.scope.reporter, v.scope.runs)
  {
    assert IndependentJobs(v) == VerifyCandidate(v, replies).value.independent;
    hide VerifyCandidate, RunsPolicy;
    var ids := [v.scope.reporter.id] + JobIds(v.scope.runs);
    assert ids[0] in ids;
    forall i | 0 <= i < |v.scope.runs| ensures v.scope.runs[i].job.id in ids {
      assert ids[i + 1] == v.scope.runs[i].job.id;
    }
    RecordedFor(v, replies);
  }

  lemma RecordedFor(v: Verify, replies: nat -> Reply)
    requires VerifyCandidate(v, replies).Done?
    ensures var x := VerifyCandidate(v, replies).value;
      VerifyPolicy(v) && x.problem == v.scope.problem.id && x.candidate == v.candidate.id && x.verifier == v.verifier.id
  {
  }

  /** A passing record's checks all passed and each lists all of the candidate's results and evidence. */
  lemma PassCovers(v: Verify, original: Maps, replay: Maps, docs: seq<Document>)
    requires AllIn(v.candidate.results, original.results) && AllIn(v.candidate.evidence, original.evidence)
    requires RecordVerification(v, original, replay, docs).status == Pass
    ensures var x := RecordVerification(v, original, replay, docs);
      Covers(x, v.candidate) && RequiredPassed(x, RequiredChecks(Pick(original.results, v.candidate.results), Pick(original.evidence, v.candidate.evidence)))
  {
    var x := RecordVerification(v, original, replay, docs);
    PassIffReproduced(v, original, replay, docs);
    var required := RequiredChecks(Pick(original.results, v.candidate.results), Pick(original.evidence, v.candidate.evidence));
    ChecksListed(v, original, replay, docs);
    hide RecordVerification, Reproduced, RequiredChecks;
    assert x.checks[0].passed;
    forall id | id in v.candidate.results ensures ResultCovered(x, id) {
      assert id in x.checks[0].results;
    }
    forall id | id in v.candidate.evidence ensures EvidenceCovered(x, id) {
      assert id in x.checks[0].evidence;
    }
    forall i | 0 <= i < |required| ensures CheckPassed(x, required[i]) {
      assert x.checks[i].passed && x.checks[i].check == required[i];
    }
  }

  lemma ChecksListed(v: Verify, original: Maps, replay: Maps, docs: seq<Document>)
    requires AllIn(v.candidate.results, original.results) && AllIn(v.candidate.evidence, original.evidence)
    ensures var x := RecordVerification(v, original, replay, docs);
      var required := RequiredChecks(Pick(original.results, v.candidate.results), Pick(original.evidence, v.candidate.evidence));
      && |x.checks| == |required| && |required| > 0
      && (forall i :: 0 <= i < |required| ==> x.checks[i].check == required[i])
      && (forall i :: 0 <= i < |required| ==> x.checks[i].results == v.candidate.results && x.checks[i].evidence == v.candidate.evidence)
  {
    hide BasePass, Conflicts, MissingEvidence;
  }

  /** A built candidate's verification passes exactly when the replay agrees. */
  lemma BuiltPassesIffAgreed(b: Build, v: Verify, replies: nat -> Reply)
    requires BuildCandidate(b).Done? && v.scope == b.scope && v.candidate == BuildCandidate(b).value
    requires VerifyCandidate(v, replies).Done?
    ensures InScope(v.candidate, v.scope.runs)
    ensures VerifyCandidate(v, replies).value.status == Pass <==> Agreed(v, replies)
  {
    BuiltFacts(b);
    hide BuildCandidate, VerifyPolicy, RecordVerification;
    var replay := ReplayRuns(v.scope.runs, replies);
    if replay.AllReplayed? {
      PassIffReproduced(v, MapsOf(Results(v.scope.runs)).value, MapsOf(replay.docs).value, replay.docs);
    }
  }

  /** Build, verify and promote: a built candidate whose verification was recorded reaches the
      submission-ready state exactly when the replay agreed, every run is complete, nothing is
      uncertain, and every selected result is a confirmed fact; otherwise it goes to review. */
  lemma ChainIsReadyIff(b: Build, v: Verify, replies: nat -> Reply)
    requires BuildCandidate(b).Done? && v.scope == b.scope && v.candidate == BuildCandidate(b).value
    requires VerifyCandidate(v, replies).Done?
    ensures var p := PromotionOf(v, VerifyCandidate(v, replies).value);
      && Promote(p).Done? && InScope(p.candidate, p.runs)
      && (Promoted(p) <==>
          && Agreed(v, replies) && b.uncertainties == []
          && (forall i :: 0 <= i < |p.runs| ==> p.runs[i].job.status == JobComplete && p.runs[i].result.status == AnalysisComplete)
          && Confirmed(MapsOf(Results(p.runs)).value.results, p.candidate.results))
  {
    var x := VerifyCandidate(v, replies).value;
    FollowsPolicy(v, replies);
    BuiltFacts(b);
    BuiltPassesIffAgreed(b, v, replies);
    if x.status == Pass {
      PassRecorded(v, replies);
      var original, replay := MapsOf(Results(v.scope.runs)).value, ReplayRuns(v.scope.runs, replies);
      PassCovers(v, original, MapsOf(replay.docs).value, replay.docs);
    }
    hide BuildCandidate, VerifyCandidate, RecordVerification, Agreed, PromotionPolicy, Independent, Covers, RequiredPassed, RequiredChecks;
  }

  lemma PassRecorded(v: Verify, replies: nat -> Reply)
    requires VerifyCandidate(v, replies).Done? && VerifyCandidate(v, replies).value.status == Pass
    ensures InScope(v.candidate, v.scope.runs) && ReplayRuns(v.scope.runs, replies).AllReplayed?
    ensures var docs := ReplayRuns(v.scope.runs, replies).docs;
      MapsOf(docs).Some? && VerifyCandidate(v, replies).value == RecordVerification(v, MapsOf(Results(v.scope.runs)).value, MapsOf(docs).value, docs)
  {
    hide RecordVerification, VerifyPolicy;
  }

  // ---------------------------------------------------------------- what cannot be altered

  lemma ResultsKeyed(runs: seq<EvidenceRun>, id: Id)
    requires MapsOf(Results(runs)).Some? && id in MapsOf(Results(runs)).value.results
    ensures MapsOf(Results(runs)).value.results[id].id == id
  {
    IndexMeaning(AllResults(Results(runs)), ResultId);
  }

  /** The canonical answer determines the selection and the selected values. */
  lemma AnswerDetermines(m: map<Id, ResultItem>, a: seq<Id>, n: map<Id, ResultItem>, c: seq<Id>)
    requires AllIn(a, m) && AllIn(c, n) && CanonicalAnswer(Pick(m, a)) == CanonicalAnswer(Pick(n, c))
    requires (forall id :: id in a ==> m[id].id == id) && (forall id :: id in c ==> n[id].id == id)
    ensures a == c && forall id :: id in a ==> m[id].kind == n[id].kind && m[id].value == n[id].value
  {
    var x, y := CanonicalAnswer(Pick(m, a)).items, CanonicalAnswer(Pick(n, c)).items;
    assert |x| == |a| && |y| == |c|;
    forall i | 0 <= i < |a| ensures a[i] == c[i] && m[a[i]].kind == n[a[i]].kind && m[a[i]].value == n[a[i]].value {
      assert x[i] == AnswerItem(m[a[i]].id, m[a[i]].kind, m[a[i]].value);
      assert y[i] == AnswerItem(n[c[i]].id, n[c[i]].kind, n[c[i]].value);
      assert a[i] in a && c[i] in c;
    }
  }

  /** Whatever is promoted, with whatever verification, analyses and jobs: a candidate that still has
      the built answer selects the built results, in the built order and with the built values; and a
      candidate that still selects the built results of unchanged analyses has the built answer. */
  lemma AnswerAndResultsAgree(b: Build, p: Promotion)
    requires BuildCandidate(b).Done? && Promoted(p)
    ensures InScope(p.candidate, p.runs) && InScope(BuildCandidate(b).value, b.scope.runs)
    ensures var c := BuildCandidate(b).value;
      var built, now := MapsOf(Results(b.scope.runs)).value.results, MapsOf(Results(p.runs)).value.results;
      && (p.candidate.answer == c.answer ==> p.candidate.results == c.results && SameAnswers(c.results, built, now))
      && (p.candidate.results == c.results && SameAnswers(c.results, built, now) ==> p.candidate.answer == c.answer)
  {
    PromotedIsReady(p);
    BuiltFacts(b);
    var c := BuildCandidate(b).value;
    var built, now := MapsOf(Results(b.scope.runs)).value.results, MapsOf(Results(p.runs)).value.results;
    hide BuildCandidate, MapsOf, PromotionPolicy, RequiredChecks;
    forall id | id in c.results ensures built[id].id == id {
      ResultsKeyed(b.scope.runs, id);
    }
    forall id | id in p.candidate.results ensures now[id].id == id {
      ResultsKeyed(p.runs, id);
    }
    if p.candidate.answer == c.answer {
      AnswerDetermines(now, p.candidate.results, built, c.results);
    }
    if p.candidate.results == c.results && SameAnswers(c.results, built, now) {
      var x, y := Pick(built, c.results), Pick(now, c.results);
      forall i | 0 <= i < |x| ensures x[i].id == y[i].id && x[i].kind == y[i].kind && x[i].value == y[i].value {
        assert c.results[i] in c.results;
      }
    }
  }

  predicate SameAnswers(ids: seq<Id>, a: map<Id, ResultItem>, b: map<Id, ResultItem>)
  {
    forall id :: id in ids ==> id in a && id in b && a[id].kind == b[id].kind && a[id].value == b[id].value
  }

  lemma PromotedHasRefs(p: Promotion)
    requires Promoted(p)
    ensures p.candidate.results != [] && p.candidate.evidence != [] && NoRepeats(p.candidate.evidence)
  {
    hide Ready, PromotionPolicy, InScope;
  }

  /** Whatever is promoted on a recorded verification, with whatever analyses: the verifier's replay
      agreed with the candidate that was verified, and the promoted one names only results and evidence
      of that candidate. Their values are those of the analyses it is promoted with. */
  lemma PromotedDrawsOnVerified(v: Verify, replies: nat -> Reply, p: Promotion)
    requires Promoted(p) && VerifyCandidate(v, replies) == Done(p.verification)
    ensures InScope(v.candidate, v.scope.runs) && Agreed(v, replies)
    ensures forall id :: id in p.candidate.results ==> id in v.candidate.results
    ensures forall id :: id in p.candidate.evidence ==> id in v.candidate.evidence
    ensures p.verifier.id != p.reporter.id
  {
    hide VerifyCandidate, RecordVerification, RequiredChecks, MapsOf, ReplayRuns, Covers, Promoted, PromotionPolicy;
    PromotedIsReady(p);
    PolicySeparates(p);
    PassRecorded(v, replies);
    var original, docs := MapsOf(Results(v.scope.runs)).value, ReplayRuns(v.scope.runs, replies).docs;
    var replay := MapsOf(docs).value;
    PassIffReproduced(v, original, replay, docs);
    ChecksListed(v, original, replay, docs);
    CoveredIsListed(p.verification, p.candidate, v.candidate);
  }

  lemma PolicySeparates(p: Promotion)
    requires PromotionPolicy(p)
    ensures p.verifier.id != p.reporter.id
  {
  }

  lemma CoveredIsListed(x: Verification, e: Candidate, c: Candidate)
    requires Covers(x, e)
    requires forall i :: 0 <= i < |x.checks| ==> x.checks[i].results == c.results && x.checks[i].evidence == c.evidence
    ensures forall id :: id in e.results ==> id in c.results
    ensures forall id :: id in e.evidence ==> id in c.evidence
  {
    forall id | id in e.results ensures id in c.results {
      assert ResultCovered(x, id);
    }
    forall id | id in e.evidence ensures id in c.evidence {
      assert EvidenceCovered(x, id);
    }
  }
}
