/** Which candidates the gate promotes on a recorded verification: what may have been edited since, and
    what the analyses it is promoted with may say
    (src/scan_tool/application/candidate_verifier.py:376-427, 604-654). */
module CandidateEdits {
  import opened Basics
  import opened CandidateModel
  import opened CandidateVerifier
  import opened CandidatePromotion

  // ---------------------------------------------------------------- fewer results need no new checks

  ghost predicate AllFrom<R>(small: seq<R>, big: seq<R>)
  {
    forall x :: x in small ==> x in big
  }

  function Values(selected: seq<ResultItem>): Json
  {
    Json.List(seq(|selected|, i requires 0 <= i < |selected| => selected[i].value))
  }

  lemma NamedInMore(small: seq<ResultItem>, big: seq<ResultItem>, w: Wanted)
    requires AllFrom(small, big) && Named(Values(small), w) != []
    ensures Named(Values(big), w) != []
  {
    NamedIff(Values(small), w);
    NamedIff(Values(big), w);
    var f :| Contains(Values(small), f) && Matches(w, f);
    var i :| 0 <= i < |small| && Contains(Values(small).items[i], f);
    assert small[i] in big;
    var k :| 0 <= k < |big| && big[k] == small[i];
    assert Contains(Values(big).items[k], f);
  }

  lemma RequiredOfFewer(small: seq<ResultItem>, big: seq<ResultItem>, cited: seq<Evidence>, more: seq<Evidence>)
    requires AllFrom(small, big) && AllFrom(cited, more)
    ensures AllFrom(RequiredChecks(small, cited), RequiredChecks(big, more))
  {
    if Named(Values(small), Addresses) != [] { NamedInMore(small, big, Addresses); }
    if Named(Values(small), RawAmounts) != [] { NamedInMore(small, big, RawAmounts); }
    if Named(Values(small), DecimalCounts) != [] { NamedInMore(small, big, DecimalCounts); }
    if i :| 0 <= i < |cited| && cited[i].transaction.Some? {
      assert cited[i] in more;
    }
    AlwaysRequired(big, more);
    hide Named;
    assert Values(small) == Json.List(seq(|small|, i requires 0 <= i < |small| => small[i].value));
    assert Values(big) == Json.List(seq(|big|, i requires 0 <= i < |big| => big[i].value));
  }

  // ---------------------------------------------------------------- what the gate accepts

  /** Results and evidence are some of the verified ones, each once. */
  predicate Drawn(e: Candidate, c: Candidate)
  {
    && e.results != [] && NoRepeats(e.results) && (forall id :: id in e.results ==> id in c.results)
    && e.evidence != [] && NoRepeats(e.evidence) && (forall id :: id in e.evidence ==> id in c.evidence)
  }

  /** The checks a candidate needs over the analyses it refers to. */
  function ChecksFor(c: Candidate, runs: seq<EvidenceRun>): seq<Check>
    requires InScope(c, runs)
  {
    var maps := MapsOf(Results(runs)).value;
    RequiredChecks(Pick(maps.results, c.results), Pick(maps.evidence, c.evidence))
  }

  /** Every run is of a job the verification was independent from. */
  predicate KnownJobs(v: Verify, runs: seq<EvidenceRun>)
  {
    forall i :: 0 <= i < |runs| ==> runs[i].job.id in [v.scope.reporter.id] + JobIds(v.scope.runs)
  }

  /** The candidate stands on its own analyses. */
  predicate Settled(c: Candidate, runs: seq<EvidenceRun>)
    requires InScope(c, runs)
  {
    var results := MapsOf(Results(runs)).value.results;
    && c.answer == CanonicalAnswer(Pick(results, c.results)) && Confirmed(results, c.results)
    && c.uncertainties == []
    && forall i :: 0 <= i < |runs| ==> runs[i].job.status == JobComplete && runs[i].result.status == AnalysisComplete
  }

  ghost predicate Supported(v: Verify, p: Promotion)
    requires InScope(v.candidate, v.scope.runs) && InScope(p.candidate, p.runs)
  {
    && Drawn(p.candidate, v.candidate) && KnownJobs(v, p.runs) && Settled(p.candidate, p.runs)
    && AllFrom(ChecksFor(p.candidate, p.runs), ChecksFor(v.candidate, v.scope.runs))
  }

  lemma VerifiedInScope(v: Verify, replies: nat -> Reply)
    requires VerifyCandidate(v, replies).Done?
    ensures InScope(v.candidate, v.scope.runs) && NoRepeats(v.candidate.evidence)
    ensures VerifyCandidate(v, replies).value.independent == IndependentJobs(v)
  {
    hide VerifyPolicy, MissingEvidence, Conflicts, RequiredChecks, BasePass;
  }

  lemma KnownJobsIff(v: Verify, x: Verification, runs: seq<EvidenceRun>)
    requires x.independent == IndependentJobs(v)
    ensures KnownJobs(v, runs) <==> forall i :: 0 <= i < |runs| ==> runs[i].job.id in x.independent
  {
    hide Dedup;
  }

  lemma ListedIff(x: Verification, required: seq<Check>, check: Check)
    requires |x.checks| == |required|
    requires forall i :: 0 <= i < |required| ==> x.checks[i].check == required[i] && x.checks[i].passed
    ensures CheckPassed(x, check) <==> check in required
  {
    if check in required {
      var i :| 0 <= i < |required| && required[i] == check;
      assert x.checks[i].passed;
    }
  }

  /** The passed checks of a passing record are those the verified candidate needed. */
  lemma PassedWasRequired(v: Verify, replies: nat -> Reply, check: Check)
    requires VerifyCandidate(v, replies).Done? && VerifyCandidate(v, replies).value.status == Pass
    ensures InScope(v.candidate, v.scope.runs)
    ensures CheckPassed(VerifyCandidate(v, replies).value, check) <==> check in ChecksFor(v.candidate, v.scope.runs)
  {
    hide VerifyCandidate, RecordVerification, RequiredChecks, MapsOf, ReplayRuns, Reproduced, CheckPassed;
    PassRecorded(v, replies);
    var m, docs := MapsOf(Results(v.scope.runs)).value, ReplayRuns(v.scope.runs, replies).docs;
    PassIffReproduced(v, m, MapsOf(docs).value, docs);
    ChecksListed(v, m, MapsOf(docs).value, docs);
    ListedIff(VerifyCandidate(v, replies).value, ChecksFor(v.candidate, v.scope.runs), check);
  }

  /** The checks of a passing record cover every candidate drawn from the verified one. */
  lemma DrawnIsCovered(v: Verify, replies: nat -> Reply, e: Candidate)
    requires VerifyCandidate(v, replies).Done? && VerifyCandidate(v, replies).value.status == Pass && Drawn(e, v.candidate)
    ensures Covers(VerifyCandidate(v, replies).value, e)
  {
    PassRecorded(v, replies);
    var m, docs := MapsOf(Results(v.scope.runs)).value, ReplayRuns(v.scope.runs, replies).docs;
    PassCovers(v, m, MapsOf(docs).value, docs);
    hide VerifyCandidate, RecordVerification, RequiredChecks, MapsOf, ReplayRuns, ResultCovered, EvidenceCovered, CheckPassed;
  }

  lemma ReadyIsSupported(v: Verify, replies: nat -> Reply, p: Promotion)
    requires VerifyCandidate(v, replies) == Done(p.verification) && Promoted(p)
    ensures PromotionPolicy(p) && InScope(p.candidate, p.runs) && p.verification.status == Pass
    ensures InScope(v.candidate, v.scope.runs) && Supported(v, p)
  {
    hide VerifyCandidate, RequiredChecks, MapsOf, PromotionPolicy, Agreed, Covers, Promote, Promoted, CanonicalAnswer, Dedup, CheckPassed, Confirmed;
    PromotedIsReady(p);
    PromotedHasRefs(p);
    PromotedDrawsOnVerified(v, replies, p);
    VerifiedInScope(v, replies);
    KnownJobsIff(v, p.verification, p.runs);
    var needed := ChecksFor(p.candidate, p.runs);
    forall check | check in needed ensures check in ChecksFor(v.candidate, v.scope.runs) {
      var i :| 0 <= i < |needed| && needed[i] == check;
      assert CheckPassed(p.verification, needed[i]);
      PassedWasRequired(v, replies, check);
    }
  }

  lemma SupportedIsReady(v: Verify, replies: nat -> Reply, p: Promotion)
    requires VerifyCandidate(v, replies) == Done(p.verification)
    requires PromotionPolicy(p) && InScope(p.candidate, p.runs) && p.verification.status == Pass
    requires InScope(v.candidate, v.scope.runs) && Supported(v, p)
    ensures Ready(p)
  {
    hide VerifyCandidate, RequiredChecks, MapsOf, Agreed, Covers, CanonicalAnswer, Dedup, CheckPassed, Confirmed;
    VerifiedInScope(v, replies);
    KnownJobsIff(v, p.verification, p.runs);
    DrawnIsCovered(v, replies, p.candidate);
    var needed := ChecksFor(p.candidate, p.runs);
    forall i | 0 <= i < |needed| ensures CheckPassed(p.verification, needed[i]) {
      assert needed[i] in needed;
      PassedWasRequired(v, replies, needed[i]);
    }
  }

  lemma ReadyIsPromoted(p: Promotion)
    requires PromotionPolicy(p) && InScope(p.candidate, p.runs) && Ready(p)
    requires p.candidate.results != [] && p.candidate.evidence != [] && NoRepeats(p.candidate.evidence)
    ensures Promoted(p)
  {
    var none := p.candidate.uncertainties;
    assert none == [] && NoRepeats(none);
    hide Ready, PromotionPolicy, InScope;
  }

  /** Exactly what is promoted on a recorded verification, whatever the candidate and the analyses have
      become since: the verification passed, the candidate names only results and evidence of the
      verified one, the runs are of jobs known to the verifier, the candidate needs no check that the
      verified one did not need, its answer is the canonical one over its own runs, these are complete
      and say confirmed facts, and nothing is uncertain. */
  lemma PromotedIff(v: Verify, replies: nat -> Reply, p: Promotion)
    requires VerifyCandidate(v, replies) == Done(p.verification)
    ensures InScope(v.candidate, v.scope.runs)
    ensures Promoted(p)
      <==> PromotionPolicy(p) && InScope(p.candidate, p.runs) && p.verification.status == Pass && Supported(v, p)
  {
    hide VerifyCandidate, Promoted, PromotionPolicy, InScope, Drawn, KnownJobs, Settled, ChecksFor;
    VerifiedInScope(v, replies);
    if Promoted(p) {
      ReadyIsSupported(v, replies, p);
    }
    if PromotionPolicy(p) && InScope(p.candidate, p.runs) && p.verification.status == Pass && Supported(v, p) {
      SupportedIsReady(v, replies, p);
      DrawnRefs(p.candidate, v.candidate);
      ReadyIsPromoted(p);
    }
  }

  lemma DrawnRefs(e: Candidate, c: Candidate)
    requires Drawn(e, c)
    ensures e.results != [] && e.evidence != [] && NoRepeats(e.evidence)
  {
  }

  // ---------------------------------------------------------------- is it what was replayed

  function ReplayedMaps(v: Verify, replies: nat -> Reply): Maps
    requires InScope(v.candidate, v.scope.runs) && Agreed(v, replies)
  {
    MapsOf(ReplayRuns(v.scope.runs, replies).docs).value
  }

  /** When what is promoted is what was replayed. The answer is the canonical one of the replayed
      results exactly when the analyses it is promoted with give the selected results the kinds and
      values they had at verification; and the selected results and cited evidence are the replayed
      records exactly when these analyses still hold the same records under those identifiers. */
  lemma PromotedIsReplayedIff(v: Verify, replies: nat -> Reply, p: Promotion)
    requires VerifyCandidate(v, replies) == Done(p.verification) && Promoted(p)
    ensures InScope(v.candidate, v.scope.runs) && Agreed(v, replies) && InScope(p.candidate, p.runs)
    ensures var e, was, now, replayed := p.candidate, MapsOf(Results(v.scope.runs)).value, MapsOf(Results(p.runs)).value, ReplayedMaps(v, replies);
      && AllIn(e.results, replayed.results) && AllIn(e.evidence, replayed.evidence)
      && (e.answer == CanonicalAnswer(Pick(replayed.results, e.results)) <==> SameAnswers(e.results, was.results, now.results))
      && (Pick(now.results, e.results) == Pick(replayed.results, e.results) <==> SameRecords(e.results, was.results, now.results))
      && (Pick(now.evidence, e.evidence) == Pick(replayed.evidence, e.evidence) <==> SameRecords(e.evidence, was.evidence, now.evidence))
  {
    hide VerifyCandidate, Promoted, RequiredChecks, PromotionPolicy, MapsOf, ReplayRuns, Covers, RequiredPassed, CanonicalAnswer;
    PromotedIsReady(p);
    PromotedDrawsOnVerified(v, replies, p);
    var e, was, now, replayed := p.candidate, MapsOf(Results(v.scope.runs)).value, MapsOf(Results(p.runs)).value, ReplayedMaps(v, replies);
    SamePickIff(e.results, was.results, now.results, replayed.results);
    SamePickIff(e.evidence, was.evidence, now.evidence, replayed.evidence);
    forall id | id in e.results ensures now.results[id].id == id && replayed.results[id].id == id {
      ResultsKeyed(p.runs, id);
      ResultsKeyed(v.scope.runs, id);
    }
    SameCanonicalIff(e.results, now.results, replayed.results);
  }

  lemma SamePickIff<R>(ids: seq<Id>, was: map<Id, R>, now: map<Id, R>, replayed: map<Id, R>)
    requires AllIn(ids, now) && SameRecords(ids, was, replayed)
    ensures AllIn(ids, replayed) && (Pick(now, ids) == Pick(replayed, ids) <==> SameRecords(ids, was, now))
  {
    if Pick(now, ids) == Pick(replayed, ids) {
      forall id | id in ids ensures was[id] == now[id] {
        var i :| 0 <= i < |ids| && ids[i] == id;
        assert Pick(now, ids)[i] == Pick(replayed, ids)[i];
      }
    }
  }

  lemma SameCanonicalIff(ids: seq<Id>, a: map<Id, ResultItem>, b: map<Id, ResultItem>)
    requires AllIn(ids, a) && AllIn(ids, b)
    requires forall id :: id in ids ==> a[id].id == id && b[id].id == id
    ensures CanonicalAnswer(Pick(a, ids)) == CanonicalAnswer(Pick(b, ids)) <==> SameAnswers(ids, b, a)
  {
    if CanonicalAnswer(Pick(a, ids)) == CanonicalAnswer(Pick(b, ids)) {
      AnswerDetermines(a, ids, b, ids);
    }
    if SameAnswers(ids, b, a) {
      SameAnswersSameCanonical(ids, a, b);
    }
  }

  lemma SameAnswersSameCanonical(ids: seq<Id>, a: map<Id, ResultItem>, b: map<Id, ResultItem>)
    requires AllIn(ids, a) && AllIn(ids, b) && SameAnswers(ids, b, a)
    requires forall id :: id in ids ==> a[id].id == id && b[id].id == id
    ensures CanonicalAnswer(Pick(a, ids)) == CanonicalAnswer(Pick(b, ids))
  {
    var x, y := Pick(a, ids), Pick(b, ids);
    forall i | 0 <= i < |x| ensures x[i].id == y[i].id && x[i].kind == y[i].kind && x[i].value == y[i].value {
      assert ids[i] in ids;
    }
  }

  // ---------------------------------------------------------------- edits over the verified analyses

  /** The promotion of an edited candidate with the scope and the runs of the verification. */
  function EditPromotion(v: Verify, e: Candidate, x: Verification): Promotion
  {
    PromotionOf(v.(candidate := e), x)
  }

  predicate EditAllowed(v: Verify, e: Candidate)
    requires InScope(v.candidate, v.scope.runs)
  {
    && e.id == v.candidate.id && e.problem == v.candidate.problem && e.creator == v.candidate.creator
    && (e.status == Draft || e.status == ReviewRequired)
    && Drawn(e, v.candidate) && InScope(e, v.scope.runs) && Settled(e, v.scope.runs)
  }

  lemma EditPolicy(v: Verify, replies: nat -> Reply, e: Candidate)
    requires VerifyCandidate(v, replies).Done?
    ensures var p := EditPromotion(v, e, VerifyCandidate(v, replies).value);
      PromotionPolicy(p) <==> e.id == v.candidate.id && e.problem == v.candidate.problem && e.creator == v.candidate.creator
                              && (e.status == Draft || e.status == ReviewRequired)
  {
    FollowsPolicy(v, replies);
    RecordedFor(v, replies);
    hide VerifyCandidate, RunsPolicy;
  }

  lemma PickedFrom<R>(small: seq<Id>, big: seq<Id>, m: map<Id, R>)
    requires AllIn(small, m) && AllIn(big, m) && forall id :: id in small ==> id in big
    ensures AllFrom(Pick(m, small), Pick(m, big))
  {
    forall x | x in Pick(m, small) ensures x in Pick(m, big) {
      var i :| 0 <= i < |small| && Pick(m, small)[i] == x;
      assert small[i] in big;
      var k :| 0 <= k < |big| && big[k] == small[i];
      assert Pick(m, big)[k] == x;
    }
  }

  /** Over the verified analyses, a candidate drawn from the verified one needs no other checks. */
  lemma DrawnNeedsNoMore(v: Verify, e: Candidate)
    requires InScope(v.candidate, v.scope.runs) && InScope(e, v.scope.runs) && Drawn(e, v.candidate)
    ensures AllFrom(ChecksFor(e, v.scope.runs), ChecksFor(v.candidate, v.scope.runs)) && KnownJobs(v, v.scope.runs)
  {
    var c, m := v.candidate, MapsOf(Results(v.scope.runs)).value;
    hide RequiredChecks, MapsOf;
    PickedFrom(e.results, c.results, m.results);
    PickedFrom(e.evidence, c.evidence, m.evidence);
    RequiredOfFewer(Pick(m.results, e.results), Pick(m.results, c.results), Pick(m.evidence, e.evidence), Pick(m.evidence, c.evidence));
    forall i | 0 <= i < |v.scope.runs| ensures v.scope.runs[i].job.id in [v.scope.reporter.id] + JobIds(v.scope.runs) {
      assert JobIds(v.scope.runs)[i] == v.scope.runs[i].job.id;
    }
  }

  /** With the runs that were verified, the checks need no clause of their own: an edit is promoted
      exactly when the record is otherwise the same candidate, its results and evidence are some of the
      verified ones, and it is settled over those runs. Its format and earlier verifications do not
      matter. */
  lemma EditIsPromotedIff(v: Verify, replies: nat -> Reply, e: Candidate)
    requires VerifyCandidate(v, replies).Done?
    ensures InScope(v.candidate, v.scope.runs)
    ensures Promoted(EditPromotion(v, e, VerifyCandidate(v, replies).value))
      <==> VerifyCandidate(v, replies).value.status == Pass && EditAllowed(v, e)
  {
    hide VerifyCandidate, Promoted, InScope, Drawn, Settled, KnownJobs, ChecksFor, AllFrom, PromotionPolicy;
    PromotedIff(v, replies, EditPromotion(v, e, VerifyCandidate(v, replies).value));
    EditPolicy(v, replies, e);
    if InScope(e, v.scope.runs) && Drawn(e, v.candidate) {
      DrawnNeedsNoMore(v, e);
    }
  }

  predicate SameContent(e: Candidate, c: Candidate)
  {
    && e.id == c.id && e.problem == c.problem && e.creator == c.creator && e.format == c.format && e.answer == c.answer
    && e.results == c.results && e.evidence == c.evidence && e.uncertainties == c.uncertainties
  }

  /** When what is promoted over the verified runs is what was built: a promoted edit has the built
      answer exactly when it has the built results, and it has all of the built content exactly when it
      also has the built evidence and format and the built candidate had no uncertainty. */
  lemma PromotedIsBuiltIff(b: Build, v: Verify, replies: nat -> Reply, e: Candidate)
    requires BuildCandidate(b).Done? && v.scope == b.scope && v.candidate == BuildCandidate(b).value
    requires VerifyCandidate(v, replies).Done? && Promoted(EditPromotion(v, e, VerifyCandidate(v, replies).value))
    ensures e.answer == v.candidate.answer <==> e.results == v.candidate.results
    ensures SameContent(e, v.candidate)
      <==> e.results == v.candidate.results && e.evidence == v.candidate.evidence && e.format == v.candidate.format && b.uncertainties == []
  {
    hide VerifyCandidate, Promoted, RequiredChecks, BuildPolicy;
    EditIsPromotedIff(v, replies, e);
    AnswerAndResultsAgree(b, EditPromotion(v, e, VerifyCandidate(v, replies).value));
    BuiltFacts(b);
    hide MapsOf, BuildCandidate;
  }
}
