/** Candidates that are promoted though they are not what was built and replayed
    (src/scan_tool/application/candidate_verifier.py:376-427, 604-654). */
module CandidateWitness {
  import opened Basics
  import opened CandidateModel
  import opened CandidateVerifier
  import opened CandidatePromotion
  import opened CandidateEdits

  // ---------------------------------------------------------------- an edit that gets through

  const R1 := ResultItem(11, 0, ConfirmedFact, Scalar(5), [21], 0)
  const R2 := ResultItem(12, 0, ConfirmedFact, Scalar(6), [21], 0)
  const EV := Evidence(21, None, 0)
  const DOC := Document(7, 1, AnalysisComplete, [R1, R2], [EV])
  const RUN := EvidenceRun(Job(3, EvidenceRole, JobComplete, 1, 1, Some(7)), 7, DOC, true)
  const SCOPE := Scope(Manifest(1, true), Problem(1, 1, Running, 1, 0), Plan(1, 1, true), Job(2, Reporter, JobRunning, 1, 1, None), [RUN])
  const BUILD := Build(SCOPE, 30, [11, 12], [])

  function Repeats(n: nat): Reply { Replayed(false, true, DOC) }

  lemma IndexOne<R>(x: R, id: R -> Id)
    ensures Index([x], id) == Some(map[id(x) := x])
  {
    assert [x][..0] == [];
  }

  lemma IndexTwo<R>(x: R, y: R, id: R -> Id)
    requires id(x) != id(y)
    ensures Index([x, y], id) == Some(map[id(x) := x, id(y) := y])
  {
    IndexOne(x, id);
    IndexNext([x], y, id);
    hide Index;
    assert [x] + [y] == [x, y];
    assert map[id(x) := x][id(y) := y] == map[id(x) := x, id(y) := y];
  }

  lemma WitnessDocuments()
    ensures AllResults([DOC]) == [R1, R2] && AllEvidence([DOC]) == [EV]
  {
    assert [DOC][..0] == [];
  }

  lemma WitnessMaps()
    ensures Results(SCOPE.runs) == [DOC] && MapsOf([DOC]).Some?
    ensures var m := MapsOf([DOC]).value;
      && 11 in m.results && 12 in m.results && m.results[11] == R1 && m.results[12] == R2
      && 21 in m.evidence && m.evidence[21] == EV
  {
    WitnessDocuments();
    IndexTwo(R1, R2, ResultId);
    IndexOne(EV, EvidenceId);
    hide Index, AllResults, AllEvidence;
  }

  lemma WitnessPolicy()
    ensures BuildPolicy(BUILD)
  {
    assert RunPolicy(SCOPE.problem, RUN);
  }

  lemma WitnessEvidence()
    ensures Dedup(CitedEvidence([R1, R2])) != [] && forall id :: id in Dedup(CitedEvidence([R1, R2])) <==> id == 21
  {
    hide CitedEvidence, Dedup;
    var selected := [R1, R2];
    var refs := Dedup(CitedEvidence(selected));
    forall id ensures id in CitedEvidence(selected) <==> id == 21 {
      CitedBySome(selected, id);
      assert R1 in selected && 21 in R1.evidence;
      assert forall r :: r in selected ==> r.evidence == [21];
    }
    assert 21 in refs;
  }

  lemma WitnessCandidate()
    ensures BuildCandidate(BUILD).Done?
    ensures BuildCandidate(BUILD).value.results == [11, 12] && 21 in BuildCandidate(BUILD).value.evidence
    ensures BuildCandidate(BUILD).value.problem == 1 && BuildCandidate(BUILD).value.creator == 2 && BuildCandidate(BUILD).value.status == Draft
  {
    hide MapsOf, BuildPolicy, CitedEvidence, Dedup, CanonicalAnswer;
    WitnessMaps();
    WitnessPolicy();
    WitnessEvidence();
    NoRepeatsIff([11, 12]);
    assert Pick(MapsOf([DOC]).value.results, [11, 12]) == [R1, R2];
  }

  lemma WitnessReplay()
    ensures ReplayRuns([RUN], Repeats) == AllReplayed([DOC], 1)
    ensures ChainsAgree([RUN], [DOC])
  {
    assert [RUN][..0] == [] && [DOC][..0] == [];
    assert ByAnalysis([DOC]) == map[7 := DOC];
  }

  /** A candidate is built from two results and verified; one result is then dropped and the answer
      rewritten to match. The edited candidate is promoted. */
  lemma DroppedResultIsPromoted() returns (v: Verify, e: Candidate)
    ensures BuildCandidate(BUILD).Done? && v.scope == BUILD.scope && v.candidate == BuildCandidate(BUILD).value
    ensures VerifyCandidate(v, Repeats).Done? && Promoted(EditPromotion(v, e, VerifyCandidate(v, Repeats).value))
    ensures |e.results| < |v.candidate.results| && e.answer != v.candidate.answer
  {
    hide MapsOf, BuildCandidate, RecordVerification, VerifyPolicy, VerifyCandidate, Promoted, EditAllowed, EditPromotion;
    WitnessCandidate();
    var c := BuildCandidate(BUILD).value;
    v := Verify(SCOPE, c, Job(4, Verifier, JobQueued, 1, 1, None), 40);
    e := Shortened(c);
    WitnessPasses(v);
    WitnessEdit(v);
    EditIsPromotedIff(v, Repeats, e);
  }

  function Shortened(c: Candidate): Candidate
  {
    c.(results := [11], evidence := [21], answer := Canonical([AnswerItem(11, 0, Scalar(5))]))
  }

  lemma WitnessEdit(v: Verify)
    requires BuildCandidate(BUILD).Done? && v.scope == SCOPE && v.candidate == BuildCandidate(BUILD).value
    ensures InScope(v.candidate, v.scope.runs) && EditAllowed(v, Shortened(v.candidate))
    ensures Shortened(v.candidate).answer != v.candidate.answer
  {
    WitnessMaps();
    WitnessCandidate();
    BuiltFacts(BUILD);
    NoRepeatsIff([11]);
    hide MapsOf, BuildCandidate;
    AnswersDiffer(v.candidate);
    assert Pick(MapsOf([DOC]).value.results, [11]) == [R1];
    WitnessAnswer();
  }

  lemma WitnessPasses(v: Verify)
    requires BuildCandidate(BUILD).Done? && v == Verify(SCOPE, BuildCandidate(BUILD).value, Job(4, Verifier, JobQueued, 1, 1, None), 40)
    ensures VerifyCandidate(v, Repeats).Done? && VerifyCandidate(v, Repeats).value.status == Pass
  {
    WitnessMaps();
    WitnessCandidate();
    BuiltFacts(BUILD);
    WitnessReplay();
    assert RunPolicy(SCOPE.problem, RUN);
    hide MapsOf, BuildCandidate, RecordVerification, ReplayRuns;
    assert VerifyPolicy(v);
    assert Agreed(v, Repeats);
    BuiltPassesIffAgreed(BUILD, v, Repeats);
  }

  lemma WitnessAnswer()
    ensures CanonicalAnswer([R1]) == Canonical([AnswerItem(11, 0, Scalar(5))])
  {
  }

  lemma AnswersDiffer(c: Candidate)
    requires MapsOf([DOC]).Some? && AllIn(c.results, MapsOf([DOC]).value.results) && |c.results| == 2
    ensures CanonicalAnswer(Pick(MapsOf([DOC]).value.results, c.results)) != Canonical([AnswerItem(11, 0, Scalar(5))])
  {
    hide MapsOf;
    assert |CanonicalAnswer(Pick(MapsOf([DOC]).value.results, c.results)).items| == 2;
  }

  // ---------------------------------------------------------------- other analyses

  const FORGED := R1.(value := Scalar(99))
  const FORGED_DOC := DOC.(results := [FORGED, R2])
  const FORGED_RUN := RUN.(result := FORGED_DOC)

  function Forged(c: Candidate): Candidate
  {
    c.(results := [11], evidence := [21], answer := Canonical([AnswerItem(11, 0, Scalar(99))]))
  }

  lemma ForgedMaps()
    ensures Results([FORGED_RUN]) == [FORGED_DOC] && MapsOf([FORGED_DOC]).Some?
    ensures var m := MapsOf([FORGED_DOC]).value;
      11 in m.results && m.results[11] == FORGED && 21 in m.evidence && m.evidence[21] == EV
  {
    assert [FORGED_DOC][..0] == [];
    assert AllResults([FORGED_DOC]) == [FORGED, R2] && AllEvidence([FORGED_DOC]) == [EV];
    IndexTwo(FORGED, R2, ResultId);
    IndexOne(EV, EvidenceId);
    hide Index, AllResults, AllEvidence;
  }

  lemma NumbersNameNothing(n: nat, w: Wanted)
    ensures Named(Json.List([Scalar(n)]), w) == []
  {
    assert Named(Scalar(n), w) == [];
    assert [Scalar(n)][1..] == [];
    assert NamedItems([Scalar(n)], w) == Named(Scalar(n), w) + NamedItems([], w);
  }

  lemma NumberNeedsFive(selected: seq<ResultItem>, cited: seq<Evidence>, n: nat)
    requires |selected| == 1 && selected[0].value == Scalar(n) && cited == [EV]
    ensures forall check :: check in RequiredChecks(selected, cited) ==> check in [AnswerFormat, AnswerValue, ChainId, ResultValues, EvidenceValues]
  {
    assert Values(selected) == Json.List(seq(|selected|, i requires 0 <= i < |selected| => selected[i].value));
    assert Values(selected).items == [Scalar(n)];
    NumbersNameNothing(n, Addresses);
    NumbersNameNothing(n, RawAmounts);
    NumbersNameNothing(n, DecimalCounts);
    hide Named;
  }

  lemma ForgedIsSettled(e: Candidate)
    requires e.results == [11] && e.evidence == [21] && e.uncertainties == [] && e.answer == Canonical([AnswerItem(11, 0, Scalar(99))])
    ensures InScope(e, [FORGED_RUN]) && Settled(e, [FORGED_RUN])
    ensures forall check :: check in ChecksFor(e, [FORGED_RUN]) ==> check in [AnswerFormat, AnswerValue, ChainId, ResultValues, EvidenceValues]
  {
    ForgedMaps();
    NoRepeatsIff([11]);
    NumberNeedsFive([FORGED], [EV], 99);
    hide MapsOf, RequiredChecks;
    var m := MapsOf([FORGED_DOC]).value;
    assert Pick(m.results, [11]) == [FORGED] && Pick(m.evidence, [21]) == [EV];
    assert CanonicalAnswer([FORGED]).items == [AnswerItem(11, 0, Scalar(99))];
  }

  lemma ForgedPolicy(p: Promotion, q: Promotion)
    requires PromotionPolicy(q) && q.runs == [RUN]
    requires p == q.(candidate := Forged(q.candidate), runs := [FORGED_RUN])
    ensures PromotionPolicy(p)
  {
    assert RunPolicy(q.problem, q.runs[0]);
  }

  lemma ForgedIsSupported(v: Verify, p: Promotion)
    requires BuildCandidate(BUILD).Done? && v.scope == SCOPE && v.candidate == BuildCandidate(BUILD).value
    requires p.candidate == Forged(v.candidate) && p.runs == [FORGED_RUN]
    ensures InScope(v.candidate, v.scope.runs) && InScope(p.candidate, p.runs) && Supported(v, p)
  {
    hide MapsOf, BuildCandidate, ChecksFor, Settled, InScope;
    WitnessCandidate();
    BuiltFacts(BUILD);
    ForgedIsSettled(p.candidate);
    AlwaysNeeded(v.candidate, v.scope.runs);
    NoRepeatsIff([11]);
    NoRepeatsIff([21]);
    assert JobIds(v.scope.runs)[0] == 3;
    assert [v.scope.reporter.id] + JobIds(v.scope.runs) == [2, 3] && [2, 3][1] == 3;
  }

  lemma AlwaysNeeded(c: Candidate, runs: seq<EvidenceRun>)
    requires InScope(c, runs)
    ensures forall check :: check in [AnswerFormat, AnswerValue, ChainId, ResultValues, EvidenceValues] ==> check in ChecksFor(c, runs)
  {
    var m := MapsOf(Results(runs)).value;
    AlwaysRequired(Pick(m.results, c.results), Pick(m.evidence, c.evidence));
    hide RequiredChecks, MapsOf;
  }

  /** A candidate is built and verified; it is then promoted with the run's analysis changed and its
      answer rewritten to match, to a value that no replay ever gave. */
  lemma ForgedValueIsPromoted() returns (v: Verify, p: Promotion)
    ensures BuildCandidate(BUILD).Done? && v.scope == BUILD.scope && v.candidate == BuildCandidate(BUILD).value
    ensures VerifyCandidate(v, Repeats) == Done(p.verification) && Promoted(p)
    ensures ReplayRuns(v.scope.runs, Repeats) == AllReplayed([DOC], 1) && R1 in DOC.results && R1.value == Scalar(5)
    ensures p.candidate.answer == Canonical([AnswerItem(R1.id, R1.kind, Scalar(99))])
  {
    hide MapsOf, BuildCandidate, RecordVerification, VerifyPolicy, VerifyCandidate, Promoted, InScope, Supported, PromotionPolicy;
    WitnessCandidate();
    WitnessReplay();
    v := Verify(SCOPE, BuildCandidate(BUILD).value, Job(4, Verifier, JobQueued, 1, 1, None), 40);
    WitnessPasses(v);
    var x := VerifyCandidate(v, Repeats).value;
    var q := PromotionOf(v, x);
    p := q.(candidate := Forged(v.candidate), runs := [FORGED_RUN]);
    FollowsPolicy(v, Repeats);
    ForgedPolicy(p, q);
    ForgedIsSupported(v, p);
    PromotedIff(v, Repeats, p);
  }
}
