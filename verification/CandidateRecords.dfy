/** What a verification records and what the promotion gate makes of it, in the records' own fields
    (src/scan_tool/application/candidate_verifier.py:226-427, 604-872). */
module CandidateRecords {
  import opened Basics
  import opened CandidateModel
  import opened CandidateVerifier
  import opened CandidatePromotion
  import opened CandidateEdits
  import opened CandidateLaws

  // ---------------------------------------------------------------- which checks are needed

  const HEX := "0123456789abcdefABCDEF"

  predicate LooksLikeAddress(v: Json)
  {
    v.Text? && |v.text| == 42 && v.text[0] == '0' && v.text[1] == 'x' && forall i :: 2 <= i < 42 ==> v.text[i] in HEX
  }

  lemma HexIff(c: char)
    ensures HexDigit(c) <==> c in HEX
  {
    assert c in HEX <==> exists i :: 0 <= i < 22 && HEX[i] == c;
    if HexDigit(c) {
      var i := if '0' <= c <= '9' then (c - '0') as nat else if 'a' <= c <= 'f' then (c - 'a') as nat + 10 else (c - 'A') as nat + 16;
      assert HEX[i] == c;
    }
  }

  lemma AddressIff(v: Json)
    ensures IsAddress(v) <==> LooksLikeAddress(v)
  {
    if v.Text? {
      forall i | 0 <= i < |v.text| ensures HexDigit(v.text[i]) <==> v.text[i] in HEX {
        HexIff(v.text[i]);
      }
      if |v.text| == 42 {
        assert v.text[..2] == [v.text[0], v.text[1]];
      }
    }
  }

  /** The value of one of these results has this field at some depth. */
  ghost predicate Shows(selected: seq<ResultItem>, f: Field)
  {
    exists i :: 0 <= i < |selected| && Contains(selected[i].value, f)
  }

  ghost predicate IsRaw(f: Field)
  {
    exists stem :: f.key == stem + "_raw"
  }

  lemma RawIff(f: Field)
    ensures Matches(RawAmounts, f) <==> IsRaw(f)
  {
    if stem :| f.key == stem + "_raw" {
      assert f.key[|f.key| - 4..] == "_raw";
    }
    if |f.key| >= 4 && f.key[|f.key| - 4..] == "_raw" {
      assert f.key == f.key[..|f.key| - 4] + "_raw";
    }
  }

  /** Five checks always; the others when a value shows an address, cited evidence a transaction, a key
      ends in `_raw`, or is `decimals`. */
  ghost predicate Needs(check: Check, selected: seq<ResultItem>, cited: seq<Evidence>)
  {
    match check
    case AddressCheck => exists f :: Shows(selected, f) && LooksLikeAddress(f.value)
    case TransactionCheck => exists i :: 0 <= i < |cited| && cited[i].transaction.Some?
    case RawAmount => exists f :: Shows(selected, f) && IsRaw(f)
    case Decimals => exists f :: Shows(selected, f) && f.key == "decimals"
    case IndependentReplay => false
    case _ => true
  }

  lemma ShowsIff(selected: seq<ResultItem>, f: Field)
    ensures Contains(Values(selected), f) <==> Shows(selected, f)
  {
    if i :| 0 <= i < |selected| && Contains(selected[i].value, f) {
      assert Contains(Values(selected).items[i], f);
    }
    if Contains(Values(selected), f) {
      var i :| 0 <= i < |selected| && Contains(Values(selected).items[i], f);
      assert Contains(selected[i].value, f);
    }
  }

  lemma NamedShows(selected: seq<ResultItem>, w: Wanted)
    ensures Named(Values(selected), w) != [] <==> exists f :: Shows(selected, f) && Matches(w, f)
  {
    hide Shows, Matches, Values, Contains, Named;
    NamedIff(Values(selected), w);
    if f :| Contains(Values(selected), f) && Matches(w, f) {
      ShowsIff(selected, f);
    }
    if f :| Shows(selected, f) && Matches(w, f) {
      ShowsIff(selected, f);
    }
  }

  lemma OptionalChecks(selected: seq<ResultItem>, cited: seq<Evidence>)
    ensures AddressCheck in RequiredChecks(selected, cited) <==> Named(Values(selected), Addresses) != []
    ensures TransactionCheck in RequiredChecks(selected, cited) <==> exists i :: 0 <= i < |cited| && cited[i].transaction.Some?
    ensures RawAmount in RequiredChecks(selected, cited) <==> Named(Values(selected), RawAmounts) != []
    ensures Decimals in RequiredChecks(selected, cited) <==> Named(Values(selected), DecimalCounts) != []
  {
    hide Named;
    assert Values(selected) == Json.List(seq(|selected|, i requires 0 <= i < |selected| => selected[i].value));
    var a, b := Named(Values(selected), Addresses) != [], exists i :: 0 <= i < |cited| && cited[i].transaction.Some?;
    var c, d := Named(Values(selected), RawAmounts) != [], Named(Values(selected), DecimalCounts) != [];
    assert RequiredChecks(selected, cited) == Joined(a, b, c, d);
    hide RequiredChecks;
    JoinedMembers(a, b, c, d);
  }

  function Joined(a: bool, b: bool, c: bool, d: bool): seq<Check>
  {
    [AnswerFormat, AnswerValue, ChainId, ResultValues, EvidenceValues]
    + (if a then [AddressCheck] else []) + (if b then [TransactionCheck] else [])
    + (if c then [RawAmount] else []) + (if d then [Decimals] else [])
  }

  lemma JoinedMembers(a: bool, b: bool, c: bool, d: bool)
    ensures AddressCheck in Joined(a, b, c, d) <==> a
    ensures TransactionCheck in Joined(a, b, c, d) <==> b
    ensures RawAmount in Joined(a, b, c, d) <==> c
    ensures Decimals in Joined(a, b, c, d) <==> d
  {
  }

  lemma NeedsIff(selected: seq<ResultItem>, cited: seq<Evidence>, check: Check)
    ensures check in RequiredChecks(selected, cited) <==> Needs(check, selected, cited)
  {
    hide RequiredChecks, Named, Shows, IsAddress, LooksLikeAddress, IsRaw;
    AlwaysRequired(selected, cited);
    OptionalChecks(selected, cited);
    NamedShows(selected, Addresses);
    NamedShows(selected, RawAmounts);
    NamedShows(selected, DecimalCounts);
    forall f ensures Matches(RawAmounts, f) <==> IsRaw(f) {
      RawIff(f);
    }
    forall f: Field ensures Matches(Addresses, f) <==> LooksLikeAddress(f.value) {
      AddressIff(f.value);
    }
    var five := [AnswerFormat, AnswerValue, ChainId, ResultValues, EvidenceValues];
    assert five[0] in five && five[1] in five && five[2] in five && five[3] in five && five[4] in five;
  }

  // ---------------------------------------------------------------- whether a check holds

  /** The replayed documents have the verified results under these identifiers, unchanged. */
  ghost predicate SameResults(ids: seq<Id>, docs: seq<Document>, replayed: seq<Document>)
  {
    forall id :: id in ids ==> exists x: ResultItem :: x.id == id && ResultIn(docs, x) && ResultIn(replayed, x)
  }

  ghost predicate SameEvidence(ids: seq<Id>, docs: seq<Document>, replayed: seq<Document>)
  {
    forall id :: id in ids ==> exists x: Evidence :: x.id == id && EvidenceIn(docs, x) && EvidenceIn(replayed, x)
  }

  /** The last replayed document of this run's analysis is on the run's chain. */
  ghost predicate SameChain(r: EvidenceRun, replayed: seq<Document>)
  {
    exists k :: 0 <= k < |replayed| && LastOf(replayed, k) && replayed[k].analysis == r.result.analysis && replayed[k].chain == r.result.chain
  }

  predicate LastOf(replayed: seq<Document>, k: nat)
    requires k < |replayed|
  {
    forall m :: k < m < |replayed| ==> replayed[m].analysis != replayed[k].analysis
  }

  ghost predicate Holds(check: Check, v: Verify, replayed: seq<Document>)
  {
    var c, docs := v.candidate, Results(v.scope.runs);
    match check
    case AnswerFormat => c.format == v.scope.problem.format
    case AnswerValue => c.results != [] && exists selected :: Selects(replayed, c.results, selected) && CandidateLaws.Says(c.answer, selected)
    case ChainId => forall i :: 0 <= i < |v.scope.runs| ==> SameChain(v.scope.runs[i], replayed)
    case EvidenceValues => SameEvidence(c.evidence, docs, replayed)
    case TransactionCheck => SameEvidence(c.evidence, docs, replayed)
    case IndependentReplay => false
    case _ => SameResults(c.results, docs, replayed)
  }

  lemma SameResultsIff(ids: seq<Id>, docs: seq<Document>, replayed: seq<Document>)
    requires MapsOf(docs).Some? && MapsOf(replayed).Some?
    ensures SameRecords(ids, MapsOf(docs).value.results, MapsOf(replayed).value.results) <==> SameResults(ids, docs, replayed)
  {
    MapsHold(docs);
    MapsHold(replayed);
    hide MapsOf, ResultIn;
    var a, b := MapsOf(docs).value.results, MapsOf(replayed).value.results;
    if SameRecords(ids, a, b) {
      forall id | id in ids ensures exists x: ResultItem :: x.id == id && ResultIn(docs, x) && ResultIn(replayed, x) {
        assert a[id].id == id && ResultIn(docs, a[id]) && ResultIn(replayed, b[id]);
      }
    }
  }

  lemma SameEvidenceIff(ids: seq<Id>, docs: seq<Document>, replayed: seq<Document>)
    requires MapsOf(docs).Some? && MapsOf(replayed).Some?
    ensures SameRecords(ids, MapsOf(docs).value.evidence, MapsOf(replayed).value.evidence) <==> SameEvidence(ids, docs, replayed)
  {
    MapsHold(docs);
    MapsHold(replayed);
    hide MapsOf, EvidenceIn;
    var a, b := MapsOf(docs).value.evidence, MapsOf(replayed).value.evidence;
    if SameRecords(ids, a, b) {
      forall id | id in ids ensures exists x: Evidence :: x.id == id && EvidenceIn(docs, x) && EvidenceIn(replayed, x) {
        assert a[id].id == id && EvidenceIn(docs, a[id]) && EvidenceIn(replayed, b[id]);
      }
    }
  }

  lemma {:induction false} ByAnalysisIs(docs: seq<Document>, id: Id)
    ensures id in ByAnalysis(docs) <==> exists k :: 0 <= k < |docs| && docs[k].analysis == id
    ensures id in ByAnalysis(docs) ==> exists k :: 0 <= k < |docs| && LastOf(docs, k) && docs[k].analysis == id && docs[k] == ByAnalysis(docs)[id]
  {
    if docs != [] {
      var n := |docs| - 1;
      ByAnalysisIs(docs[..n], id);
      if docs[n].analysis == id {
        assert LastOf(docs, n);
      } else if id in ByAnalysis(docs) {
        var k :| 0 <= k < n && LastOf(docs[..n], k) && docs[..n][k].analysis == id && docs[..n][k] == ByAnalysis(docs[..n])[id];
        assert LastOf(docs, k);
      }
      if k :| 0 <= k < |docs| && docs[k].analysis == id {
        assert k < n ==> docs[..n][k].analysis == id;
      }
    }
  }

  lemma ChainIff(r: EvidenceRun, replayed: seq<Document>)
    ensures ChainAgrees(r, ByAnalysis(replayed)) <==> SameChain(r, replayed)
  {
    ByAnalysisIs(replayed, r.result.analysis);
    hide ByAnalysis;
  }

  lemma AnswerIff(c: Candidate, replayed: seq<Document>)
    requires MapsOf(replayed).Some?
    ensures var m := MapsOf(replayed).value.results;
      (AllIn(c.results, m) && c.answer == CanonicalAnswer(Pick(m, c.results)))
      <==> exists selected :: Selects(replayed, c.results, selected) && CandidateLaws.Says(c.answer, selected)
  {
    MapsHold(replayed);
    hide MapsOf, ResultIn, CandidateLaws.Says, CanonicalAnswer;
    var m := MapsOf(replayed).value.results;
    if AllIn(c.results, m) {
      PickSelects(replayed, c.results);
      SaysIff(c.answer, Pick(m, c.results));
    }
    if selected :| Selects(replayed, c.results, selected) && CandidateLaws.Says(c.answer, selected) {
      OnlySelection(replayed, c.results, selected);
      SaysIff(c.answer, selected);
    }
  }

  /** A selection by identifiers is the lookup's. */
  lemma OnlySelection(docs: seq<Document>, ids: seq<Id>, selected: seq<ResultItem>)
    requires MapsOf(docs).Some? && Selects(docs, ids, selected)
    ensures AllIn(ids, MapsOf(docs).value.results) && selected == Pick(MapsOf(docs).value.results, ids)
  {
    MapsHold(docs);
    hide MapsOf, ResultIn;
    var m := MapsOf(docs).value.results;
    forall i | 0 <= i < |ids| ensures ids[i] in m && m[ids[i]] == selected[i] {
      assert ResultIn(docs, selected[i]);
    }
  }

  lemma HoldsIff(check: Check, v: Verify, replayed: seq<Document>)
    requires MapsOf(Results(v.scope.runs)).Some? && MapsOf(replayed).Some?
    ensures BasePass(v, MapsOf(Results(v.scope.runs)).value, MapsOf(replayed).value, replayed, check) <==> Holds(check, v, replayed)
  {
    hide MapsOf, SameRecords, SameResults, SameEvidence, SameChain, ChainAgrees, Selects, CandidateLaws.Says, CanonicalAnswer, Pick, ByAnalysis;
    var c := v.candidate;
    SameResultsIff(c.results, Results(v.scope.runs), replayed);
    SameEvidenceIff(c.evidence, Results(v.scope.runs), replayed);
    AnswerIff(c, replayed);
    forall i | 0 <= i < |v.scope.runs| ensures ChainAgrees(v.scope.runs[i], ByAnalysis(replayed)) <==> SameChain(v.scope.runs[i], replayed) {
      ChainIff(v.scope.runs[i], replayed);
    }
  }

  // ---------------------------------------------------------------- the verification record

  /** Which outcome a verification has once its policy holds: the candidate must be within the runs; no
      record can repeat evidence; and the replayed documents must not repeat identifiers. */
  lemma VerifyOutcome(v: Verify, replies: nat -> Reply)
    requires !VerifyCandidate(v, replies).PolicyRejected?
    ensures VerifyCandidate(v, replies).ScopeRejected? <==> !Within(v.candidate, Results(v.scope.runs))
    ensures Within(v.candidate, Results(v.scope.runs)) ==>
      (VerifyCandidate(v, replies).Raised? <==>
        !NoRepeats(v.candidate.evidence)
        || (ReplayRuns(v.scope.runs, replies).AllReplayed? && !OneOfEach(ReplayRuns(v.scope.runs, replies).docs)))
  {
    hide VerifyPolicy, Within, OneOfEach, ReplayRuns, RecordVerification, IncompleteVerification, MapsOf;
    InScopeIff(v.candidate, v.scope.runs);
    hide InScope;
    if ReplayRuns(v.scope.runs, replies).AllReplayed? {
      MapsHold(ReplayRuns(v.scope.runs, replies).docs);
    }
  }

  /** The record is the verifier's, about this candidate, and independent of its author and of the jobs
      its evidence comes from. */
  predicate IsRecordOf(v: Verify, x: Verification)
  {
    && x.id == v.id && x.problem == v.scope.problem.id && x.candidate == v.candidate.id && x.verifier == v.verifier.id
    && NoRepeats(x.independent)
    && v.scope.reporter.id in x.independent && (forall i :: 0 <= i < |v.scope.runs| ==> v.scope.runs[i].job.id in x.independent)
    && forall id :: id in x.independent ==> id == v.scope.reporter.id || exists i :: 0 <= i < |v.scope.runs| && v.scope.runs[i].job.id == id
  }

  lemma IndependentIs(v: Verify)
    ensures NoRepeats(IndependentJobs(v)) && v.scope.reporter.id in IndependentJobs(v)
    ensures forall i :: 0 <= i < |v.scope.runs| ==> v.scope.runs[i].job.id in IndependentJobs(v)
    ensures forall id :: id in IndependentJobs(v) ==> id == v.scope.reporter.id || exists i :: 0 <= i < |v.scope.runs| && v.scope.runs[i].job.id == id
  {
    hide Dedup;
    var ids := [v.scope.reporter.id] + JobIds(v.scope.runs);
    assert ids[0] == v.scope.reporter.id;
    forall i | 0 <= i < |v.scope.runs| ensures v.scope.runs[i].job.id in ids {
      assert ids[i + 1] == v.scope.runs[i].job.id;
    }
    forall id | id in ids ensures id == v.scope.reporter.id || exists i :: 0 <= i < |v.scope.runs| && v.scope.runs[i].job.id == id {
      var k :| 0 <= k < |ids| && ids[k] == id;
      assert k > 0 ==> v.scope.runs[k - 1].job.id == id;
    }
  }

  lemma RecordedIsOf(v: Verify, replies: nat -> Reply)
    requires VerifyCandidate(v, replies).Done?
    ensures IsRecordOf(v, VerifyCandidate(v, replies).value)
  {
    IndependentIs(v);
    hide VerifyPolicy, InScope, ReplayRuns, MapsOf, RequiredChecks, BasePass, Conflicts, MissingEvidence, IndependentJobs;
  }

  lemma {:induction false} MissingMembers(ids: seq<Id>, replay: map<Id, Evidence>, id: Id)
    ensures id in MissingEvidence(ids, replay) <==> id in ids && id !in replay
  {
    if ids != [] {
      MissingMembers(ids[..|ids| - 1], replay, id);
      assert ids == ids[..|ids| - 1] + [ids[|ids| - 1]];
    }
  }

  lemma {:induction false} ConflictMembers(v: Verify, original: Maps, replay: Maps, docs: seq<Document>, required: seq<Check>, missing: seq<Id>, check: Check)
    ensures check in Conflicts(v, original, replay, docs, required, missing)
      <==> check in required && !BasePass(v, original, replay, docs, check) && !(check == EvidenceValues && missing != [])
  {
    hide BasePass;
    if required != [] {
      var n := |required| - 1;
      ConflictMembers(v, original, replay, docs, required[..n], missing, check);
      assert required == required[..n] + [required[n]];
    }
  }

  /** A replay that does not come through leaves everything cited as missing and no check made. */
  predicate SaysNothing(v: Verify, x: Verification)
  {
    && x.status == Incomplete && x.required == [IndependentReplay] && x.checks == [] && x.conflicts == [] && x.missing == v.candidate.evidence
  }

  /** The checks that the selection needs, each with whether it holds against the replayed documents and
      with all the candidate refers to; the cited evidence that was not found again; the checks that do
      not hold; and what follows from these. */
  ghost predicate SaysAll(v: Verify, replayed: seq<Document>, selected: seq<ResultItem>, cited: seq<Evidence>, x: Verification)
  {
    && Selects(Results(v.scope.runs), v.candidate.results, selected) && Cites(Results(v.scope.runs), v.candidate.evidence, cited)
    && (forall check :: check in x.required <==> Needs(check, selected, cited))
    && |x.checks| == |x.required| && (forall i :: 0 <= i < |x.checks| ==> ChecksOff(v, replayed, x.required[i], x.checks[i]))
    && (forall id :: id in x.missing <==> id in v.candidate.evidence && !KnowsEvidence(replayed, id))
    && (forall check :: check in x.conflicts <==>
          Needs(check, selected, cited) && !Holds(check, v, replayed) && (check == EvidenceValues ==> x.missing == []))
    && (x.status == Incomplete <==> x.missing != [])
    && (x.status == Pass <==> x.missing == [] && forall check :: Needs(check, selected, cited) ==> Holds(check, v, replayed))
  }

  ghost predicate ChecksOff(v: Verify, replayed: seq<Document>, check: Check, r: CheckResult)
  {
    r.check == check && (r.passed <==> Holds(check, v, replayed)) && r.results == v.candidate.results && r.evidence == v.candidate.evidence
  }

  ghost predicate Cites(docs: seq<Document>, ids: seq<Id>, cited: seq<Evidence>)
  {
    |cited| == |ids| && forall i :: 0 <= i < |ids| ==> cited[i].id == ids[i] && EvidenceIn(docs, cited[i])
  }

  lemma PickCites(docs: seq<Document>, ids: seq<Id>)
    requires MapsOf(docs).Some? && AllIn(ids, MapsOf(docs).value.evidence)
    ensures Cites(docs, ids, Pick(MapsOf(docs).value.evidence, ids))
  {
    MapsHold(docs);
    hide MapsOf, EvidenceIn;
    forall i | 0 <= i < |ids| ensures ids[i] in MapsOf(docs).value.evidence {
      assert ids[i] in ids;
    }
  }

  lemma RecordSaysAll(v: Verify, replayed: seq<Document>)
    requires InScope(v.candidate, v.scope.runs) && MapsOf(replayed).Some?
    ensures var original := MapsOf(Results(v.scope.runs)).value;
      SaysAll(v, replayed, Pick(original.results, v.candidate.results), Pick(original.evidence, v.candidate.evidence),
              RecordVerification(v, original, MapsOf(replayed).value, replayed))
  {
    hide MapsOf, RequiredChecks, BasePass, Holds, Needs, Conflicts, MissingEvidence, IndependentJobs, KnowsEvidence, AllPass, RecordVerification, Cites, Selects;
    var original, replay := MapsOf(Results(v.scope.runs)).value, MapsOf(replayed).value;
    var selected, cited := Pick(original.results, v.candidate.results), Pick(original.evidence, v.candidate.evidence);
    var x := RecordVerification(v, original, replay, replayed);
    PickSelects(Results(v.scope.runs), v.candidate.results);
    PickCites(Results(v.scope.runs), v.candidate.evidence);
    StatusSays(v, original, replay, replayed);
    PassIffChecks(v, original, replay, replayed);
    ChecksListed(v, original, replay, replayed);
    MissingField(v, original, replay, replayed);
    RequiredField(v, original, replay, replayed);
    forall check ensures (check in x.required <==> Needs(check, selected, cited))
                      && (BasePass(v, original, replay, replayed, check) <==> Holds(check, v, replayed)) {
      NeedsIff(selected, cited, check);
      HoldsIff(check, v, replayed);
    }
    forall id ensures id in x.missing <==> id in v.candidate.evidence && !KnowsEvidence(replayed, id) {
      MissingMembers(v.candidate.evidence, replay.evidence, id);
      MapsKnow(replayed, id);
    }
    forall check ensures check in x.conflicts <==> check in x.required && !Holds(check, v, replayed) && (check == EvidenceValues ==> x.missing == []) {
      ConflictMembers(v, original, replay, replayed, x.required, x.missing, check);
    }
    PassMeansAll(v, replayed, x);
  }

  lemma RequiredField(v: Verify, original: Maps, replay: Maps, docs: seq<Document>)
    requires AllIn(v.candidate.results, original.results) && AllIn(v.candidate.evidence, original.evidence)
    ensures RecordVerification(v, original, replay, docs).required
      == RequiredChecks(Pick(original.results, v.candidate.results), Pick(original.evidence, v.candidate.evidence))
  {
    hide RequiredChecks, BasePass, Conflicts, MissingEvidence, IndependentJobs;
  }

  lemma PassMeansAll(v: Verify, replayed: seq<Document>, x: Verification)
    requires |x.checks| == |x.required|
    requires forall i :: 0 <= i < |x.checks| ==> x.checks[i].passed == Holds(x.required[i], v, replayed)
    ensures (forall check :: check in x.required ==> Holds(check, v, replayed)) <==> forall i :: 0 <= i < |x.checks| ==> x.checks[i].passed
    ensures (exists check :: check in x.required && !Holds(check, v, replayed)) <==> !forall i :: 0 <= i < |x.checks| ==> x.checks[i].passed
  {
    hide Holds;
    if check :| check in x.required && !Holds(check, v, replayed) {
      var i :| 0 <= i < |x.required| && x.required[i] == check;
      assert !x.checks[i].passed;
    }
  }

  /** What a recorded verification says. */
  lemma VerificationSays(v: Verify, replies: nat -> Reply) returns (selected: seq<ResultItem>, cited: seq<Evidence>)
    requires VerifyCandidate(v, replies).Done?
    ensures IsRecordOf(v, VerifyCandidate(v, replies).value)
    ensures var replay := ReplayRuns(v.scope.runs, replies);
      if replay.AllReplayed? then SaysAll(v, replay.docs, selected, cited, VerifyCandidate(v, replies).value)
      else SaysNothing(v, VerifyCandidate(v, replies).value)
  {
    hide SaysAll, RecordVerification, VerifyPolicy, MapsOf, ReplayRuns;
    RecordedIsOf(v, replies);
    var replay, original := ReplayRuns(v.scope.runs, replies), MapsOf(Results(v.scope.runs)).value;
    selected, cited := Pick(original.results, v.candidate.results), Pick(original.evidence, v.candidate.evidence);
    if replay.AllReplayed? {
      RecordSaysAll(v, replay.docs);
    }
  }

  // ---------------------------------------------------------------- promotion

  /** The candidate is unchanged but for its status, what verified it, and whether to submit it. */
  ghost predicate Decides(p: Promotion, ready: bool, c: Candidate)
  {
    && c.id == p.candidate.id && c.problem == p.candidate.problem && c.format == p.candidate.format && c.answer == p.candidate.answer
    && c.results == p.candidate.results && c.evidence == p.candidate.evidence && c.uncertainties == p.candidate.uncertainties
    && c.creator == p.candidate.creator
    && c.status == (if ready then SubmissionReady else ReviewRequired) && c.submit == ready
    && NoRepeats(c.verifications) && (forall id :: id in c.verifications <==> id in p.candidate.verifications || id == p.verification.id)
  }

  /** Passed checks of the verification list everything the candidate refers to, and are those its
      selection needs. */
  ghost predicate Vouched(p: Promotion, selected: seq<ResultItem>, cited: seq<Evidence>)
  {
    var checks := p.verification.checks;
    && (forall id :: id in p.candidate.results ==> exists i :: 0 <= i < |checks| && checks[i].passed && id in checks[i].results)
    && (forall id :: id in p.candidate.evidence ==> exists i :: 0 <= i < |checks| && checks[i].passed && id in checks[i].evidence)
    && (forall check :: Needs(check, selected, cited) ==> exists i :: 0 <= i < |checks| && checks[i].passed && checks[i].check == check)
  }

  /** What the gate wants of a candidate it makes ready. */
  ghost predicate Deserves(p: Promotion, selected: seq<ResultItem>, cited: seq<Evidence>)
  {
    && p.verification.status == Pass && p.candidate.uncertainties == []
    && (forall i :: 0 <= i < |p.runs| ==> p.runs[i].job.status == JobComplete && p.runs[i].result.status == AnalysisComplete)
    && (forall i :: 0 <= i < |p.runs| ==> p.runs[i].job.id in p.verification.independent)
    && Vouched(p, selected, cited)
    && CandidateLaws.Says(p.candidate.answer, selected) && forall i :: 0 <= i < |selected| ==> selected[i].classification == ConfirmedFact
  }

  lemma CoversIff(p: Promotion, selected: seq<ResultItem>, cited: seq<Evidence>)
    ensures Covers(p.verification, p.candidate) && RequiredPassed(p.verification, RequiredChecks(selected, cited)) <==> Vouched(p, selected, cited)
  {
    hide RequiredChecks, Needs;
    var required := RequiredChecks(selected, cited);
    forall check ensures check in required <==> Needs(check, selected, cited) {
      NeedsIff(selected, cited, check);
    }
    CoverageIff(p);
    PassedIff(p.verification, required);
    hide Covers, RequiredPassed;
  }

  lemma CoverageIff(p: Promotion)
    ensures var checks := p.verification.checks;
      Covers(p.verification, p.candidate) <==>
      && (forall id :: id in p.candidate.results ==> exists i :: 0 <= i < |checks| && checks[i].passed && id in checks[i].results)
      && (forall id :: id in p.candidate.evidence ==> exists i :: 0 <= i < |checks| && checks[i].passed && id in checks[i].evidence)
  {
    forall id ensures ResultCovered(p.verification, id)
      <==> exists i :: 0 <= i < |p.verification.checks| && p.verification.checks[i].passed && id in p.verification.checks[i].results {
    }
    forall id ensures EvidenceCovered(p.verification, id)
      <==> exists i :: 0 <= i < |p.verification.checks| && p.verification.checks[i].passed && id in p.verification.checks[i].evidence {
    }
    hide ResultCovered, EvidenceCovered;
  }

  lemma PassedIff(x: Verification, required: seq<Check>)
    ensures RequiredPassed(x, required)
      <==> forall check :: check in required ==> exists i :: 0 <= i < |x.checks| && x.checks[i].passed && x.checks[i].check == check
  {
    forall check ensures CheckPassed(x, check) <==> exists i :: 0 <= i < |x.checks| && x.checks[i].passed && x.checks[i].check == check {
    }
    hide CheckPassed;
    assert forall i :: 0 <= i < |required| ==> required[i] in required;
    if RequiredPassed(x, required) {
      forall check | check in required ensures CheckPassed(x, check) {
        var i :| 0 <= i < |required| && required[i] == check;
      }
    }
  }

  lemma ConfirmedIff(docs: seq<Document>, ids: seq<Id>)
    requires MapsOf(docs).Some? && AllIn(ids, MapsOf(docs).value.results)
    ensures var m := MapsOf(docs).value.results;
      Confirmed(m, ids) <==> forall i :: 0 <= i < |ids| ==> Pick(m, ids)[i].classification == ConfirmedFact
  {
    hide MapsOf;
    var m := MapsOf(docs).value.results;
    if forall i :: 0 <= i < |ids| ==> Pick(m, ids)[i].classification == ConfirmedFact {
      forall id | id in ids ensures m[id].classification == ConfirmedFact {
        var i :| 0 <= i < |ids| && ids[i] == id;
        assert Pick(m, ids)[i] == m[id];
      }
    }
  }

  lemma ReadyIff(p: Promotion)
    requires InScope(p.candidate, p.runs) && p.reporter.id in p.verification.independent
    ensures var maps := MapsOf(Results(p.runs)).value;
      Ready(p) <==> Deserves(p, Pick(maps.results, p.candidate.results), Pick(maps.evidence, p.candidate.evidence))
  {
    hide MapsOf, Covers, RequiredPassed, RequiredChecks, Vouched, CandidateLaws.Says, CanonicalAnswer;
    var maps := MapsOf(Results(p.runs)).value;
    var selected, cited := Pick(maps.results, p.candidate.results), Pick(maps.evidence, p.candidate.evidence);
    CoversIff(p, selected, cited);
    SaysIff(p.candidate.answer, selected);
    ConfirmedIff(Results(p.runs), p.candidate.results);
    hide Confirmed;
  }

  /** What the gate makes of a promotion whose policy holds. The candidate must be within the runs and
      repeat neither evidence nor uncertainties; then it is made ready exactly when it deserves to be,
      and sent to review otherwise. A deserving candidate without results or evidence is no record. */
  lemma PromotionDecides(p: Promotion) returns (selected: seq<ResultItem>, cited: seq<Evidence>)
    requires !Promote(p).PolicyRejected?
    ensures Promote(p).ScopeRejected? <==> !Within(p.candidate, Results(p.runs))
    ensures Within(p.candidate, Results(p.runs)) ==>
      && Selects(Results(p.runs), p.candidate.results, selected) && Cites(Results(p.runs), p.candidate.evidence, cited)
      && (Promote(p).Raised? <==> !NoRepeats(p.candidate.evidence) || !NoRepeats(p.candidate.uncertainties)
                                  || (Deserves(p, selected, cited) && (p.candidate.results == [] || p.candidate.evidence == [])))
      && (Promote(p).Done? ==> Decides(p, Deserves(p, selected, cited), Promote(p).value))
  {
    hide MapsOf, Ready, Within, Deserves, Cites, Selects, RunsPolicy;
    InScopeIff(p.candidate, p.runs);
    selected, cited := [], [];
    if InScope(p.candidate, p.runs) {
      var maps := MapsOf(Results(p.runs)).value;
      ReadyIff(p);
      PickSelects(Results(p.runs), p.candidate.results);
      PickCites(Results(p.runs), p.candidate.evidence);
      selected, cited := Pick(maps.results, p.candidate.results), Pick(maps.evidence, p.candidate.evidence);
      if Promote(p).Done? {
        DecidedFields(p);
      }
    }
  }

  lemma DecidedFields(p: Promotion)
    requires PromotionPolicy(p) && InScope(p.candidate, p.runs) && Promote(p).Done?
    ensures Decides(p, Ready(p), Promote(p).value)
  {
    hide Ready, PromotionPolicy, InScope;
    var ids := p.candidate.verifications + [p.verification.id];
    assert forall id :: id in ids <==> id in p.candidate.verifications || id == p.verification.id;
    hide Dedup;
  }

  /** A job that is not complete, or an analysis that is not, sends the candidate to review, whatever the
      verification says. */
  lemma PartialIsReviewed(p: Promotion, i: nat)
    requires Promote(p).Done? && i < |p.runs|
    requires p.runs[i].job.status == JobPartial || p.runs[i].result.status == AnalysisPartial
    ensures Promote(p).value.status == ReviewRequired && !Promote(p).value.submit
  {
    hide Promote, Vouched, Selects, Cites, Within;
    var selected, cited := PromotionDecides(p);
  }
}
