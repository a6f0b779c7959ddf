/** What building, verifying and promoting ask and record, in the records' own fields
    (src/scan_tool/application/candidate_verifier.py:126-872). */
module CandidateLaws {
  import opened Basics
  import opened CandidateModel
  import opened CandidateVerifier
  import opened CandidatePromotion
  import opened CandidateEdits

  // ---------------------------------------------------------------- who may ask

  /** The competition runs, and the problem, its plan and the competition belong together. */
  predicate InPlay(s: Scope)
  {
    && s.manifest.active && s.problem.competition == s.manifest.id
    && s.problem.status in {Running, Partial, Verifying, ProblemReview}
    && s.plan.approved && s.plan.id == s.problem.plan && s.plan.problem == s.problem.id
  }

  /** A finished evidence job of this problem and plan, with its own analysis, which did not fail. */
  predicate IsEvidence(r: EvidenceRun, problem: Id, plan: Id)
  {
    && r.job.problem == problem && r.job.plan == plan && r.job.role == EvidenceRole
    && r.job.status in {JobComplete, JobPartial}
    && r.job.analysis == Some(r.request) && r.result.analysis == r.request
    && r.result.status in {AnalysisComplete, AnalysisPartial}
  }

  predicate Evidenced(runs: seq<EvidenceRun>, problem: Id, plan: Id)
  {
    |runs| > 0 && forall i :: 0 <= i < |runs| ==> IsEvidence(runs[i], problem, plan)
  }

  lemma BuildAsks(b: Build)
    ensures BuildCandidate(b).PolicyRejected? <==>
      !(&& InPlay(b.scope) && b.scope.reporter.role == Reporter && b.scope.reporter.status in {JobRunning, JobComplete}
        && |b.selected| > 0 && Evidenced(b.scope.runs, b.scope.problem.id, b.scope.plan.id))
  {
    hide MapsOf, Pick, Dedup, CitedEvidence, CanonicalAnswer;
    assert forall r: EvidenceRun :: r.result.status != AnalysisFailed <==> r.result.status in {AnalysisComplete, AnalysisPartial};
  }

  /** The candidate is open and of this problem; its author and the verifier are two jobs of one plan. */
  predicate MayVerify(v: Verify)
  {
    && v.candidate.status in {Draft, ReviewRequired}
    && v.scope.reporter.id == v.candidate.creator && v.scope.reporter.role == Reporter
    && v.verifier.role == Verifier && v.verifier.status in {JobQueued, JobRunning} && v.verifier.id != v.candidate.creator
    && (forall id :: id in [v.candidate.problem, v.scope.reporter.problem, v.verifier.problem] ==> id == v.scope.problem.id)
    && (forall id :: id in [v.scope.reporter.plan, v.verifier.plan] ==> id == v.scope.plan.id)
  }

  lemma VerifyAsks(v: Verify, replies: nat -> Reply)
    ensures VerifyCandidate(v, replies).PolicyRejected?
      <==> !(InPlay(v.scope) && MayVerify(v) && Evidenced(v.scope.runs, v.scope.problem.id, v.scope.plan.id))
  {
    hide MapsOf, ReplayRuns, RecordVerification, IncompleteVerification;
    var problems, plans := [v.candidate.problem, v.scope.reporter.problem, v.verifier.problem], [v.scope.reporter.plan, v.verifier.plan];
    assert problems[0] in problems && problems[1] in problems && problems[2] in problems && plans[0] in plans && plans[1] in plans;
  }

  predicate MayPromote(p: Promotion)
  {
    && p.manifest.active && p.problem.competition == p.manifest.id
    && p.candidate.status in {Draft, ReviewRequired} && p.verification.candidate == p.candidate.id
    && p.reporter.id == p.candidate.creator && p.reporter.role == Reporter && p.reporter.id in p.verification.independent
    && p.verifier.id == p.verification.verifier && p.verifier.role == Verifier && p.verifier.id != p.candidate.creator
    && (forall id :: id in [p.candidate.problem, p.verification.problem, p.reporter.problem, p.verifier.problem] ==> id == p.problem.id)
    && p.verifier.plan == p.reporter.plan
  }

  lemma PromotionAsks(p: Promotion)
    ensures Promote(p).PolicyRejected? <==> !(MayPromote(p) && Evidenced(p.runs, p.problem.id, p.reporter.plan))
  {
    hide InScope, Ready;
    var problems := [p.candidate.problem, p.verification.problem, p.reporter.problem, p.verifier.problem];
    assert problems[0] in problems && problems[1] in problems && problems[2] in problems && problems[3] in problems;
  }

  // ---------------------------------------------------------------- records of the analyses

  /** Some run's document has this result. */
  ghost predicate ResultIn(docs: seq<Document>, x: ResultItem)
  {
    exists k :: 0 <= k < |docs| && x in docs[k].results
  }

  ghost predicate EvidenceIn(docs: seq<Document>, x: Evidence)
  {
    exists k :: 0 <= k < |docs| && x in docs[k].evidence
  }

  lemma ResultInMore(docs: seq<Document>, x: ResultItem)
    requires docs != []
    ensures ResultIn(docs, x) <==> ResultIn(docs[..|docs| - 1], x) || x in docs[|docs| - 1].results
  {
    var n := |docs| - 1;
    assert forall k :: 0 <= k < n ==> docs[..n][k] == docs[k];
    if k :| 0 <= k < n && x in docs[..n][k].results {
      assert x in docs[k].results;
    }
  }

  lemma {:induction false} ResultsOf(docs: seq<Document>, x: ResultItem)
    ensures x in AllResults(docs) <==> ResultIn(docs, x)
  {
    if docs != [] {
      ResultsOf(docs[..|docs| - 1], x);
      ResultInMore(docs, x);
      hide ResultIn;
    }
  }

  lemma EvidenceInMore(docs: seq<Document>, x: Evidence)
    requires docs != []
    ensures EvidenceIn(docs, x) <==> EvidenceIn(docs[..|docs| - 1], x) || x in docs[|docs| - 1].evidence
  {
    var n := |docs| - 1;
    assert forall k :: 0 <= k < n ==> docs[..n][k] == docs[k];
    if k :| 0 <= k < n && x in docs[..n][k].evidence {
      assert x in docs[k].evidence;
    }
  }

  lemma {:induction false} EvidenceOf(docs: seq<Document>, x: Evidence)
    ensures x in AllEvidence(docs) <==> EvidenceIn(docs, x)
  {
    if docs != [] {
      EvidenceOf(docs[..|docs| - 1], x);
      EvidenceInMore(docs, x);
      hide EvidenceIn;
    }
  }

  /** No two results of all the runs share an identifier, and no two pieces of evidence do. */
  ghost predicate OneOfEach(docs: seq<Document>)
  {
    UniqueBy(AllResults(docs), ResultId) && UniqueBy(AllEvidence(docs), EvidenceId)
  }

  ghost predicate ResultsHeld(docs: seq<Document>, m: map<Id, ResultItem>)
  {
    && (forall x :: ResultIn(docs, x) ==> x.id in m && m[x.id] == x)
    && (forall id :: id in m ==> m[id].id == id && ResultIn(docs, m[id]))
  }

  ghost predicate EvidenceHeld(docs: seq<Document>, m: map<Id, Evidence>)
  {
    && (forall x :: EvidenceIn(docs, x) ==> x.id in m && m[x.id] == x)
    && (forall id :: id in m ==> m[id].id == id && EvidenceIn(docs, m[id]))
  }

  /** The lookups exist exactly without repeats, and hold the records of the runs under their identifiers. */
  lemma MapsHold(docs: seq<Document>)
    ensures MapsOf(docs).Some? <==> OneOfEach(docs)
    ensures MapsOf(docs).Some? ==>
      ResultsHeld(docs, MapsOf(docs).value.results) && EvidenceHeld(docs, MapsOf(docs).value.evidence)
  {
    var rs, es := AllResults(docs), AllEvidence(docs);
    IndexMeaning(rs, ResultId);
    IndexMeaning(es, EvidenceId);
    if OneOfEach(docs) {
      ResultsHeldBy(docs, rs);
      EvidenceHeldBy(docs, es);
    }
  }

  lemma ResultsHeldBy(docs: seq<Document>, rs: seq<ResultItem>)
    requires rs == AllResults(docs) && Index(rs, ResultId).Some?
    ensures ResultsHeld(docs, Index(rs, ResultId).value)
  {
    IndexMeaning(rs, ResultId);
    hide Index, ResultIn, AllResults;
    var m := Index(rs, ResultId).value;
    forall x | ResultIn(docs, x) ensures x.id in m && m[x.id] == x {
      ResultsOf(docs, x);
      assert ResultId(x) == x.id;
    }
    forall id | id in m ensures m[id].id == id && ResultIn(docs, m[id]) {
      assert ResultId(m[id]) == id;
      ResultsOf(docs, m[id]);
    }
  }

  lemma EvidenceHeldBy(docs: seq<Document>, es: seq<Evidence>)
    requires es == AllEvidence(docs) && Index(es, EvidenceId).Some?
    ensures EvidenceHeld(docs, Index(es, EvidenceId).value)
  {
    IndexMeaning(es, EvidenceId);
    hide Index, EvidenceIn, AllEvidence;
    var m := Index(es, EvidenceId).value;
    forall x | EvidenceIn(docs, x) ensures x.id in m && m[x.id] == x {
      EvidenceOf(docs, x);
      assert EvidenceId(x) == x.id;
    }
    forall id | id in m ensures m[id].id == id && EvidenceIn(docs, m[id]) {
      assert EvidenceId(m[id]) == id;
      EvidenceOf(docs, m[id]);
    }
  }

  // ---------------------------------------------------------------- selections

  ghost predicate KnowsResult(docs: seq<Document>, id: Id)
  {
    exists x :: ResultIn(docs, x) && x.id == id
  }

  ghost predicate KnowsEvidence(docs: seq<Document>, id: Id)
  {
    exists x :: EvidenceIn(docs, x) && x.id == id
  }

  lemma MapsKnow(docs: seq<Document>, id: Id)
    requires MapsOf(docs).Some?
    ensures id in MapsOf(docs).value.results <==> KnowsResult(docs, id)
    ensures id in MapsOf(docs).value.evidence <==> KnowsEvidence(docs, id)
  {
    MapsHold(docs);
    hide MapsOf, Results, ResultIn, EvidenceIn;
    var m := MapsOf(docs).value;
    if id in m.results { assert m.results[id].id == id; }
    if id in m.evidence { assert m.evidence[id].id == id; }
  }

  /** The documents hold every record once, and the candidate names, each result once, only these. */
  ghost predicate Within(c: Candidate, docs: seq<Document>)
  {
    && OneOfEach(docs) && NoRepeats(c.results)
    && (forall id :: id in c.results ==> KnowsResult(docs, id)) && (forall id :: id in c.evidence ==> KnowsEvidence(docs, id))
  }

  lemma InScopeIff(c: Candidate, runs: seq<EvidenceRun>)
    ensures InScope(c, runs) <==> Within(c, Results(runs))
  {
    var docs := Results(runs);
    MapsHold(docs);
    hide MapsOf, OneOfEach, KnowsResult, KnowsEvidence;
    if MapsOf(docs).Some? {
      forall id ensures (id in MapsOf(docs).value.results <==> KnowsResult(docs, id))
                     && (id in MapsOf(docs).value.evidence <==> KnowsEvidence(docs, id)) {
        MapsKnow(docs, id);
      }
    }
  }

  /** `selected` are the runs' results under these identifiers, in this order. */
  ghost predicate Selects(docs: seq<Document>, ids: seq<Id>, selected: seq<ResultItem>)
  {
    |selected| == |ids| && forall i :: 0 <= i < |ids| ==> selected[i].id == ids[i] && ResultIn(docs, selected[i])
  }

  lemma PickSelects(docs: seq<Document>, ids: seq<Id>)
    requires MapsOf(docs).Some? && AllIn(ids, MapsOf(docs).value.results)
    ensures Selects(docs, ids, Pick(MapsOf(docs).value.results, ids))
  {
    MapsHold(docs);
    hide MapsOf, Results, ResultIn;
    forall i | 0 <= i < |ids| ensures ids[i] in MapsOf(docs).value.results {
      assert ids[i] in ids;
    }
  }

  /** The answer gives identifier, kind and value of each of these results, in order. */
  predicate Says(a: Answer, selected: seq<ResultItem>)
  {
    a.Canonical? && |a.items| == |selected|
    && forall i :: 0 <= i < |selected| ==> a.items[i].id == selected[i].id && a.items[i].kind == selected[i].kind && a.items[i].value == selected[i].value
  }

  lemma SaysIff(a: Answer, selected: seq<ResultItem>)
    ensures a == CanonicalAnswer(selected) <==> Says(a, selected)
  {
    if Says(a, selected) {
      assert a.items == CanonicalAnswer(selected).items;
    }
  }

  // ---------------------------------------------------------------- build

  /** Evidence that some selected result cites. */
  ghost predicate Cited(docs: seq<Document>, ids: seq<Id>, e: Id)
  {
    exists x :: ResultIn(docs, x) && x.id in ids && e in x.evidence
  }

  lemma CitedIff(docs: seq<Document>, ids: seq<Id>, e: Id)
    requires MapsOf(docs).Some? && AllIn(ids, MapsOf(docs).value.results)
    ensures e in CitedEvidence(Pick(MapsOf(docs).value.results, ids)) <==> Cited(docs, ids, e)
  {
    MapsHold(docs);
    var m := MapsOf(docs).value.results;
    var selected := Pick(m, ids);
    CitedBySome(selected, e);
    hide MapsOf, Results, ResultIn, CitedEvidence;
    if r :| r in selected && e in r.evidence {
      var i :| 0 <= i < |selected| && selected[i] == r;
      assert ids[i] in ids && m[ids[i]].id == ids[i];
    }
    if x :| ResultIn(docs, x) && x.id in ids && e in x.evidence {
      var i :| 0 <= i < |ids| && ids[i] == x.id;
      assert selected[i] == x;
    }
  }

  /** What the selection needs of the analyses. */
  ghost predicate CanBuild(b: Build)
  {
    var docs := Results(b.scope.runs);
    && OneOfEach(docs) && NoRepeats(b.selected) && (forall id :: id in b.selected ==> KnowsResult(docs, id))
    && (forall e :: Cited(docs, b.selected, e) ==> KnowsEvidence(docs, e)) && (exists e :: Cited(docs, b.selected, e))
    && NoRepeats(b.uncertainties)
  }

  lemma BuiltIff(b: Build)
    requires !BuildCandidate(b).PolicyRejected?
    ensures BuildCandidate(b).Done? <==> CanBuild(b)
    ensures !BuildCandidate(b).Done? ==> BuildCandidate(b).ScopeRejected?
  {
    hide MapsOf, BuildPolicy, OneOfEach, KnowsResult, KnowsEvidence, Cited, Pick, CitedEvidence, CanonicalAnswer;
    var docs := Results(b.scope.runs);
    MapsHold(docs);
    if MapsOf(docs).Some? {
      var m := MapsOf(docs).value;
      forall id ensures (id in m.results <==> KnowsResult(docs, id)) && (id in m.evidence <==> KnowsEvidence(docs, id)) {
        MapsKnow(docs, id);
      }
      if AllIn(b.selected, m.results) {
        var cited := CitedEvidence(Pick(m.results, b.selected));
        forall e ensures e in cited <==> Cited(docs, b.selected, e) {
          CitedIff(docs, b.selected, e);
        }
        SomeMember(Dedup(cited));
        hide Dedup;
      }
    }
  }

  lemma SomeMember(s: seq<Id>)
    ensures s == [] <==> forall x :: x !in s
  {
    if s != [] {
      assert s[0] in s;
    }
  }

  /** A built candidate is a draft of its problem and author; it selects what was asked, answers with
      exactly these results, and cites exactly their evidence, each once. */
  lemma BuiltFields(b: Build) returns (selected: seq<ResultItem>)
    requires BuildCandidate(b).Done?
    ensures var c := BuildCandidate(b).value;
      && c.id == b.id && c.problem == b.scope.problem.id && c.format == b.scope.problem.format && c.creator == b.scope.reporter.id
      && c.status == Draft && c.verifications == [] && !c.submit && c.uncertainties == b.uncertainties && c.results == b.selected
      && Selects(Results(b.scope.runs), b.selected, selected) && Says(c.answer, selected)
      && NoRepeats(c.evidence) && (forall e :: e in c.evidence <==> Cited(Results(b.scope.runs), b.selected, e))
      && (forall id :: id in c.results ==> KnowsResult(Results(b.scope.runs), id)) && (forall id :: id in c.evidence ==> KnowsEvidence(Results(b.scope.runs), id))
  {
    hide MapsOf, BuildPolicy, KnowsResult, KnowsEvidence, Cited, CitedEvidence, CanonicalAnswer, Says, Selects;
    var docs := Results(b.scope.runs);
    var m := MapsOf(docs).value;
    selected := Pick(m.results, b.selected);
    PickSelects(docs, b.selected);
    SaysIff(BuildCandidate(b).value.answer, selected);
    forall e ensures e in CitedEvidence(selected) <==> Cited(docs, b.selected, e) {
      CitedIff(docs, b.selected, e);
    }
    hide Dedup;
    forall id ensures (id in m.results <==> KnowsResult(docs, id)) && (id in m.evidence <==> KnowsEvidence(docs, id)) {
      MapsKnow(docs, id);
    }
  }

  /** Evidence is cited in the order of its first mention. */
  lemma {:induction false} DedupKeepsOrder(ids: seq<Id>, i: nat, k: nat) returns (m: nat)
    requires i < k < |Dedup(ids)|
    ensures m < |ids| && ids[m] == Dedup(ids)[i] && Dedup(ids)[k] !in ids[..m + 1]
  {
    var n := |ids| - 1;
    var before := Dedup(ids[..n]);
    if k < |before| {
      m := DedupKeepsOrder(ids[..n], i, k);
      assert ids[..n][..m + 1] == ids[..m + 1];
    } else {
      assert before[i] in before;
      m :| 0 <= m < n && ids[..n][m] == before[i];
      assert forall x :: x in ids[..m + 1] ==> x in ids[..n];
    }
  }

  // ---------------------------------------------------------------- replays

  /** The run's body is the approved one and a fresh, valid answer for its own analysis came back. */
  predicate Replays(r: EvidenceRun, reply: Reply)
  {
    r.intact && reply.Replayed? && !reply.reused && reply.valid && reply.result.analysis == r.request
  }

  /** Every run is replayed, in order and each by one call, or the first that is not ends it: without a
      call if its body is not the approved one, and invalid if an answer came back. */
  lemma {:induction false} ReplaysMean(runs: seq<EvidenceRun>, replies: nat -> Reply)
    ensures ReplayRuns(runs, replies).AllReplayed? <==> forall i :: 0 <= i < |runs| ==> Replays(runs[i], replies(i))
    ensures ReplayRuns(runs, replies).AllReplayed? ==> var x := ReplayRuns(runs, replies);
      x.calls == |runs| == |x.docs| && forall i :: 0 <= i < |runs| ==> x.docs[i] == replies(i).result
    ensures !ReplayRuns(runs, replies).AllReplayed? ==> exists i :: EndsAt(runs, replies, i, ReplayRuns(runs, replies))
  {
    if runs != [] {
      var n := |runs| - 1;
      ReplaysMean(runs[..n], replies);
      assert forall i :: 0 <= i < n ==> runs[..n][i] == runs[i];
      if !ReplayRuns(runs[..n], replies).AllReplayed? {
        var i :| EndsAt(runs[..n], replies, i, ReplayRuns(runs[..n], replies));
        assert EndsAt(runs, replies, i, ReplayRuns(runs, replies));
      } else if !Replays(runs[n], replies(n)) {
        assert EndsAt(runs, replies, n, ReplayRuns(runs, replies));
      }
    }
  }

  ghost predicate EndsAt(runs: seq<EvidenceRun>, replies: nat -> Reply, i: nat, x: Replay)
  {
    && i < |runs| && !Replays(runs[i], replies(i)) && (forall k :: 0 <= k < i ==> Replays(runs[k], replies(k)))
    && !x.AllReplayed? && x.calls == (if runs[i].intact then i + 1 else i)
    && (x.ReplayInvalid? <==> runs[i].intact && replies(i).Replayed?)
  }
}
