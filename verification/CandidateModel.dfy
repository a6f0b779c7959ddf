/** The records that candidates are built from, and the lookups over analysis documents
    (src/scan_tool/application/candidate_verifier.py:50-112, 753-872). */
module CandidateModel {
  import opened Basics

  type Id = nat

  // ---------------------------------------------------------------- JSON values

  /** The fields of an object stand in key order. */
  datatype Json = Scalar(nat) | Text(text: string) | List(items: seq<Json>) | Object(fields: seq<Field>)
  datatype Field = Field(key: string, value: Json)

  datatype Wanted = Addresses | RawAmounts | DecimalCounts

  predicate HexDigit(c: char)
  {
    '0' <= c <= '9' || 'a' <= c <= 'f' || 'A' <= c <= 'F'
  }

  predicate IsAddress(v: Json)
  {
    v.Text? && |v.text| == 42 && v.text[..2] == "0x" && forall i :: 2 <= i < 42 ==> HexDigit(v.text[i])
  }

  predicate Matches(w: Wanted, f: Field)
  {
    match w
    case Addresses => IsAddress(f.value)
    case RawAmounts => |f.key| >= 4 && f.key[|f.key| - 4..] == "_raw"
    case DecimalCounts => f.key == "decimals"
  }

  /** The values of all matching fields at any depth. */
  function Named(v: Json, w: Wanted): seq<Json>
    decreases v, 0
  {
    match v
    case Object(fields) => NamedFields(fields, w)
    case List(items) => NamedItems(items, w)
    case _ => []
  }

  function NamedFields(fields: seq<Field>, w: Wanted): seq<Json>
    decreases fields, 1
  {
    if fields == [] then []
    else
      var f := fields[0];
      (if Matches(w, f) then [f.value] else []) + Named(f.value, w) + NamedFields(fields[1..], w)
  }

  function NamedItems(items: seq<Json>, w: Wanted): seq<Json>
    decreases items, 1
  {
    if items == [] then [] else Named(items[0], w) + NamedItems(items[1..], w)
  }

  /** A field that stands somewhere in a value. */
  predicate Contains(v: Json, f: Field)
    decreases v
  {
    match v
    case Object(fields) => exists i :: 0 <= i < |fields| && (fields[i] == f || Contains(fields[i].value, f))
    case List(items) => exists i :: 0 <= i < |items| && Contains(items[i], f)
    case _ => false
  }

  /** Something is found exactly when some field at some depth matches. */
  lemma {:induction false} NamedIff(v: Json, w: Wanted)
    ensures Named(v, w) != [] <==> exists f :: Contains(v, f) && Matches(w, f)
    decreases v, 0
  {
    match v
    case Object(fields) =>
      NamedFieldsIff(fields, w);
      if f :| Contains(v, f) && Matches(w, f) {
        var i :| 0 <= i < |fields| && (fields[i] == f || Contains(fields[i].value, f));
        assert FieldHas(fields[i], w);
      }
      if i :| 0 <= i < |fields| && FieldHas(fields[i], w) {
        if Matches(w, fields[i]) {
          assert Contains(v, fields[i]);
        } else {
          var f :| Contains(fields[i].value, f) && Matches(w, f);
          assert Contains(v, f);
        }
      }
    case List(items) =>
      NamedItemsIff(items, w);
      if f :| Contains(v, f) && Matches(w, f) {
        var i :| 0 <= i < |items| && Contains(items[i], f);
        assert ItemHas(items[i], w);
      }
      if i :| 0 <= i < |items| && ItemHas(items[i], w) {
        var f :| Contains(items[i], f) && Matches(w, f);
        assert Contains(v, f);
      }
    case _ =>
  }

  ghost predicate ItemHas(v: Json, w: Wanted)
  {
    exists f :: Contains(v, f) && Matches(w, f)
  }

  ghost predicate FieldHas(field: Field, w: Wanted)
  {
    Matches(w, field) || ItemHas(field.value, w)
  }

  lemma {:induction false} NamedFieldsIff(fields: seq<Field>, w: Wanted)
    ensures NamedFields(fields, w) != [] <==> exists i :: 0 <= i < |fields| && FieldHas(fields[i], w)
    decreases fields, 1
  {
    if fields != [] {
      NamedIff(fields[0].value, w);
      NamedFieldsIff(fields[1..], w);
      if i :| 0 <= i < |fields| && FieldHas(fields[i], w) {
        if i > 0 { assert fields[1..][i - 1] == fields[i]; }
      }
      if i :| 0 <= i < |fields[1..]| && FieldHas(fields[1..][i], w) {
        assert FieldHas(fields[i + 1], w);
      }
      assert FieldHas(fields[0], w) <==> Matches(w, fields[0]) || Named(fields[0].value, w) != [];
    }
  }

  lemma {:induction false} NamedItemsIff(items: seq<Json>, w: Wanted)
    ensures NamedItems(items, w) != [] <==> exists i :: 0 <= i < |items| && ItemHas(items[i], w)
    decreases items, 1
  {
    if items != [] {
      NamedIff(items[0], w);
      NamedItemsIff(items[1..], w);
      if i :| 0 <= i < |items| && ItemHas(items[i], w) {
        if i > 0 { assert items[1..][i - 1] == items[i]; }
      }
      if i :| 0 <= i < |items[1..]| && ItemHas(items[1..][i], w) {
        assert ItemHas(items[i + 1], w);
      }
      assert ItemHas(items[0], w) <==> Named(items[0], w) != [];
    }
  }

  // ---------------------------------------------------------------- records

  datatype Classification = ConfirmedFact | ExternalContext | Heuristic | NotAssessed
  datatype AnalysisStatus = AnalysisComplete | AnalysisPartial | AnalysisFailed

  datatype ResultItem = ResultItem(id: Id, kind: nat, classification: Classification, value: Json, evidence: seq<Id>, rest: nat)
  datatype Evidence = Evidence(id: Id, transaction: Option<nat>, rest: nat)
  datatype Document = Document(analysis: Id, chain: nat, status: AnalysisStatus, results: seq<ResultItem>, evidence: seq<Evidence>)

  datatype Role = Planner | EvidenceRole | Verifier | Reporter
  datatype JobStatus = JobQueued | JobRunning | JobWaiting | JobComplete | JobPartial | JobFailed | JobCancelled
  datatype Job = Job(id: Id, role: Role, status: JobStatus, problem: Id, plan: Id, analysis: Option<Id>)

  /** `intact` says that the approved replay body has its recorded digest. */
  datatype EvidenceRun = EvidenceRun(job: Job, request: Id, result: Document, intact: bool)

  datatype ProblemStatus =
    | Captured | Triaged | Queued | Running | Partial | Verifying | ProblemReview | ProblemReady | ProblemSubmitted
  datatype Manifest = Manifest(id: Id, active: bool)
  datatype Problem = Problem(id: Id, competition: Id, status: ProblemStatus, plan: Id, format: nat)
  datatype Plan = Plan(id: Id, problem: Id, approved: bool)

  /** One selected result as the canonical answer writes it. */
  datatype AnswerItem = AnswerItem(id: Id, kind: nat, value: Json)

  /** Answer text: the canonical serialisation is injective; `Other` is any other text. */
  datatype Answer = Canonical(items: seq<AnswerItem>) | Other(nat)

  datatype CandidateStatus = Draft | ReviewRequired | SubmissionReady | CandidateSubmitted | CandidateRejected

  datatype Candidate = Candidate(
    id: Id, problem: Id, format: nat, answer: Answer, status: CandidateStatus, results: seq<Id>, evidence: seq<Id>,
    verifications: seq<Id>, uncertainties: seq<nat>, creator: Id, submit: bool)

  // ---------------------------------------------------------------- lookups

  /** Records by identifier; a repeated identifier raises. */
  function Index<R>(s: seq<R>, id: R -> Id): Option<map<Id, R>>
  {
    if s == [] then Some(map[])
    else
      var n := |s| - 1;
      var before := Index(s[..n], id);
      if before.None? || id(s[n]) in before.value then None else Some(before.value[id(s[n]) := s[n]])
  }

  /** The index exists exactly when no identifier repeats, and then holds every record under its own. */
  lemma {:induction false} IndexMeaning<R(!new)>(s: seq<R>, id: R -> Id)
    ensures Index(s, id).Some? <==> UniqueBy(s, id)
    ensures Index(s, id).Some? ==> forall x :: x in s <==> id(x) in Index(s, id).value && Index(s, id).value[id(x)] == x
    ensures Index(s, id).Some? ==> forall k :: k in Index(s, id).value ==> id(Index(s, id).value[k]) == k
  {
    if s != [] {
      var n := |s| - 1;
      IndexMeaning(s[..n], id);
      assert s == s[..n] + [s[n]];
      if Index(s[..n], id).Some? {
        if id(s[n]) in Index(s[..n], id).value {
          var x := Index(s[..n], id).value[id(s[n])];
          assert x in s[..n];
          var i :| 0 <= i < n && s[..n][i] == x;
          assert id(s[i]) == id(s[n]);
        } else {
          forall i, k | 0 <= i < k < |s| ensures id(s[i]) != id(s[k]) {
            assert s[..n][i] in s[..n];
            if k < n { assert id(s[..n][i]) != id(s[..n][k]); }
          }
        }
      } else {
        var i, k :| 0 <= i < k < n && id(s[..n][i]) == id(s[..n][k]);
        assert id(s[i]) == id(s[k]);
      }
    }
  }

  function ResultId(r: ResultItem): Id { r.id }
  function EvidenceId(e: Evidence): Id { e.id }

  function AllResults(docs: seq<Document>): seq<ResultItem>
  {
    if docs == [] then [] else AllResults(docs[..|docs| - 1]) + docs[|docs| - 1].results
  }

  function AllEvidence(docs: seq<Document>): seq<Evidence>
  {
    if docs == [] then [] else AllEvidence(docs[..|docs| - 1]) + docs[|docs| - 1].evidence
  }

  datatype Maps = Maps(results: map<Id, ResultItem>, evidence: map<Id, Evidence>)

  function MapsOf(docs: seq<Document>): Option<Maps>
  {
    var r, e := Index(AllResults(docs), ResultId), Index(AllEvidence(docs), EvidenceId);
    if r.Some? && e.Some? then Some(Maps(r.value, e.value)) else None
  }

  lemma {:induction false} IndexAppend<R(!new)>(a: seq<R>, b: seq<R>, id: R -> Id)
    requires Index(a, id).None?
    ensures Index(a + b, id).None?
  {
    if b == [] {
      assert a + b == a;
    } else {
      assert (a + b)[..|a + b| - 1] == a + b[..|b| - 1];
      IndexAppend(a, b[..|b| - 1], id);
    }
  }

  lemma {:induction false} MapsNeverRecover(docs: seq<Document>, n: nat)
    requires n <= |docs| && MapsOf(docs[..n]).None?
    ensures MapsOf(docs).None?
  {
    if n == |docs| {
      assert docs[..n] == docs;
    } else {
      var m := |docs| - 1;
      assert docs[..m][..n] == docs[..n];
      MapsNeverRecover(docs[..m], n);
      if Index(AllResults(docs[..m]), ResultId).None? {
        IndexAppend(AllResults(docs[..m]), docs[m].results, ResultId);
      } else {
        IndexAppend(AllEvidence(docs[..m]), docs[m].evidence, EvidenceId);
      }
    }
  }

  /** Filling one table from a list of records; a repeated identifier stops it. */
  method FillTable<R(!new)>(table: map<Id, R>, done: seq<R>, more: seq<R>, id: R -> Id) returns (t: Option<map<Id, R>>)
    requires Index(done, id) == Some(table)
    ensures t == Index(done + more, id)
  {
    hide Index;
    var filled := table;
    assert done + more[..0] == done;
    for i := 0 to |more|
      invariant Index(done + more[..i], id) == Some(filled)
    {
      IndexNext(done + more[..i], more[i], id);
      assert done + more[..i] + [more[i]] == done + more[..i + 1];
      if id(more[i]) in filled {
        IndexAppend(done + more[..i + 1], more[i + 1..], id);
        assert done + more[..i + 1] + more[i + 1..] == done + more;
        return None;
      }
      filled := filled[id(more[i]) := more[i]];
    }
    assert more[..|more|] == more;
    return Some(filled);
  }

  lemma IndexNext<R>(s: seq<R>, x: R, id: R -> Id)
    requires Index(s, id).Some?
    ensures Index(s + [x], id)
      == if id(x) in Index(s, id).value then None else Some(Index(s, id).value[id(x) := x])
  {
    assert (s + [x])[..|s|] == s;
  }

  /** Filling both tables document by document. */
  method AnalysisMaps(docs: seq<Document>) returns (m: Option<Maps>)
    ensures m == MapsOf(docs)
  {
    var results: map<Id, ResultItem>, evidence: map<Id, Evidence> := map[], map[];
    for i := 0 to |docs|
      invariant MapsOf(docs[..i]) == Some(Maps(results, evidence))
    {
      assert docs[..i + 1][..i] == docs[..i];
      var r := FillTable(results, AllResults(docs[..i]), docs[i].results, ResultId);
      var e := FillTable(evidence, AllEvidence(docs[..i]), docs[i].evidence, EvidenceId);
      if r.None? || e.None? {
        MapsNeverRecover(docs, i + 1);
        return None;
      }
      results, evidence := r.value, e.value;
    }
    assert docs[..|docs|] == docs;
    return Some(Maps(results, evidence));
  }

  // ---------------------------------------------------------------- selections

  predicate AllIn<R>(ids: seq<Id>, m: map<Id, R>)
  {
    forall id :: id in ids ==> id in m
  }

  function Pick<R>(m: map<Id, R>, ids: seq<Id>): (s: seq<R>)
    requires AllIn(ids, m)
    ensures |s| == |ids| && forall i :: 0 <= i < |ids| ==> s[i] == m[ids[i]]
  {
    seq(|ids|, i requires 0 <= i < |ids| => m[ids[i]])
  }

  function CanonicalAnswer(selected: seq<ResultItem>): Answer
  {
    Canonical(seq(|selected|, i requires 0 <= i < |selected| => AnswerItem(selected[i].id, selected[i].kind, selected[i].value)))
  }

  /** First occurrences, in order. */
  function Dedup(ids: seq<Id>): (r: seq<Id>)
    ensures NoRepeats(r) && forall x :: x in r <==> x in ids
  {
    if ids == [] then []
    else
      var n := |ids| - 1;
      var before := Dedup(ids[..n]);
      assert ids == ids[..n] + [ids[n]];
      NoRepeatsIff(before);
      NoRepeatsIff(before + [ids[n]]);
      if ids[n] in before then before else before + [ids[n]]
  }

  function CitedEvidence(selected: seq<ResultItem>): seq<Id>
  {
    if selected == [] then [] else CitedEvidence(selected[..|selected| - 1]) + selected[|selected| - 1].evidence
  }

  lemma {:induction false} CitedBySome(selected: seq<ResultItem>, id: Id)
    ensures id in CitedEvidence(selected) <==> exists r :: r in selected && id in r.evidence
  {
    if selected != [] {
      var n := |selected| - 1;
      CitedBySome(selected[..n], id);
      assert selected == selected[..n] + [selected[n]];
    }
  }
}
