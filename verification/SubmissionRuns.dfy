/** The repository that several operators share, and what every run of their commits and audit
    events keeps (src/scan_tool/adapters/sqlite_operations.py:378-485). */
module SubmissionRuns {
  import opened Basics
  import opened SubmissionModel
  import opened Submissions

  // ---------------------------------------------------------------- runs

  datatype Op = Commit(document: Document, submission: Submission, event: Event) | Audit(event: Event)

  ghost function Attempt(db: Db, op: Op): Result<Db>
  {
    match op
    case Commit(d, s, e) => Apply(db, d, s, e)
    case Audit(e) => Append(db, e)
  }

  /** A rejected operation is rolled back. */
  ghost function Step(db: Db, op: Op): Db
  {
    match Attempt(db, op)
    case Ok(t) => t
    case Err(_) => db
  }

  ghost function Run(db: Db, ops: seq<Op>): Db
  {
    if ops == [] then db else Step(Run(db, ops[..|ops| - 1]), ops[|ops| - 1])
  }

  /** A candidate with a submission is submitted and has no other. */
  ghost predicate DbOk(db: Db)
  {
    && (forall id :: id in db.submissions ==> SubmissionOk(db, id))
    && (forall i, k :: i in db.submissions && k in db.submissions && db.submissions[i].candidate == db.submissions[k].candidate ==> i == k)
  }

  ghost predicate SubmissionOk(db: Db, id: Id)
    requires id in db.submissions
  {
    var c := db.submissions[id].candidate;
    c in db.candidates && db.candidates[c].status == CandidateSubmitted
  }

  /** Nothing recorded is lost or altered. */
  ghost predicate Keeps(a: Db, b: Db)
  {
    && (forall id :: id in a.events ==> id in b.events && b.events[id] == a.events[id])
    && (forall id :: id in a.submissions ==> id in b.submissions && b.submissions[id] == a.submissions[id])
    && (forall id :: id in a.candidates ==> CandidateKept(a, b, id))
  }

  ghost predicate CandidateKept(a: Db, b: Db, id: Id)
    requires id in a.candidates
  {
    && id in b.candidates
    && (a.candidates[id].status == CandidateSubmitted ==> b.candidates[id] == a.candidates[id])
  }

  lemma StepKeeps(db: Db, op: Op)
    requires DbOk(db)
    ensures DbOk(Step(db, op)) && Keeps(db, Step(db, op))
    ensures Attempt(db, op).Ok? ==> |Step(db, op).events| == |db.events| + 1
  {
    match op
    case Commit(d, s, e) =>
      if Apply(db, d, s, e).Ok? {
        ApplyIsLegal(db, d, s, e);
        hide Apply, LoadedAs;
        LegalKeeps(db, Apply(db, d, s, e).value, s, e);
      }
    case Audit(e) =>
      if Append(db, e).Ok? {
        GrowsByOne(db.events, e.id, e);
      }
  }

  lemma LegalKeeps(db: Db, t: Db, s: Submission, e: Event)
    requires DbOk(db) && LegalStep(db, t, s, e)
    ensures DbOk(t) && Keeps(db, t) && |t.events| == |db.events| + 1
  {
    forall id | id in t.submissions ensures SubmissionOk(t, id) {
      if id != s.id { assert SubmissionOk(db, id); }
    }
    forall i, k | i in t.submissions && k in t.submissions && t.submissions[i].candidate == t.submissions[k].candidate
      ensures i == k
    {
      if i != s.id { assert SubmissionOk(db, i); }
      if k != s.id { assert SubmissionOk(db, k); }
    }
    GrowsByOne(db.events, e.id, e);
  }

  lemma GrowsByOne<R>(m: map<Id, R>, id: Id, x: R)
    requires id !in m
    ensures |m[id := x]| == |m| + 1
  {
    assert m[id := x].Keys == m.Keys + {id};
    assert |m[id := x]| == |m[id := x].Keys| && |m| == |m.Keys|;
  }

  lemma KeepsTransitive(a: Db, b: Db, c: Db)
    requires Keeps(a, b) && Keeps(b, c)
    ensures Keeps(a, c)
  {
  }

  /** Over any run of any operators with any documents: no event or submission is lost, a candidate
      is submitted at most once, and a database that counts no new event is the one it was. */
  lemma {:induction false} RunKeeps(db: Db, ops: seq<Op>)
    requires DbOk(db)
    ensures DbOk(Run(db, ops)) && Keeps(db, Run(db, ops))
    ensures |Run(db, ops).events| >= |db.events|
    ensures |Run(db, ops).events| == |db.events| ==> Run(db, ops) == db
  {
    if ops != [] {
      var n := |ops| - 1;
      RunKeeps(db, ops[..n]);
      var mid := Run(db, ops[..n]);
      StepKeeps(mid, ops[n]);
      hide DbOk, Attempt;
      KeepsTransitive(db, mid, Step(mid, ops[n]));
    }
  }

  /** An operator's recorded document commits after others have worked exactly when none of them
      changed anything and the new records sort last. */
  lemma CommitsAfterRunIff(db: Db, d: Document, cmd: Command, now: Time, suffix: Id, x: Execution, c: Candidate, p: Problem, others: seq<Op>)
    requires DbOk(db) && Recorded(db, d, cmd, now, suffix, x, c, p)
    ensures Apply(Run(db, others), x.document, x.submission, x.event).Ok?
      <==> Run(db, others) == db && Newest(db, x.submission, x.event)
  {
    hide Apply, Recorded, Newest, DbOk, Run, Step;
    RunKeeps(db, others);
    RecordedFacts(db, d, cmd, now, suffix, x, c, p);
    RecordedCommitsIff(db, d, cmd, now, suffix, x, c, p, Run(db, others));
  }

  // ---------------------------------------------------------------- the repository

  predicate Keyed<R>(rows: map<Id, R>, key: R -> Key)
  {
    forall id :: id in rows ==> key(rows[id]).id == id
  }

  /** Rows in ORDER BY order. */
  function InsertRow<R(!new)>(s: seq<R>, key: R -> Key, x: R): (t: seq<R>)
    requires Ascending(s, key) && forall i :: 0 <= i < |s| ==> key(s[i]).id != key(x).id
    ensures Ascending(t, key) && forall y :: y in t <==> y in s || y == x
  {
    if s == [] then [x]
    else if Before(key(x), key(s[0])) then [x] + s
    else
      var t := InsertRow(s[1..], key, x);
      assert s == [s[0]] + s[1..];
      assert forall i :: 0 <= i < |t| ==> t[i] in t;
      [s[0]] + t
  }

  method AnyKey<R>(rows: map<Id, R>, done: set<Id>) returns (id: Id)
    requires rows.Keys - done != {}
    ensures id in rows && id !in done
  {
    id :| id in rows.Keys - done;
  }

  method ListRows<R(!new)>(rows: map<Id, R>, key: R -> Key) returns (s: seq<R>)
    requires Keyed(rows, key)
    ensures Lists(s, rows, key)
  {
    s := [];
    var done: set<Id> := {};
    while rows.Keys - done != {}
      invariant done <= rows.Keys && Ascending(s, key)
      invariant forall id :: id in done ==> rows[id] in s
      invariant forall x :: x in s ==> key(x).id in done && rows[key(x).id] == x
      decreases rows.Keys - done
    {
      var id := AnyKey(rows, done);
      assert forall i :: 0 <= i < |s| ==> s[i] in s;
      s := InsertRow(s, key, rows[id]);
      done := done + {id};
    }
    assert rows.Keys <= done;
  }

  class Repository {
    var manifest: Manifest
    var problems: map<Id, Problem>
    var candidates: map<Id, Candidate>
    var submissions: map<Id, Submission>
    var events: map<Id, Event>
    var rest: nat

    constructor (db: Db)
      requires Keyed(db.problems, ProblemKey) && Keyed(db.candidates, CandidateKey)
      requires Keyed(db.submissions, SubmissionKey) && Keyed(db.events, EventKey)
      ensures View() == db && Valid()
    {
      manifest, problems, candidates := db.manifest, db.problems, db.candidates;
      submissions, events, rest := db.submissions, db.events, db.rest;
    }

    ghost function View(): Db
      reads this
    {
      Db(manifest, problems, candidates, submissions, events, rest)
    }

    ghost predicate Valid()
      reads this
    {
      && Keyed(problems, ProblemKey) && Keyed(candidates, CandidateKey)
      && Keyed(submissions, SubmissionKey) && Keyed(events, EventKey)
    }

    method LoadDocument() returns (d: Document)
      requires Valid()
      ensures LoadedAs(View(), d)
    {
      hide Lists;
      var ps := ListRows(problems, ProblemKey);
      var cs := ListRows(candidates, CandidateKey);
      var ss := ListRows(submissions, SubmissionKey);
      var es := ListRows(events, EventKey);
      d := Document(manifest, ps, cs, ss, es, rest);
    }

    method AppendEvent(e: Event) returns (r: Result<()>)
      requires Valid()
      modifies this`events
      ensures Valid() && (r.Ok? <==> Append(old(View()), e).Ok?) && View() == Step(old(View()), Audit(e))
    {
      if e.id in events || e.competition != manifest.id || (e.problem.Some? && e.problem.value !in problems) {
        return Err(ConstraintFailed);
      }
      events := events[e.id := e];
      return Ok(());
    }

    /** The transaction: guarded updates, two inserts, a read-back; any failure restores the tables. */
    method ApplySubmission(d: Document, s: Submission, e: Event) returns (r: Result<Document>)
      requires Valid()
      modifies this
      ensures Valid() && View() == Step(old(View()), Commit(d, s, e))
      ensures match Apply(old(View()), d, s, e) case Ok(_) => r == Ok(d) case Err(x) => r == Err(x)
    {
      hide LoadedAs;
      if s !in d.submissions || e !in d.events {
        return Err(RecordsOutsideDocument);
      }
      var found := Find(d.candidates, CandidateKey, s.candidate);
      if found.None? {
        return Err(CandidateNotFound);
      }
      var c := found.value;
      var owner := Find(d.problems, ProblemKey, c.problem);
      if owner.None? {
        return Err(ProblemNotFound);
      }
      var p := owner.value;
      if !TransitionOk(d, s, e, c, p) {
        return Err(TransitionMismatch);
      }
      r := Transact(d, s, e, c, p);
    }

    method Transact(d: Document, s: Submission, e: Event, c: Candidate, p: Problem) returns (r: Result<Document>)
      requires Valid() && CandidateKey(c).id == c.id
      modifies this
      ensures Valid()
      ensures var db := old(View());
        if !RowsReady(db, d.manifest.id, c.id, p.id) then r == Err(PreconditionFailed) && View() == db
        else if !InsertsOk(db, s, e) then r == Err(ConstraintFailed) && View() == db
        else if LoadedAs(Written(db, d, s, e, c, p), d) then r == Ok(d) && View() == Written(db, d, s, e, c, p)
        else r == Err(ReadBackMismatch) && View() == db
    {
      hide LoadedAs, RowsReady, InsertsOk, Keyed;
      var m0, p0, c0, s0, e0 := manifest, problems, candidates, submissions, events;
      var rows := UpdateRows(d, c, p);
      if rows != 3 {
        manifest, problems, candidates := m0, p0, c0;
        return Err(PreconditionFailed);
      }
      SameReferences(old(View()), View(), s, e);
      var inserted := InsertRecords(s, e);
      if !inserted {
        manifest, problems, candidates := m0, p0, c0;
        return Err(ConstraintFailed);
      }
      var loaded := LoadDocument();
      if loaded != d {
        NotLoadedAs(View(), loaded, d);
        manifest, problems, candidates, submissions, events := m0, p0, c0, s0, e0;
        return Err(ReadBackMismatch);
      }
      return Ok(loaded);
    }

    /** The three guarded updates; the number of rows they changed. */
    method UpdateRows(d: Document, c: Candidate, p: Problem) returns (rows: nat)
      requires Valid()
      modifies this`manifest, this`problems, this`candidates
      ensures Valid() && (rows == 3 <==> RowsReady(old(View()), d.manifest.id, c.id, p.id))
      ensures rows == 3 ==> manifest == old(manifest).(updated := d.manifest.updated)
      ensures rows == 3 ==> c.id in old(candidates) && p.id in old(problems)
      ensures rows == 3 ==> candidates == old(candidates)[c.id := old(candidates)[c.id].(status := c.status, updated := c.updated)]
      ensures rows == 3 ==> problems == old(problems)[p.id := old(problems)[p.id].(status := p.status, updated := p.updated)]
    {
      rows := 0;
      if c.id in candidates && candidates[c.id].status == SubmissionReady {
        candidates := candidates[c.id := candidates[c.id].(status := c.status, updated := c.updated)];
        rows := rows + 1;
      }
      if p.id in problems && problems[p.id].status == ReadyToSubmit {
        problems := problems[p.id := problems[p.id].(status := p.status, updated := p.updated)];
        rows := rows + 1;
      }
      if manifest.id == d.manifest.id && manifest.status == Active {
        manifest := manifest.(updated := d.manifest.updated);
        rows := rows + 1;
      }
    }

    /** The two inserts, under the primary and foreign keys. */
    method InsertRecords(s: Submission, e: Event) returns (ok: bool)
      requires Valid()
      modifies this`submissions, this`events
      ensures Valid() && (ok <==> InsertsOk(old(View()), s, e))
      ensures submissions == if ok then old(submissions)[s.id := s] else old(submissions)
      ensures events == if ok then old(events)[e.id := e] else old(events)
    {
      if s.id in submissions || s.candidate !in candidates || e.id in events || e.competition != manifest.id
         || (e.problem.Some? && e.problem.value !in problems) {
        return false;
      }
      submissions := submissions[s.id := s];
      events := events[e.id := e];
      return true;
    }
  }

  /** The updates change no key that the inserts refer to. */
  lemma SameReferences(a: Db, b: Db, s: Submission, e: Event)
    requires a.submissions == b.submissions && a.events == b.events && a.manifest.id == b.manifest.id
    requires a.candidates.Keys == b.candidates.Keys && a.problems.Keys == b.problems.Keys
    ensures InsertsOk(a, s, e) <==> InsertsOk(b, s, e)
  {
    assert forall id :: id in a.candidates <==> id in b.candidates;
    assert forall id :: id in a.problems <==> id in b.problems;
  }

  lemma NotLoadedAs(db: Db, loaded: Document, d: Document)
    requires LoadedAs(db, loaded) && loaded != d
    ensures !LoadedAs(db, d)
  {
    if LoadedAs(db, d) {
      LoadIsUnique(db, loaded, d);
    }
  }
}
