/** Recording a submission on a document and committing it to the database
    (src/scan_tool/application/submission.py:64-180;
     src/scan_tool/adapters/sqlite_operations.py:378-485, 1089-1128). */
module Submissions {
  import opened Basics
  import opened SubmissionModel

  datatype Error =
    | ScopeMismatch | CompetitionNotActive | AlreadyRecorded | CandidateNotFound | ProblemNotFound
    | CandidateNotReady | ProblemNotReady | InvalidDocument
    | RecordsOutsideDocument | TransitionMismatch | PreconditionFailed | ConstraintFailed | ReadBackMismatch

  datatype Result<T> = Ok(value: T) | Err(error: Error)

  // ---------------------------------------------------------------- record

  datatype Command = Command(competition: Id, candidate: Id, response: Response, actorId: Id)

  datatype Execution = Execution(document: Document, submission: Submission, event: Event)

  /** The first record with an identifier. */
  function Find<R>(s: seq<R>, key: R -> Key, id: Id): (r: Option<R>)
    ensures r.Some? ==> r.value in s && key(r.value).id == id
    ensures r.None? ==> forall x :: x in s ==> key(x).id != id
  {
    if s == [] then None
    else if key(s[0]).id == id then Some(s[0])
    else Find(s[1..], key, id)
  }

  /** The list with every record of one identifier replaced. */
  function Replace<R>(s: seq<R>, key: R -> Key, id: Id, next: R): (t: seq<R>)
    ensures |t| == |s|
    ensures forall i :: 0 <= i < |s| ==> t[i] == if key(s[i]).id == id then next else s[i]
  {
    seq(|s|, i requires 0 <= i < |s| => if key(s[i]).id == id then next else s[i])
  }

  function NewSubmission(cmd: Command, now: Time, suffix: Id): Submission
  {
    Submission(suffix, cmd.candidate, cmd.response, now, None)
  }

  function NewEvent(cmd: Command, problem: Id, now: Time, suffix: Id): Event
  {
    Event(suffix, cmd.competition, Some(problem), true, suffix, true, Operator, cmd.actorId,
          Some(SubmissionReady), Some(CandidateSubmitted),
          SubmissionDetails(cmd.candidate, cmd.response, true), now)
  }

  function Updated(d: Document, c: Candidate, p: Problem, s: Submission, e: Event, now: Time): Document
  {
    d.(manifest := d.manifest.(updated := now),
       problems := Replace(d.problems, ProblemKey, p.id, p.(status := Submitted, updated := now)),
       candidates := Replace(d.candidates, CandidateKey, c.id, c.(status := CandidateSubmitted, updated := now)),
       submissions := d.submissions + [s],
       events := d.events + [e])
  }

  /** The pure transition of the source; `suffix` is the digest it derives identifiers from. */
  ghost function Record(d: Document, cmd: Command, now: Time, suffix: Id): Result<Execution>
  {
    if d.manifest.id != cmd.competition then Err(ScopeMismatch)
    else if d.manifest.status != Active then Err(CompetitionNotActive)
    else if exists s :: s in d.submissions && s.candidate == cmd.candidate then Err(AlreadyRecorded)
    else
      var c := Find(d.candidates, CandidateKey, cmd.candidate);
      if c.None? then Err(CandidateNotFound)
      else
        var p := Find(d.problems, ProblemKey, c.value.problem);
        if p.None? then Err(ProblemNotFound)
        else if c.value.status != SubmissionReady then Err(CandidateNotReady)
        else if p.value.status != ReadyToSubmit then Err(ProblemNotReady)
        else
          var s := NewSubmission(cmd, now, suffix);
          var e := NewEvent(cmd, p.value.id, now, suffix);
          var u := Updated(d, c.value, p.value, s, e, now);
          if ValidDoc(u) then Ok(Execution(u, s, e)) else Err(InvalidDocument)
  }

  // ---------------------------------------------------------------- apply

  /** The checks made on the records before any row is written. */
  predicate TransitionOk(d: Document, s: Submission, e: Event, c: Candidate, p: Problem)
  {
    && c.status == CandidateSubmitted && p.status == Submitted
    && e.competition == d.manifest.id && e.problem == Some(p.id) && e.aboutSubmission && e.entity == s.id && e.recorded
    && e.actor == Operator && e.fromStatus == Some(SubmissionReady) && e.toStatus == Some(CandidateSubmitted)
    && e.details == SubmissionDetails(c.id, s.response, true)
    && e.at == s.at && c.updated == s.at && p.updated == s.at && d.manifest.updated == s.at
  }

  /** The guarded updates each hit one row. */
  predicate RowsReady(db: Db, manifest: Id, c: Id, p: Id)
  {
    && c in db.candidates && db.candidates[c].status == SubmissionReady
    && p in db.problems && db.problems[p].status == ReadyToSubmit
    && db.manifest.id == manifest && db.manifest.status == Active
  }

  function Written(db: Db, d: Document, s: Submission, e: Event, c: Candidate, p: Problem): Db
    requires c.id in db.candidates && p.id in db.problems
  {
    db.(manifest := db.manifest.(updated := d.manifest.updated),
        problems := db.problems[p.id := db.problems[p.id].(status := p.status, updated := p.updated)],
        candidates := db.candidates[c.id := db.candidates[c.id].(status := c.status, updated := c.updated)],
        submissions := db.submissions[s.id := s],
        events := db.events[e.id := e])
  }

  /** Primary and foreign keys of the two inserts. */
  predicate InsertsOk(db: Db, s: Submission, e: Event)
  {
    && s.id !in db.submissions && s.candidate in db.candidates
    && e.id !in db.events && e.competition == db.manifest.id && (e.problem.Some? ==> e.problem.value in db.problems)
  }

  /** The commit of the source as a function: it either changes the tables as written or not at all. */
  ghost function Apply(db: Db, d: Document, s: Submission, e: Event): Result<Db>
  {
    if s !in d.submissions || e !in d.events then Err(RecordsOutsideDocument)
    else
      var c := Find(d.candidates, CandidateKey, s.candidate);
      if c.None? then Err(CandidateNotFound)
      else
        var p := Find(d.problems, ProblemKey, c.value.problem);
        if p.None? then Err(ProblemNotFound)
        else if !TransitionOk(d, s, e, c.value, p.value) then Err(TransitionMismatch)
        else if !RowsReady(db, d.manifest.id, c.value.id, p.value.id) then Err(PreconditionFailed)
        else if !InsertsOk(db, s, e) then Err(ConstraintFailed)
        else
          var t := Written(db, d, s, e, c.value, p.value);
          if LoadedAs(t, d) then Ok(t) else Err(ReadBackMismatch)
  }

  /** Appending an audit event; a repeated identifier fails. */
  function Append(db: Db, e: Event): Result<Db>
  {
    if e.id !in db.events && e.competition == db.manifest.id && (e.problem.Some? ==> e.problem.value in db.problems)
    then Ok(db.(events := db.events[e.id := e]))
    else Err(ConstraintFailed)
  }

  // ---------------------------------------------------------------- one legal step

  /** From `db` to `t` exactly one ready candidate of a ready problem was submitted: two statuses
      move, three time stamps are set, one submission and one event are new, all else is as before. */
  ghost predicate LegalStep(db: Db, t: Db, s: Submission, e: Event)
  {
    var c := s.candidate;
    && db.manifest.status == Active && t.manifest == db.manifest.(updated := s.at) && t.rest == db.rest
    && c in db.candidates && db.candidates[c].status == SubmissionReady
    && t.candidates == db.candidates[c := db.candidates[c].(status := CandidateSubmitted, updated := s.at)]
    && (exists p: Id :: ProblemSubmitted(db, t, p, s.at, c) && e.problem == Some(p))
    && s.id !in db.submissions && t.submissions == db.submissions[s.id := s]
    && e.id !in db.events && t.events == db.events[e.id := e]
    && ReportsSubmission(e, t, s)
  }

  /** The event says what happened: the operator recorded this submission of this candidate. */
  predicate ReportsSubmission(e: Event, t: Db, s: Submission)
  {
    && e.competition == t.manifest.id && e.at == s.at && e.entity == s.id && e.aboutSubmission && e.recorded
    && e.actor == Operator && e.fromStatus == Some(SubmissionReady) && e.toStatus == Some(CandidateSubmitted)
    && e.details == SubmissionDetails(s.candidate, s.response, true)
  }

  ghost predicate ProblemSubmitted(db: Db, t: Db, p: Id, now: Time, c: Id)
  {
    && p in db.problems && db.problems[p].status == ReadyToSubmit && c in db.candidates
    && db.candidates[c].problem == p
    && t.problems == db.problems[p := db.problems[p].(status := Submitted, updated := now)]
  }

  /** Whatever document an operator brings, however old: a commit that succeeds is one legal step
      from the database as it is now, and leaves the database reading as that document. */
  lemma ApplyIsLegal(db: Db, d: Document, s: Submission, e: Event)
    requires Apply(db, d, s, e).Ok?
    ensures LegalStep(db, Apply(db, d, s, e).value, s, e)
    ensures LoadedAs(Apply(db, d, s, e).value, d)
  {
    var c := Find(d.candidates, CandidateKey, s.candidate).value;
    var p := Find(d.problems, ProblemKey, c.problem).value;
    var t := Written(db, d, s, e, c, p);
    assert Lists(d.candidates, t.candidates, CandidateKey);
    assert CandidateKey(c).id == c.id && t.candidates[c.id] == c;
    assert ProblemKey(p).id == p.id;
    assert ProblemSubmitted(db, t, p.id, s.at, c.id);
  }

  // ---------------------------------------------------------------- stale documents

  /** The two databases agree except in the time stamps that the commit overwrites. */
  ghost predicate SameButStamps(a: Db, b: Db, c: Id, p: Id)
  {
    && a.rest == b.rest && a.submissions == b.submissions && a.events == b.events
    && a.manifest.(updated := 0) == b.manifest.(updated := 0)
    && c in a.candidates && c in b.candidates && p in a.problems && p in b.problems
    && a.candidates[c := a.candidates[c].(updated := 0)] == b.candidates[c := b.candidates[c].(updated := 0)]
    && a.problems[p := a.problems[p].(updated := 0)] == b.problems[p := b.problems[p].(updated := 0)]
  }

  /** The new submission and event sort after everything already recorded. */
  ghost predicate Newest(db: Db, s: Submission, e: Event)
  {
    && (forall id :: id in db.submissions ==> Before(SubmissionKey(db.submissions[id]), SubmissionKey(s)))
    && (forall id :: id in db.events ==> Before(EventKey(db.events[id]), EventKey(e)))
  }

  lemma FindUnique<R>(s: seq<R>, key: R -> Key, x: R)
    requires UniqueKeys(s, key) && x in s
    ensures Find(s, key, key(x).id) == Some(x)
  {
    var r := Find(s, key, key(x).id);
    assert r.Some?;
    var i :| 0 <= i < |s| && s[i] == x;
    var k :| 0 <= k < |s| && s[k] == r.value;
  }

  lemma ListsReplace<R>(s: seq<R>, rows: map<Id, R>, key: R -> Key, id: Id, x: R)
    requires Lists(s, rows, key) && id in rows && key(x) == key(rows[id])
    ensures Lists(Replace(s, key, id, x), rows[id := x], key)
  {
    var t := Replace(s, key, id, x);
    forall j | j in rows ensures rows[id := x][j] in t && key(rows[id := x][j]).id == j {
      var i :| 0 <= i < |s| && s[i] == rows[j];
      assert t[i] in t;
    }
    forall y | y in t ensures key(y).id in rows && rows[id := x][key(y).id] == y {
      var i :| 0 <= i < |t| && t[i] == y;
      assert s[i] in s;
    }
    forall i, k | 0 <= i < k < |t| ensures Before(key(t[i]), key(t[k])) {
      assert s[i] in s && s[k] in s;
      assert key(t[i]) == key(s[i]) && key(t[k]) == key(s[k]);
    }
  }

  /** A listing determines its table. */
  lemma ListedRows<R>(s: seq<R>, a: map<Id, R>, b: map<Id, R>, key: R -> Key)
    requires Lists(s, a, key) && Lists(s, b, key)
    ensures a == b
  {
    forall id | id in a ensures id in b && b[id] == a[id] {
      assert a[id] in s;
    }
    forall id | id in b ensures id in a {
      assert b[id] in s;
    }
  }

  lemma ListsWithoutLast<R>(s: seq<R>, rows: map<Id, R>, key: R -> Key, x: R)
    requires Lists(s + [x], rows[key(x).id := x], key) && key(x).id !in rows
    ensures Lists(s, rows, key)
  {
    var t, more := s + [x], rows[key(x).id := x];
    assert forall i :: 0 <= i < |s| ==> t[i] == s[i];
    forall id | id in rows ensures rows[id] in s && key(rows[id]).id == id {
      assert more[id] in t;
    }
    forall y | y in s ensures key(y).id in rows && rows[key(y).id] == y {
      var i :| 0 <= i < |s| && s[i] == y;
      assert y in t && Before(key(t[i]), key(t[|s|]));
      assert x in t;
    }
  }

  /** The last record fits the listing exactly when the rest is the old table and it sorts last. */
  lemma AppendedLists<R>(s: seq<R>, was: map<Id, R>, now: map<Id, R>, key: R -> Key, x: R)
    requires Lists(s, was, key) && key(x).id !in now
    ensures Lists(s + [x], now[key(x).id := x], key)
      <==> now == was && forall id :: id in was ==> Before(key(was[id]), key(x))
  {
    if Lists(s + [x], now[key(x).id := x], key) {
      ListsWithoutLast(s, now, key, x);
      ListedRows(s, was, now, key);
      ListsAppend(s, was, key, x);
    } else if now == was {
      ListsAppend(s, was, key, x);
    }
  }

  lemma CandidatesAgree(s: seq<Candidate>, was: map<Id, Candidate>, now: map<Id, Candidate>, c: Candidate, at: Time)
    requires Lists(s, was, CandidateKey) && c.id in was && was[c.id] == c && c.status == SubmissionReady
    requires c.id in now && now[c.id].status == SubmissionReady
    ensures Lists(Replace(s, CandidateKey, c.id, c.(status := CandidateSubmitted, updated := at)),
                  now[c.id := now[c.id].(status := CandidateSubmitted, updated := at)], CandidateKey)
      <==> was[c.id := c.(updated := 0)] == now[c.id := now[c.id].(updated := 0)]
  {
    var x := c.(status := CandidateSubmitted, updated := at);
    var y := now[c.id].(status := CandidateSubmitted, updated := at);
    ListsReplace(s, was, CandidateKey, c.id, x);
    var t := Replace(s, CandidateKey, c.id, x);
    if Lists(t, now[c.id := y], CandidateKey) {
      ListedRows(t, was[c.id := x], now[c.id := y], CandidateKey);
      OtherRows(was, now, c.id, x, y, c.(updated := 0), now[c.id].(updated := 0));
    } else if was[c.id := c.(updated := 0)] == now[c.id := now[c.id].(updated := 0)] {
      OtherRows(was, now, c.id, c.(updated := 0), now[c.id].(updated := 0), x, y);
    }
  }

  lemma ProblemsAgree(s: seq<Problem>, was: map<Id, Problem>, now: map<Id, Problem>, p: Problem, at: Time)
    requires Lists(s, was, ProblemKey) && p.id in was && was[p.id] == p && p.status == ReadyToSubmit
    requires p.id in now && now[p.id].status == ReadyToSubmit
    ensures Lists(Replace(s, ProblemKey, p.id, p.(status := Submitted, updated := at)),
                  now[p.id := now[p.id].(status := Submitted, updated := at)], ProblemKey)
      <==> was[p.id := p.(updated := 0)] == now[p.id := now[p.id].(updated := 0)]
  {
    var x := p.(status := Submitted, updated := at);
    var y := now[p.id].(status := Submitted, updated := at);
    ListsReplace(s, was, ProblemKey, p.id, x);
    var t := Replace(s, ProblemKey, p.id, x);
    if Lists(t, now[p.id := y], ProblemKey) {
      ListedRows(t, was[p.id := x], now[p.id := y], ProblemKey);
      OtherRows(was, now, p.id, x, y, p.(updated := 0), now[p.id].(updated := 0));
    } else if was[p.id := p.(updated := 0)] == now[p.id := now[p.id].(updated := 0)] {
      OtherRows(was, now, p.id, p.(updated := 0), now[p.id].(updated := 0), x, y);
    }
  }

  /** Two tables that agree after one row is set differ at most in that row. */
  lemma OtherRows<R>(a: map<Id, R>, b: map<Id, R>, id: Id, x: R, y: R, u: R, v: R)
    requires id in a && id in b && a[id := x] == b[id := y]
    ensures x == y && (u == v ==> a[id := u] == b[id := v])
  {
    assert a[id := x][id] == b[id := y][id];
    if u == v {
      var l, r := a[id := u], b[id := v];
      forall k | k in l ensures k in r && l[k] == r[k] {
        assert k in a[id := x] && (k != id ==> a[id := x][k] == b[id := y][k]);
      }
      forall k | k in r ensures k in l {
        assert k in b[id := y];
      }
    }
  }

  // ---------------------------------------------------------------- record, then apply

  ghost predicate Recorded(db: Db, d: Document, cmd: Command, now: Time, suffix: Id, x: Execution, c: Candidate, p: Problem)
  {
    && LoadedAs(db, d) && Record(d, cmd, now, suffix) == Ok(x)
    && Find(d.candidates, CandidateKey, cmd.candidate) == Some(c)
    && Find(d.problems, ProblemKey, c.problem) == Some(p)
  }

  lemma RecordedFacts(db: Db, d: Document, cmd: Command, now: Time, suffix: Id, x: Execution, c: Candidate, p: Problem)
    requires Recorded(db, d, cmd, now, suffix, x, c, p)
    ensures c.id == cmd.candidate && c.id in db.candidates && db.candidates[c.id] == c && c.status == SubmissionReady
    ensures p.id == c.problem && p.id in db.problems && db.problems[p.id] == p && p.status == ReadyToSubmit
    ensures db.manifest.id == cmd.competition && db.manifest.status == Active
    ensures x.submission == NewSubmission(cmd, now, suffix) && x.event == NewEvent(cmd, p.id, now, suffix)
    ensures x.document == Updated(d, c, p, x.submission, x.event, now) && ValidDoc(x.document)
    ensures suffix !in db.submissions && suffix !in db.events
  {
    assert CandidateKey(c).id == c.id && ProblemKey(p).id == p.id;
    hide ValidDoc;
    FreshIds(db, d, x, suffix);
  }

  lemma FreshIds(db: Db, d: Document, x: Execution, suffix: Id)
    requires LoadedAs(db, d) && ValidDoc(x.document)
    requires x.document.submissions == d.submissions + [x.submission] && x.submission.id == suffix
    requires x.document.events == d.events + [x.event] && x.event.id == suffix
    ensures suffix !in db.submissions && suffix !in db.events
  {
    LastIsFresh(d.submissions, db.submissions, SubmissionKey, x.submission);
    LastIsFresh(d.events, db.events, EventKey, x.event);
  }

  lemma LastIsFresh<R>(s: seq<R>, rows: map<Id, R>, key: R -> Key, x: R)
    requires Lists(s, rows, key) && UniqueKeys(s + [x], key)
    ensures key(x).id !in rows
  {
    var t := s + [x];
    forall i | 0 <= i < |s| ensures key(s[i]).id != key(x).id {
      assert key(t[i]).id != key(t[|s|]).id;
    }
  }

  /** In a recorded document the lookups of the commit find the two records just changed. */
  lemma CommitFinds(db: Db, d: Document, cmd: Command, now: Time, suffix: Id, x: Execution, c: Candidate, p: Problem)
    requires Recorded(db, d, cmd, now, suffix, x, c, p)
    ensures var c', p' := c.(status := CandidateSubmitted, updated := now), p.(status := Submitted, updated := now);
      && x.submission in x.document.submissions && x.event in x.document.events
      && Find(x.document.candidates, CandidateKey, x.submission.candidate) == Some(c')
      && Find(x.document.problems, ProblemKey, c'.problem) == Some(p')
      && TransitionOk(x.document, x.submission, x.event, c', p')
  {
    RecordedFacts(db, d, cmd, now, suffix, x, c, p);
    var c', p' := c.(status := CandidateSubmitted, updated := now), p.(status := Submitted, updated := now);
    Replaced(d.candidates, CandidateKey, c, c');
    Replaced(d.problems, ProblemKey, p, p');
    FindUnique(x.document.candidates, CandidateKey, c');
    FindUnique(x.document.problems, ProblemKey, p');
  }

  lemma Replaced<R>(s: seq<R>, key: R -> Key, was: R, next: R)
    requires was in s
    ensures next in Replace(s, key, key(was).id, next)
  {
    var i :| 0 <= i < |s| && s[i] == was;
    assert Replace(s, key, key(was).id, next)[i] == next;
  }

  lemma CommitReadsBack(db: Db, d: Document, x: Execution, c: Candidate, p: Problem, current: Db, now: Time)
    requires LoadedAs(db, d) && x.document == Updated(d, c, p, x.submission, x.event, now)
    requires c.id in db.candidates && db.candidates[c.id] == c && c.status == SubmissionReady
    requires p.id in db.problems && db.problems[p.id] == p && p.status == ReadyToSubmit
    requires c.id in current.candidates && current.candidates[c.id].status == SubmissionReady
    requires p.id in current.problems && current.problems[p.id].status == ReadyToSubmit
    requires x.submission.id !in current.submissions && x.event.id !in current.events
    ensures LoadedAs(Written(current, x.document, x.submission, x.event,
                             c.(status := CandidateSubmitted, updated := now), p.(status := Submitted, updated := now)), x.document)
      <==> SameButStamps(db, current, c.id, p.id) && Newest(db, x.submission, x.event)
  {
    ReadsBackParts(db, d, x, c, p, current, now);
    hide Lists, Replace, Written, Updated;
    CandidatesAgree(d.candidates, db.candidates, current.candidates, c, now);
    ProblemsAgree(d.problems, db.problems, current.problems, p, now);
    AppendedLists(d.submissions, db.submissions, current.submissions, SubmissionKey, x.submission);
    AppendedLists(d.events, db.events, current.events, EventKey, x.event);
    ManifestsAgree(db.manifest, current.manifest, now);
  }

  /** The read-back compares the two documents list by list. */
  lemma ReadsBackParts(db: Db, d: Document, x: Execution, c: Candidate, p: Problem, current: Db, now: Time)
    requires c.id in current.candidates && p.id in current.problems && LoadedAs(db, d)
    requires x.document == Updated(d, c, p, x.submission, x.event, now)
    requires current.candidates[c.id].status == SubmissionReady && current.problems[p.id].status == ReadyToSubmit
    ensures LoadedAs(Written(current, x.document, x.submission, x.event,
                             c.(status := CandidateSubmitted, updated := now), p.(status := Submitted, updated := now)), x.document)
      <==> && db.manifest.(updated := now) == current.manifest.(updated := now) && db.rest == current.rest
           && Lists(Replace(d.problems, ProblemKey, p.id, p.(status := Submitted, updated := now)),
                    current.problems[p.id := current.problems[p.id].(status := Submitted, updated := now)], ProblemKey)
           && Lists(Replace(d.candidates, CandidateKey, c.id, c.(status := CandidateSubmitted, updated := now)),
                    current.candidates[c.id := current.candidates[c.id].(status := CandidateSubmitted, updated := now)], CandidateKey)
           && Lists(d.submissions + [x.submission], current.submissions[x.submission.id := x.submission], SubmissionKey)
           && Lists(d.events + [x.event], current.events[x.event.id := x.event], EventKey)
  {
    hide Lists, Replace;
  }

  lemma ManifestsAgree(a: Manifest, b: Manifest, now: Time)
    ensures a.(updated := now) == b.(updated := now) <==> a.(updated := 0) == b.(updated := 0)
  {
  }

  lemma SameRowsAreReady(db: Db, current: Db, c: Id, p: Id)
    requires SameButStamps(db, current, c, p) && RowsReady(db, db.manifest.id, c, p)
    ensures RowsReady(current, db.manifest.id, c, p)
  {
    SameRow(db.candidates, current.candidates, c, db.candidates[c].(updated := 0), current.candidates[c].(updated := 0));
    SameRow(db.problems, current.problems, p, db.problems[p].(updated := 0), current.problems[p].(updated := 0));
  }

  lemma SameRow<R>(a: map<Id, R>, b: map<Id, R>, id: Id, x: R, y: R)
    requires a[id := x] == b[id := y]
    ensures x == y
  {
    assert a[id := x][id] == b[id := y][id];
  }

  lemma SameDomain<R>(a: map<Id, R>, b: map<Id, R>, id: Id, x: R, y: R)
    requires id in a && id in b && a[id := x] == b[id := y]
    ensures forall k: Id :: k in a <==> k in b
  {
    forall k: Id ensures k in a <==> k in b {
      assert k in a[id := x] <==> k in b[id := y];
    }
  }

  /** Exactly when a recorded document commits: the database must still be the one it was loaded
      from, up to the stamps the commit overwrites, and nothing recorded there may sort after the
      new submission and event (the read-back compares lists in time order). */
  lemma RecordedCommitsIff(db: Db, d: Document, cmd: Command, now: Time, suffix: Id, x: Execution, c: Candidate, p: Problem, current: Db)
    requires Recorded(db, d, cmd, now, suffix, x, c, p)
    ensures Apply(current, x.document, x.submission, x.event).Ok?
      <==> SameButStamps(db, current, c.id, p.id) && Newest(db, x.submission, x.event)
  {
    RecordedFacts(db, d, cmd, now, suffix, x, c, p);
    CommitFinds(db, d, cmd, now, suffix, x, c, p);
    assert LoadedAs(db, d);
    hide Recorded, Record, LoadedAs, ValidDoc, TransitionOk, Newest;
    if SameButStamps(db, current, c.id, p.id) {
      SameRowsAreReady(db, current, c.id, p.id);
      SameDomain(db.problems, current.problems, p.id, db.problems[p.id].(updated := 0), current.problems[p.id].(updated := 0));
      hide SameButStamps;
    }
    if RowsReady(current, db.manifest.id, c.id, p.id) && suffix !in current.submissions && suffix !in current.events {
      CommitReadsBack(db, d, x, c, p, current, now);
    }
  }
}
