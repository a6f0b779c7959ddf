/** When a submission can be recorded, what is recorded, and what a commit refuses, in the records' own
    fields (src/scan_tool/application/submission.py:64-180; src/scan_tool/adapters/sqlite_operations.py:378-485). */
module SubmissionLaws {
  import opened Basics
  import opened SubmissionModel
  import opened Submissions

  // ---------------------------------------------------------------- the order of listings

  /** Listings go by the text of the time, and at one time by identifier; problems by identifier only. */
  lemma ListingOrder(s: Submission, t: Submission, e: Event, f: Event, c: Candidate, d: Candidate, p: Problem, q: Problem)
    ensures Before(SubmissionKey(s), SubmissionKey(t)) <==> TextRank(s.at) < TextRank(t.at) || (s.at == t.at && s.id < t.id)
    ensures Before(EventKey(e), EventKey(f)) <==> TextRank(e.at) < TextRank(f.at) || (e.at == f.at && e.id < f.id)
    ensures Before(CandidateKey(c), CandidateKey(d))
      <==> TextRank(c.created) < TextRank(d.created) || (c.created == d.created && c.id < d.id)
    ensures Before(ProblemKey(p), ProblemKey(q)) <==> p.id < q.id
  {
    SameRank(s.at, t.at);
    SameRank(e.at, f.at);
    SameRank(c.created, d.created);
  }

  lemma SameRank(a: Time, b: Time)
    ensures TextRank(a) == TextRank(b) <==> a == b
  {
    if a < b { TextOrder(a, b); }
    if b < a { TextOrder(b, a); }
  }

  // ---------------------------------------------------------------- recording

  /** The candidate waits to be submitted in a running competition, and so does its problem; it was not
      submitted before; the new identifiers are free; and the clock is not behind its records. */
  ghost predicate CanRecord(d: Document, cmd: Command, now: Time, suffix: Id, c: Candidate, p: Problem)
  {
    && d.manifest.id == cmd.competition && d.manifest.status == Active
    && c in d.candidates && c.id == cmd.candidate && c.status == SubmissionReady
    && p in d.problems && p.id == c.problem && p.status == ReadyToSubmit
    && (forall s :: s in d.submissions ==> s.candidate != cmd.candidate && s.id != suffix)
    && (forall e :: e in d.events ==> e.id != suffix)
    && c.created <= now && p.created <= now && d.manifest.created <= now
  }

  /** The submission and the operator's event, one suffix naming both, at the time of the clock. */
  predicate NewRecords(cmd: Command, now: Time, suffix: Id, problem: Id, s: Submission, e: Event)
  {
    && s.id == suffix && s.candidate == cmd.candidate && s.response == cmd.response && s.at == now && s.note == None
    && e.id == suffix && e.competition == cmd.competition && e.problem == Some(problem) && e.entity == s.id && e.at == now
    && e.aboutSubmission && e.recorded && e.actor == Operator && e.actorId == cmd.actorId
    && e.fromStatus == Some(SubmissionReady) && e.toStatus == Some(CandidateSubmitted)
    && e.details == SubmissionDetails(cmd.candidate, cmd.response, true)
  }

  /** Two statuses move and three stamps are set; the two records come last; nothing else changes. */
  ghost predicate Moves(d: Document, u: Document, c: Id, p: Id, now: Time, s: Submission, e: Event)
  {
    && u.manifest == d.manifest.(updated := now) && u.rest == d.rest
    && u.submissions == d.submissions + [s] && u.events == d.events + [e]
    && |u.candidates| == |d.candidates| && (forall i :: 0 <= i < |d.candidates| ==> CandidateMoves(d.candidates[i], u.candidates[i], c, now))
    && |u.problems| == |d.problems| && (forall i :: 0 <= i < |d.problems| ==> ProblemMoves(d.problems[i], u.problems[i], p, now))
  }

  predicate CandidateMoves(was: Candidate, next: Candidate, c: Id, now: Time)
  {
    next == if was.id == c then was.(status := CandidateSubmitted, updated := now) else was
  }

  predicate ProblemMoves(was: Problem, next: Problem, p: Id, now: Time)
  {
    next == if was.id == p then was.(status := Submitted, updated := now) else was
  }

  lemma UpdatedMoves(d: Document, c: Candidate, p: Problem, s: Submission, e: Event, now: Time)
    requires ValidDoc(d) && c in d.candidates && p in d.problems
    ensures Moves(d, Updated(d, c, p, s, e, now), c.id, p.id, now, s, e)
  {
    forall i | 0 <= i < |d.candidates| && d.candidates[i].id == c.id ensures d.candidates[i] == c {
      SameIdSame(d.candidates, CandidateKey, d.candidates[i], c);
    }
    forall i | 0 <= i < |d.problems| && d.problems[i].id == p.id ensures d.problems[i] == p {
      SameIdSame(d.problems, ProblemKey, d.problems[i], p);
    }
    hide ValidDoc;
  }

  lemma SameIdSame<R>(s: seq<R>, key: R -> Key, x: R, y: R)
    requires UniqueKeys(s, key) && x in s && y in s && key(x).id == key(y).id
    ensures x == y
  {
    var i :| 0 <= i < |s| && s[i] == x;
    var k :| 0 <= k < |s| && s[k] == y;
  }

  lemma FoundIs<R>(s: seq<R>, key: R -> Key, id: Id, x: R)
    requires UniqueKeys(s, key) && x in s && key(x).id == id
    ensures Find(s, key, id) == Some(x)
  {
    FindUnique(s, key, x);
  }

  lemma AppendedUnique<R>(s: seq<R>, key: R -> Key, x: R)
    requires UniqueKeys(s, key)
    ensures UniqueKeys(s + [x], key) <==> forall y :: y in s ==> key(y).id != key(x).id
  {
    var t := s + [x];
    if UniqueKeys(t, key) {
      forall y | y in s ensures key(y).id != key(x).id {
        var i :| 0 <= i < |s| && s[i] == y;
        assert key(t[i]).id != key(t[|s|]).id;
      }
    }
    if forall y :: y in s ==> key(y).id != key(x).id {
      forall i, k | 0 <= i < k < |t| ensures key(t[i]).id != key(t[k]).id {
        assert t[i] in s;
        assert k < |s| ==> key(s[i]).id != key(s[k]).id;
      }
    }
  }

  lemma ReplacedUnique<R>(s: seq<R>, key: R -> Key, x: R, next: R)
    requires UniqueKeys(s, key) && key(next).id == key(x).id
    ensures UniqueKeys(Replace(s, key, key(x).id, next), key)
    ensures forall y :: y in Replace(s, key, key(x).id, next) ==> y == next || (y in s && key(y).id != key(x).id)
  {
    var t := Replace(s, key, key(x).id, next);
    forall i | 0 <= i < |s| ensures key(t[i]).id == key(s[i]).id {
    }
    forall y | y in t ensures y == next || (y in s && key(y).id != key(x).id) {
      var i :| 0 <= i < |t| && t[i] == y;
    }
  }

  lemma ProblemsStay(d: Document, u: Document, p: Problem, now: Time, id: Id)
    requires u.problems == Replace(d.problems, ProblemKey, p.id, p.(status := Submitted, updated := now))
    ensures HasProblem(u, id) <==> HasProblem(d, id)
  {
    var next := p.(status := Submitted, updated := now);
    forall i | 0 <= i < |d.problems| ensures u.problems[i].id == d.problems[i].id {
      assert ProblemKey(d.problems[i]).id == d.problems[i].id;
    }
    if x :| x in d.problems && x.id == id {
      var i :| 0 <= i < |d.problems| && d.problems[i] == x;
      assert u.problems[i] in u.problems;
    }
    if x :| x in u.problems && x.id == id {
      var i :| 0 <= i < |u.problems| && u.problems[i] == x;
      assert d.problems[i] in d.problems;
    }
  }

  /** The records of the updated document that change are in order exactly when the clock is not behind. */
  lemma RowsValid(d: Document, c: Candidate, p: Problem, s: Submission, e: Event, now: Time)
    requires ValidDoc(d) && c in d.candidates && p in d.problems
    ensures var u := Updated(d, c, p, s, e, now);
      && UniqueKeys(u.problems, ProblemKey) && UniqueKeys(u.candidates, CandidateKey)
      && ((forall x :: x in u.problems ==> x.competition == u.manifest.id && x.created <= x.updated) <==> p.created <= now)
      && ((forall x :: x in u.candidates ==> x.created <= x.updated && HasProblem(u, x.problem)) <==> c.created <= now)
  {
    var u := Updated(d, c, p, s, e, now);
    var c', p' := c.(status := CandidateSubmitted, updated := now), p.(status := Submitted, updated := now);
    ReplacedUnique(d.problems, ProblemKey, p, p');
    ReplacedUnique(d.candidates, CandidateKey, c, c');
    Replaced(d.problems, ProblemKey, p, p');
    Replaced(d.candidates, CandidateKey, c, c');
    forall id ensures HasProblem(u, id) <==> HasProblem(d, id) {
      ProblemsStay(d, u, p, now, id);
    }
    hide Replace, HasProblem;
  }

  lemma ReferencesValid(d: Document, c: Candidate, p: Problem, s: Submission, e: Event, now: Time)
    requires ValidDoc(d) && c in d.candidates && p in d.problems && c.status == SubmissionReady
    requires s.candidate == c.id && e.competition == d.manifest.id && e.problem == Some(p.id)
    ensures var u := Updated(d, c, p, s, e, now);
      && (forall x :: x in u.submissions ==> exists y :: y in u.candidates && y.id == x.candidate && y.status == CandidateSubmitted)
      && (forall x :: x in u.events ==> x.competition == u.manifest.id && (x.problem.Some? ==> HasProblem(u, x.problem.value)))
  {
    var u := Updated(d, c, p, s, e, now);
    var c' := c.(status := CandidateSubmitted, updated := now);
    forall id ensures HasProblem(u, id) <==> HasProblem(d, id) {
      ProblemsStay(d, u, p, now, id);
    }
    assert HasProblem(d, p.id);
    hide HasProblem;
    Replaced(d.candidates, CandidateKey, c, c');
    forall x | x in u.submissions ensures exists y :: y in u.candidates && y.id == x.candidate && y.status == CandidateSubmitted {
      if x == s {
        assert c' in u.candidates;
      } else {
        assert x in d.submissions;
        var y :| y in d.candidates && y.id == x.candidate && y.status == CandidateSubmitted;
        OthersStay(d.candidates, c, c', y);
      }
    }
  }

  lemma OthersStay(s: seq<Candidate>, c: Candidate, next: Candidate, y: Candidate)
    requires UniqueKeys(s, CandidateKey) && y in s && c in s && y != c
    ensures y in Replace(s, CandidateKey, c.id, next)
  {
    if CandidateKey(y).id == CandidateKey(c).id {
      SameIdSame(s, CandidateKey, y, c);
    }
    var i :| 0 <= i < |s| && s[i] == y;
    assert Replace(s, CandidateKey, c.id, next)[i] == y;
  }

  /** The updated document is valid exactly when the identifiers are free and the clock is not behind. */
  lemma UpdatedIsValidIff(d: Document, c: Candidate, p: Problem, s: Submission, e: Event, now: Time)
    requires ValidDoc(d) && c in d.candidates && p in d.problems && c.status == SubmissionReady
    requires s.candidate == c.id && e.competition == d.manifest.id && e.problem == Some(p.id)
    ensures ValidDoc(Updated(d, c, p, s, e, now)) <==>
      && (forall x :: x in d.submissions ==> x.id != s.id) && (forall x :: x in d.events ==> x.id != e.id)
      && c.created <= now && p.created <= now && d.manifest.created <= now
  {
    RowsValid(d, c, p, s, e, now);
    ReferencesValid(d, c, p, s, e, now);
    AppendedUnique(d.submissions, SubmissionKey, s);
    AppendedUnique(d.events, EventKey, e);
    assert forall x :: x in d.submissions ==> SubmissionKey(x).id == x.id;
    assert forall x :: x in d.events ==> EventKey(x).id == x.id;
    hide Replace, HasProblem, UniqueKeys;
  }

  /** A command is recorded exactly when its candidate and problem are ready, and what is recorded is
      exactly the move and the two records. */
  lemma RecordedIff(d: Document, cmd: Command, now: Time, suffix: Id)
    requires ValidDoc(d)
    ensures Record(d, cmd, now, suffix).Ok? <==> exists c, p :: CanRecord(d, cmd, now, suffix, c, p)
    ensures Record(d, cmd, now, suffix).Ok?
      ==> exists c, p :: CanRecord(d, cmd, now, suffix, c, p) && Records(d, cmd, now, suffix, p.id, Record(d, cmd, now, suffix).value)
  {
    if Record(d, cmd, now, suffix).Ok? {
      OkIsPossible(d, cmd, now, suffix);
    }
    if c, p :| CanRecord(d, cmd, now, suffix, c, p) {
      PossibleIsOk(d, cmd, now, suffix, c, p);
    }
  }

  ghost predicate Records(d: Document, cmd: Command, now: Time, suffix: Id, problem: Id, x: Execution)
  {
    NewRecords(cmd, now, suffix, problem, x.submission, x.event) && Moves(d, x.document, cmd.candidate, problem, now, x.submission, x.event)
  }

  lemma OkIsPossible(d: Document, cmd: Command, now: Time, suffix: Id)
    requires ValidDoc(d) && Record(d, cmd, now, suffix).Ok?
    ensures exists c, p :: CanRecord(d, cmd, now, suffix, c, p) && Records(d, cmd, now, suffix, p.id, Record(d, cmd, now, suffix).value)
  {
    hide ValidDoc, Find, Updated, Moves;
    var c := Find(d.candidates, CandidateKey, cmd.candidate).value;
    var p := Find(d.problems, ProblemKey, c.problem).value;
    assert CandidateKey(c).id == c.id && ProblemKey(p).id == p.id;
    var s, e := NewSubmission(cmd, now, suffix), NewEvent(cmd, p.id, now, suffix);
    UpdatedIsValidIff(d, c, p, s, e, now);
    UpdatedMoves(d, c, p, s, e, now);
    assert CanRecord(d, cmd, now, suffix, c, p);
  }

  lemma PossibleIsOk(d: Document, cmd: Command, now: Time, suffix: Id, c: Candidate, p: Problem)
    requires ValidDoc(d) && CanRecord(d, cmd, now, suffix, c, p)
    ensures Record(d, cmd, now, suffix).Ok?
  {
    assert UniqueKeys(d.candidates, CandidateKey) && UniqueKeys(d.problems, ProblemKey);
    hide ValidDoc, Find, Updated, UniqueKeys;
    FoundIs(d.candidates, CandidateKey, c.id, c);
    FoundIs(d.problems, ProblemKey, p.id, p);
    UpdatedIsValidIff(d, c, p, NewSubmission(cmd, now, suffix), NewEvent(cmd, p.id, now, suffix), now);
  }

  // ---------------------------------------------------------------- refusals

  /** A commit that went through cannot be repeated. */
  lemma SecondCommitIsRefused(db: Db, d: Document, s: Submission, e: Event)
    requires Apply(db, d, s, e).Ok?
    ensures Apply(Apply(db, d, s, e).value, d, s, e) == Err(PreconditionFailed)
  {
    ApplyIsLegal(db, d, s, e);
    var c := Find(d.candidates, CandidateKey, s.candidate).value;
    assert CandidateKey(c).id == c.id;
    hide LoadedAs, Find, TransitionOk, LegalStep;
  }

  predicate OneMore(db: Db, t: Db, e: Event)
  {
    && t.events.Keys == db.events.Keys + {e.id} && t.events[e.id] == e
    && forall id :: id in db.events ==> t.events[id] == db.events[id]
  }

  /** An event is appended exactly when its identifier is free and what it refers to exists; nothing else
      changes. */
  lemma AppendIff(db: Db, e: Event)
    ensures Append(db, e).Ok? <==> (e.id !in db.events && e.competition == db.manifest.id && forall p :: e.problem == Some(p) ==> p in db.problems)
    ensures Append(db, e).Ok? ==> Append(db, e).value.(events := db.events) == db && OneMore(db, Append(db, e).value, e)
  {
  }
}
