/** A recorded submission that an unchanged database refuses
    (src/scan_tool/adapters/sqlite_operations.py:450-485, 1020-1058). */
module SubmissionWitness {
  import opened Basics
  import opened SubmissionModel
  import opened Submissions

  /** On the very database it was loaded from, a recorded document commits or fails the read-back,
      according to whether its records sort last. */
  lemma UnchangedDatabase(db: Db, d: Document, cmd: Command, now: Time, suffix: Id, x: Execution, c: Candidate, p: Problem)
    requires Recorded(db, d, cmd, now, suffix, x, c, p)
    ensures !Newest(db, x.submission, x.event) ==> Apply(db, x.document, x.submission, x.event) == Err(ReadBackMismatch)
    ensures Newest(db, x.submission, x.event) ==> Apply(db, x.document, x.submission, x.event).Ok?
  {
    hide Recorded, Record, LoadedAs, ValidDoc, TransitionOk, Newest, Apply, SameButStamps, Find;
    RecordedFacts(db, d, cmd, now, suffix, x, c, p);
    CommitFinds(db, d, cmd, now, suffix, x, c, p);
    RecordedCommitsIff(db, d, cmd, now, suffix, x, c, p, db);
    SameAsItself(db, c.id, p.id);
    CommitReaches(db, x, c.(status := CandidateSubmitted, updated := now), p.(status := Submitted, updated := now));
  }

  lemma SameAsItself(db: Db, c: Id, p: Id)
    requires c in db.candidates && p in db.problems
    ensures SameButStamps(db, db, c, p)
  {
  }

  /** A commit whose records are found and whose rows are ready gets as far as the read-back. */
  lemma CommitReaches(db: Db, x: Execution, c: Candidate, p: Problem)
    requires x.submission in x.document.submissions && x.event in x.document.events
    requires Find(x.document.candidates, CandidateKey, x.submission.candidate) == Some(c)
    requires Find(x.document.problems, ProblemKey, c.problem) == Some(p)
    requires TransitionOk(x.document, x.submission, x.event, c, p)
    requires RowsReady(db, x.document.manifest.id, c.id, p.id) && InsertsOk(db, x.submission, x.event)
    ensures !Apply(db, x.document, x.submission, x.event).Ok? ==> Apply(db, x.document, x.submission, x.event) == Err(ReadBackMismatch)
  {
    hide TransitionOk, RowsReady, InsertsOk, LoadedAs, Find;
  }

  // ---------------------------------------------------------------- one stored event

  const MANIFEST := Manifest(1, Active, 0, 0, 0)
  const PROBLEM := Problem(1, 1, ReadyToSubmit, 0, 0, 0)
  const CANDIDATE := Candidate(1, 1, SubmissionReady, 0, 0, 0)
  const COMMAND := Command(1, 1, Correct, 9)

  function Stored(at: Time): Event
  {
    Event(5, 1, None, false, 0, false, System, 0, None, None, OtherDetails(0), at)
  }

  function Tables(at: Time): Db
  {
    Db(MANIFEST, map[1 := PROBLEM], map[1 := CANDIDATE], map[], map[5 := Stored(at)], 0)
  }

  function Loaded(at: Time): Document
  {
    Document(MANIFEST, [PROBLEM], [CANDIDATE], [], [Stored(at)], 0)
  }

  lemma ListsOne<R>(x: R, key: R -> Key)
    ensures Lists([x], map[key(x).id := x], key)
  {
  }

  lemma WitnessLoads(at: Time)
    ensures LoadedAs(Tables(at), Loaded(at))
  {
    ListsOne(PROBLEM, ProblemKey);
    ListsOne(CANDIDATE, CandidateKey);
    ListsOne(Stored(at), EventKey);
  }

  lemma WitnessDocument(at: Time, now: Time, s: Submission, e: Event)
    requires s == NewSubmission(COMMAND, now, 7) && e == NewEvent(COMMAND, 1, now, 7)
    ensures ValidDoc(Updated(Loaded(at), CANDIDATE, PROBLEM, s, e, now))
  {
    var u := Updated(Loaded(at), CANDIDATE, PROBLEM, s, e, now);
    var c, p := CANDIDATE.(status := CandidateSubmitted, updated := now), PROBLEM.(status := Submitted, updated := now);
    assert u.candidates == [c] && u.problems == [p] && u.submissions == [s] && u.events == [Stored(at), e];
    assert p in u.problems && c in u.candidates;
    assert HasProblem(u, 1);
  }

  /** A stored event whose time text sorts after the operator's clock: the submission records, and its
      commit on the unchanged database is a read-back mismatch. */
  lemma StoredEventRefuses(at: Time, now: Time) returns (x: Execution)
    requires TextRank(now) < TextRank(at)
    ensures Recorded(Tables(at), Loaded(at), COMMAND, now, 7, x, CANDIDATE, PROBLEM)
    ensures Apply(Tables(at), x.document, x.submission, x.event) == Err(ReadBackMismatch)
  {
    var s, e := NewSubmission(COMMAND, now, 7), NewEvent(COMMAND, 1, now, 7);
    WitnessLoads(at);
    WitnessDocument(at, now, s, e);
    x := Execution(Updated(Loaded(at), CANDIDATE, PROBLEM, s, e, now), s, e);
    hide ValidDoc, Updated, LoadedAs, Apply;
    assert Record(Loaded(at), COMMAND, now, 7) == Ok(x);
    assert !Before(EventKey(Tables(at).events[5]), EventKey(x.event));
    UnchangedDatabase(Tables(at), Loaded(at), COMMAND, now, 7, x, CANDIDATE, PROBLEM);
  }

  /** The only stored event is later than the operator's clock. */
  lemma ClockBehindIsRefused() returns (x: Execution)
    ensures Recorded(Tables(100), Loaded(100), COMMAND, 10, 7, x, CANDIDATE, PROBLEM)
    ensures Apply(Tables(100), x.document, x.submission, x.event) == Err(ReadBackMismatch)
  {
    x := StoredEventRefuses(100, 10);
  }

  /** The only stored event is half a second earlier than the operator's clock, on the whole second. */
  lemma EarlierEventRefuses() returns (x: Execution)
    ensures Recorded(Tables(1_000_000), Loaded(1_000_000), COMMAND, 1_500_000, 7, x, CANDIDATE, PROBLEM)
    ensures Apply(Tables(1_000_000), x.document, x.submission, x.event) == Err(ReadBackMismatch)
  {
    TextOrder(1_000_000, 1_500_000);
    x := StoredEventRefuses(1_000_000, 1_500_000);
  }
}
