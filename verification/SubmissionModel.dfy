/** The operations records that a submission touches, the tables that hold them, and the
    document a load makes of the tables (src/scan_tool/domain/operations.py:304-340, 521-605,
    639-805; src/scan_tool/adapters/sqlite_operations.py:386-410, 1020-1058). */
module SubmissionModel {
  import opened Basics

  type Id = nat

  /** Microseconds. */
  type Time = nat

  datatype CompetitionStatus = Setup | Active | Paused | Closed
  datatype ProblemStatus =
    | Captured | Triaged | Queued | Running | Partial | Verifying | ReviewRequired | ReadyToSubmit | Submitted
  datatype CandidateStatus = Draft | NeedsReview | SubmissionReady | CandidateSubmitted | CandidateRejected
  datatype Response = Correct | Incorrect | Unknown
  datatype Actor = Operator | AI | Worker | System

  /** `body` stands for the fields of a record that a submission never looks at. */
  datatype Manifest = Manifest(id: Id, status: CompetitionStatus, created: Time, updated: Time, body: nat)
  datatype Problem = Problem(id: Id, competition: Id, status: ProblemStatus, created: Time, updated: Time, body: nat)
  datatype Candidate = Candidate(id: Id, problem: Id, status: CandidateStatus, created: Time, updated: Time, body: nat)
  datatype Submission = Submission(id: Id, candidate: Id, response: Response, at: Time, note: Option<nat>)

  datatype Details = SubmissionDetails(candidate: Id, response: Response, confirmed: bool) | OtherDetails(nat)

  datatype Event = Event(
    id: Id, competition: Id, problem: Option<Id>, aboutSubmission: bool, entity: Id, recorded: bool,
    actor: Actor, actorId: Id, fromStatus: Option<CandidateStatus>, toStatus: Option<CandidateStatus>,
    details: Details, at: Time)

  datatype Document = Document(
    manifest: Manifest, problems: seq<Problem>, candidates: seq<Candidate>,
    submissions: seq<Submission>, events: seq<Event>, rest: nat)

  datatype Db = Db(
    manifest: Manifest, problems: map<Id, Problem>, candidates: map<Id, Candidate>,
    submissions: map<Id, Submission>, events: map<Id, Event>, rest: nat)

  // ---------------------------------------------------------------- load order

  const SECOND: nat := 1_000_000

  /** Where the stored text of a time sorts: a whole second has no fraction in its text and ends in Z,
      which sorts after the point that starts a fraction. */
  function TextRank(t: Time): nat
  {
    if t % SECOND == 0 then t + SECOND else t
  }

  /** Of two times the later sorts later, unless the earlier is a whole second and the later falls
      within that second. */
  lemma TextOrder(a: Time, b: Time)
    requires a < b
    ensures TextRank(a) != TextRank(b)
    ensures TextRank(b) < TextRank(a) <==> a % SECOND == 0 && b < a + SECOND
  {
    if a % SECOND == 0 && b % SECOND == 0 {
      WholeSeconds(a, b);
    }
    if a % SECOND == 0 && b == a + SECOND {
      assert b % SECOND == 0;
    }
  }

  lemma WholeSeconds(a: Time, b: Time)
    requires a < b && a % SECOND == 0 && b % SECOND == 0
    ensures a + SECOND <= b
  {
    assert a == a / SECOND * SECOND && b == b / SECOND * SECOND;
    assert a / SECOND < b / SECOND;
  }

  /** `rank` is that of the time as text. */
  datatype Key = Key(rank: nat, id: Id)

  predicate Before(a: Key, b: Key)
  {
    a.rank < b.rank || (a.rank == b.rank && a.id < b.id)
  }

  function ProblemKey(p: Problem): Key { Key(0, p.id) }
  function CandidateKey(c: Candidate): Key { Key(TextRank(c.created), c.id) }
  function SubmissionKey(s: Submission): Key { Key(TextRank(s.at), s.id) }
  function EventKey(e: Event): Key { Key(TextRank(e.at), e.id) }

  ghost predicate Ascending<R>(s: seq<R>, key: R -> Key)
  {
    forall i, k :: 0 <= i < k < |s| ==> Before(key(s[i]), key(s[k]))
  }

  /** `s` is the table in ORDER BY order: every row once, and nothing else. */
  ghost predicate Lists<R>(s: seq<R>, rows: map<Id, R>, key: R -> Key)
  {
    && Ascending(s, key)
    && (forall id :: id in rows ==> rows[id] in s && key(rows[id]).id == id)
    && (forall x :: x in s ==> key(x).id in rows && rows[key(x).id] == x)
  }

  /** What loading the tables returns. */
  ghost predicate LoadedAs(db: Db, d: Document)
  {
    && d.manifest == db.manifest && d.rest == db.rest
    && Lists(d.problems, db.problems, ProblemKey)
    && Lists(d.candidates, db.candidates, CandidateKey)
    && Lists(d.submissions, db.submissions, SubmissionKey)
    && Lists(d.events, db.events, EventKey)
  }

  lemma ListsFirst<R>(s: seq<R>, t: seq<R>, rows: map<Id, R>, key: R -> Key)
    requires Lists(s, rows, key) && Lists(t, rows, key) && s != []
    ensures t != [] && s[0] == t[0]
  {
    assert s[0] in s;
    assert rows[key(s[0]).id] in t;
    assert t[0] in t;
    assert rows[key(t[0]).id] in s;
    var i :| 0 <= i < |s| && s[i] == t[0];
    var k :| 0 <= k < |t| && t[k] == s[0];
  }

  /** One table has one listing. */
  lemma {:induction false} ListsUnique<R>(s: seq<R>, t: seq<R>, rows: map<Id, R>, key: R -> Key)
    requires Lists(s, rows, key) && Lists(t, rows, key)
    ensures s == t
  {
    if s == [] || t == [] {
      if s != [] { ListsFirst(s, t, rows, key); }
      if t != [] { ListsFirst(t, s, rows, key); }
    } else {
      ListsFirst(s, t, rows, key);
      var less := rows - {key(s[0]).id};
      ListsTail(s, rows, key);
      ListsTail(t, rows, key);
      ListsUnique(s[1..], t[1..], less, key);
    }
  }

  lemma ListsTail<R>(s: seq<R>, rows: map<Id, R>, key: R -> Key)
    requires Lists(s, rows, key) && s != []
    ensures Lists(s[1..], rows - {key(s[0]).id}, key)
  {
    var less := rows - {key(s[0]).id};
    assert s == [s[0]] + s[1..];
    forall x | x in s[1..] ensures key(x).id in less && less[key(x).id] == x {
      var i :| 0 <= i < |s[1..]| && s[1..][i] == x;
      assert Before(key(s[0]), key(s[i + 1]));
      assert x in s && s[0] in s;
    }
  }

  lemma LoadIsUnique(db: Db, a: Document, b: Document)
    requires LoadedAs(db, a) && LoadedAs(db, b)
    ensures a == b
  {
    ListsUnique(a.problems, b.problems, db.problems, ProblemKey);
    ListsUnique(a.candidates, b.candidates, db.candidates, CandidateKey);
    ListsUnique(a.submissions, b.submissions, db.submissions, SubmissionKey);
    ListsUnique(a.events, b.events, db.events, EventKey);
  }

  /** A new last row extends the listing exactly when it sorts after every row there is. */
  lemma ListsAppend<R>(s: seq<R>, rows: map<Id, R>, key: R -> Key, x: R)
    requires Lists(s, rows, key) && key(x).id !in rows
    ensures Lists(s + [x], rows[key(x).id := x], key) <==> forall id :: id in rows ==> Before(key(rows[id]), key(x))
  {
    var t, more := s + [x], rows[key(x).id := x];
    assert t[|s|] == x && x in t;
    assert forall y :: y in t <==> y in s || y == x;
    if forall id :: id in rows ==> Before(key(rows[id]), key(x)) {
      forall i, k | 0 <= i < k < |t| ensures Before(key(t[i]), key(t[k])) {
        if k == |s| {
          assert s[i] in s;
        }
      }
    }
    if Lists(t, more, key) {
      forall id | id in rows ensures Before(key(rows[id]), key(x)) {
        assert rows[id] in s;
        var i :| 0 <= i < |s| && s[i] == rows[id];
        assert Before(key(t[i]), key(t[|s|]));
      }
    }
  }

  // ---------------------------------------------------------------- validated documents

  ghost predicate UniqueKeys<R>(s: seq<R>, key: R -> Key)
  {
    forall i, k :: 0 <= i < k < |s| ==> key(s[i]).id != key(s[k]).id
  }

  /** The reference checks that every document passes when it is built. */
  ghost predicate ValidDoc(d: Document)
  {
    && UniqueKeys(d.problems, ProblemKey) && UniqueKeys(d.candidates, CandidateKey)
    && UniqueKeys(d.submissions, SubmissionKey) && UniqueKeys(d.events, EventKey)
    && d.manifest.created <= d.manifest.updated
    && (forall p :: p in d.problems ==> p.competition == d.manifest.id && p.created <= p.updated)
    && (forall c :: c in d.candidates ==> c.created <= c.updated && HasProblem(d, c.problem))
    && (forall s :: s in d.submissions ==> exists c :: c in d.candidates && c.id == s.candidate && c.status == CandidateSubmitted)
    && (forall e :: e in d.events ==> e.competition == d.manifest.id && (e.problem.Some? ==> HasProblem(d, e.problem.value)))
  }

  ghost predicate HasProblem(d: Document, id: Id)
  {
    exists p :: p in d.problems && p.id == id
  }
}
