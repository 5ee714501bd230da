/** The activity repository as it runs: the worker's transitions of Pod and windows, and the submission
    transactions. */
module ActivityRepository {
  import opened Basics
  import opened Rows
  import opened Database
  import opened Lifecycle
  import I = Invariants
  import T = Transactions

  method ActivateMemberships(database: Database)
    modifies database`memberships
    ensures database.memberships == ActivateAll(old(database.memberships))
  {
    database.memberships := map m | m in database.memberships ::
      var r := database.memberships[m];
      if r.state == RosterLocked then r.(state := MemberActive) else r;
  }

  /** The loop over the occurrences of an active Pod; a window that is already in its state is skipped. */
  method AdvanceOccurrences(database: Database, now: Time) returns (advanced: nat)
    modifies database`occurrences
    ensures database.occurrences == AdvanceWindows(old(database.occurrences), now)
    ensures advanced == |set k | 0 <= k < |old(database.occurrences)|
                              && WindowStateAt(old(database.occurrences)[k], now) != old(database.occurrences)[k].state|
  {
    hide WindowStateAt;
    advanced := 0;
    ghost var before := database.occurrences;
    ghost var moved: set<int> := {};
    for k := 0 to |database.occurrences|
      invariant |database.occurrences| == |before|
      invariant forall j | k <= j < |before| :: database.occurrences[j] == before[j]
      invariant forall j | 0 <= j < k ::
                  database.occurrences[j] == before[j].(state := WindowStateAt(before[j], now))
      invariant moved == set j | 0 <= j < k && WindowStateAt(before[j], now) != before[j].state
      invariant advanced == |moved|
    {
      var occurrence := database.occurrences[k];
      var state := WindowStateAt(occurrence, now);
      if state != occurrence.state {
        database.occurrences := database.occurrences[k := occurrence.(state := state)];
        advanced := advanced + 1;
        moved := moved + {k};
      }
    }
  }

  /** The last closing time has passed. */
  method AllClosedBy(occurrences: seq<Occurrence>, now: Time) returns (closed: bool)
    requires occurrences != []
    ensures closed <==> forall k | 0 <= k < |occurrences| :: occurrences[k].closesAt <= now
  {
    var last := occurrences[0].closesAt;
    for k := 0 to |occurrences|
      invariant forall j | 0 <= j < k :: occurrences[j].closesAt <= last
      invariant exists j :: 0 <= j < |occurrences| && occurrences[j].closesAt == last
    {
      if last < occurrences[k].closesAt {
        last := occurrences[k].closesAt;
      }
    }
    closed := last <= now;
  }

  method RunOccurrenceTransitions(database: Database, now: Time) returns (reply: Reply)
    requires database.Valid() && database.clock <= now
    modifies database
    ensures database.Valid()
    ensures Step(database.Rows(), reply) == RunTransitions(T.Wait(old(database.Rows()), now), now)
  {
    hide I.Inv, ActivateAll, AdvanceWindows, WindowStateAt, ReviewPending;
    database.Begin(now);
    T.LiveKeeps(database.Rows(), T.RunTransitions);
    ghost var before := database.Rows();
    if database.pod.state == LockedScheduled && database.occurrences != [] && database.occurrences[0].opensAt <= now {
      ActivateMemberships(database);
      database.pod := database.pod.(state := PodActive);
    }
    assert database.Rows() == Activate(before, now);
    if database.pod.state == PodActive {
      var advanced := AdvanceOccurrences(database, now);
    }
    assert database.Rows() == Advance(Activate(before, now), now);
    if database.pod.state == PodActive && database.occurrences != [] {
      var closed := AllClosedBy(database.occurrences, now);
      if closed {
        database.pod := database.pod.(state := FinalReview);
      }
    }
    assert database.Rows() == End(Advance(Activate(before, now), now), now);
    if database.pod.state == FinalReview && database.pod.contract.mode == FullRefundAlpha {
      if !ReviewPending(database.Rows()) {
        database.pod := database.pod.(state := Completed);
      }
    }
    return Done;
  }

  method SaveSubmissionDraft(database: Database, now: Time, s: SubmissionId, accepted: bool) returns (reply: Reply)
    requires database.Valid() && database.clock <= now
    modifies database
    ensures database.Valid()
    ensures Step(database.Rows(), reply) == SaveDraft(T.Wait(old(database.Rows()), now), now, s, accepted)
  {
    hide I.Inv, IndexOf;
    database.Begin(now);
    T.LiveKeeps(database.Rows(), T.SaveDraft(s, accepted));
    var k := IndexOf(database.occurrences, s.occurrence);
    if s.membership !in database.memberships || k == |database.occurrences| {
      return Thrown;
    }
    if database.pod.state != PodActive || database.memberships[s.membership].state != MemberActive {
      return Thrown;
    }
    var occurrence := database.occurrences[k];
    if now < occurrence.opensAt || occurrence.closesAt <= now {
      return Thrown;
    }
    if s in database.submissions && database.submissions[s].state != Draft {
      return Thrown;
    }
    if !accepted {
      return Thrown;
    }
    if s !in database.submissions {
      database.submissions := database.submissions[s := Submission(Draft, None)];
    }
    return Done;
  }

  method SubmitOccurrenceEvidence(database: Database, now: Time, s: SubmissionId, accepted: bool)
    returns (reply: Reply)
    requires database.Valid() && database.clock <= now
    modifies database
    ensures database.Valid()
    ensures Step(database.Rows(), reply) == SubmitEvidence(T.Wait(old(database.Rows()), now), now, s, accepted)
  {
    hide I.Inv, IndexOf;
    database.Begin(now);
    T.LiveKeeps(database.Rows(), T.SubmitEvidence(s, accepted));
    var k := IndexOf(database.occurrences, s.occurrence);
    if s !in database.submissions || k == |database.occurrences| || database.submissions[s].state != Draft {
      return Thrown;
    }
    if database.occurrences[k].closesAt <= now {
      return Thrown;
    }
    var reviewing := NextSubmissionState(Draft, Submit, Participant);
    if !accepted || reviewing != Some(Reviewing) {
      return Thrown;
    }
    database.submissions := database.submissions[s := Submission(reviewing.value, Some(now + REVIEW_HOURS_MILLIS))];
    return Done;
  }

  method DecideSubmissionAsCreator(database: Database, now: Time, s: SubmissionId, decision: Decision, authorized: bool)
    returns (reply: Reply)
    requires database.Valid() && database.clock <= now
    modifies database
    ensures database.Valid()
    ensures Step(database.Rows(), reply)
         == Decide(T.Wait(old(database.Rows()), now), now, s, decision, authorized)
  {
    hide I.Inv;
    database.Begin(now);
    T.LiveKeeps(database.Rows(), T.Decide(s, decision, authorized));
    if !authorized || s !in database.submissions {
      return Nothing;
    }
    var submission := database.submissions[s];
    if submission.state != Reviewing {
      return Nothing;
    }
    if submission.hardDeadline.None? || submission.hardDeadline.value <= now {
      var timedOut := NextSubmissionState(Reviewing, ProtectTimeout, System);
      database.submissions := database.submissions[s := submission.(state := timedOut.value)];
      return Done;
    }
    if decision.None? {
      return Thrown;
    }
    var next := NextSubmissionState(Reviewing, decision.value, Creator);
    if next.None? {
      return Thrown;
    }
    database.submissions := database.submissions[s := submission.(state := next.value)];
    return Done;
  }

  function Listed(list: seq<SubmissionId>): set<SubmissionId> {
    set s | s in list
  }

  /** The loop over the due reviews, whatever rows the query returned and locked. */
  method ProtectTimedOutReviewBatch(database: Database, now: Time, due: seq<SubmissionId>) returns (reply: Reply)
    requires database.Valid() && database.clock <= now
    requires forall s | s in due :: s in database.submissions && Overdue(database.submissions[s], now)
    modifies database
    ensures database.Valid()
    ensures Step(database.Rows(), reply)
         == ProtectTimedOut(T.Wait(old(database.Rows()), now), now, Listed(due))
  {
    hide I.Inv, Overdue;
    database.Begin(now);
    ghost var before := database.Rows();
    T.LiveKeeps(before, T.ProtectTimedOut(Listed(due)));
    var timedOut := NextSubmissionState(Reviewing, ProtectTimeout, System);
    for j := 0 to |due|
      invariant database.Rows() == before.(submissions := database.submissions)
      invariant database.submissions == Protected(before.submissions, Listed(due[..j]))
    {
      var s := due[j];
      assert due[..j + 1] == due[..j] + [s];
      assert Listed(due[..j + 1]) == Listed(due[..j]) + {s};
      IsReviewing(before.submissions[s], now);
      ProtectOne(before.submissions, Listed(due[..j]), s);
      var submission := database.submissions[s];
      if submission.state == Reviewing {
        database.submissions := database.submissions[s := submission.(state := timedOut.value)];
      }
    }
    assert due[..|due|] == due;
    AllProtected(before, now, Listed(due));
    return Done;
  }

  function Protected(submissions: map<SubmissionId, Submission>, done: set<SubmissionId>)
    : map<SubmissionId, Submission>
  {
    map s | s in submissions :: if s in done then submissions[s].(state := ReviewTimedOut) else submissions[s]
  }

  lemma IsReviewing(row: Submission, now: Time)
    requires Overdue(row, now)
    ensures row.state == Reviewing
  {
  }

  lemma ProtectOne(submissions: map<SubmissionId, Submission>, done: set<SubmissionId>, s: SubmissionId)
    requires s in submissions && submissions[s].state == Reviewing
    ensures Protected(submissions, done + {s})
         == Protected(submissions, done)[s := submissions[s].(state := ReviewTimedOut)]
  {
  }

  lemma AllProtected(db: Db, now: Time, batch: set<SubmissionId>)
    requires forall s | s in batch :: s in db.submissions && Overdue(db.submissions[s], now)
    ensures ProtectTimedOut(db, now, batch).db.submissions == Protected(db.submissions, batch)
  {
  }
}
