/** Windows, submissions and reviews on the rows: what each transaction leaves, by states and times alone. */
module ReviewRows {
  import opened Basics
  import opened Rows
  import opened Invariants
  import opened Lifecycle
  import LifecycleKeeps

  // ---------------------------------------------------------------------------------------------
  // Submissions.
  // ---------------------------------------------------------------------------------------------

  predicate InState(db: Db, s: SubmissionId, state: SubmissionState) {
    s in db.submissions && db.submissions[s].state == state
  }

  /** The step ran and left exactly this row for `s`, and nothing else changed. */
  predicate LeavesRow(db: Db, step: Step, s: SubmissionId, row: Submission) {
    step == Step(db.(submissions := db.submissions[s := row]), Done)
  }

  lemma FoundAt(db: Db, s: SubmissionId, k: nat)
    requires CalendarOk(db.pod.contract, db.occurrences)
    requires k < |db.occurrences| && db.occurrences[k].id == s.occurrence
    ensures IndexOf(db.occurrences, s.occurrence) == k
  {
    var j := IndexOf(db.occurrences, s.occurrence);
    assert j < |db.occurrences|;
  }

  /** A draft is saved exactly by an active member of an active Pod while the window is open, on no row or another
      draft; a new draft has no deadline, an old one stays, and everything else throws. */
  lemma SaveDraftByRows(db: Db, now: Time, s: SubmissionId, accepted: bool, k: nat)
    requires Inv(db) && k < |db.occurrences| && db.occurrences[k].id == s.occurrence
    ensures var step := SaveDraft(db, now, s, accepted);
            var may := && accepted && db.pod.state == PodActive
                       && s.membership in db.memberships && db.memberships[s.membership].state == MemberActive
                       && db.occurrences[k].opensAt <= now < db.occurrences[k].closesAt
                       && (s in db.submissions ==> db.submissions[s].state == Draft);
            if !may then step == Throw(db)
            else if s in db.submissions then step == Step(db, Done)
            else LeavesRow(db, step, s, Submission(Draft, None))
  {
    hide Inv, IndexOf;
    LifecycleKeeps.HasCalendar(db);
    FoundAt(db, s, k);
  }

  /** Evidence is submitted exactly on a draft before the window closes; the row is then under review until a day, that
      is 86400000 milliseconds, later. */
  lemma SubmitByRows(db: Db, now: Time, s: SubmissionId, accepted: bool, k: nat)
    requires Inv(db) && k < |db.occurrences| && db.occurrences[k].id == s.occurrence
    ensures var step := SubmitEvidence(db, now, s, accepted);
            if accepted && InState(db, s, Draft) && now < db.occurrences[k].closesAt
            then LeavesRow(db, step, s, Submission(Reviewing, Some(now + 86400000)))
            else step == Throw(db)
  {
    hide Inv, IndexOf;
    LifecycleKeeps.HasCalendar(db);
    FoundAt(db, s, k);
  }

  /** A decision of the creator on a row under review: before the hard deadline an approval leaves it approved, a
      rejection rejected, and anything else throws; from the deadline on every decision leaves it timed out. Without
      authority, or on any other row, nothing happens. */
  lemma DecideByRows(db: Db, now: Time, s: SubmissionId, decision: Decision, authorized: bool)
    requires Inv(db)
    ensures var step := Decide(db, now, s, decision, authorized);
            if !authorized || !InState(db, s, Reviewing) then step == Return(db)
            else
              var row := db.submissions[s];
              && row.hardDeadline.Some?
              && (if row.hardDeadline.value <= now then
                    LeavesRow(db, step, s, Submission(ReviewTimedOut, row.hardDeadline))
                  else if decision == Some(Approve) then
                    LeavesRow(db, step, s, Submission(ReviewApproved, row.hardDeadline))
                  else if decision == Some(Reject) then
                    LeavesRow(db, step, s, Submission(ReviewRejected, row.hardDeadline))
                  else step == Throw(db))
  {
    hide Inv;
    HasSubmissions(db);
  }

  lemma HasSubmissions(db: Db)
    requires Inv(db)
    ensures SubmissionsOk(db.occurrences, db.memberships, db.submissions)
  {
    hide LinksOk, BookOk, RunOk, LifeOk, LegsOk, FrozenOk, SubmissionsOk, Roster;
  }

  /** The protection leaves timed out exactly the selected rows under review whose deadline has come; every other
      row stays, and no row comes or goes. */
  lemma ProtectByRows(db: Db, now: Time, batch: set<SubmissionId>, s: SubmissionId)
    requires Inv(db)
    ensures var step := ProtectTimedOut(db, now, batch);
            && step == Step(db.(submissions := step.db.submissions), Done)
            && step.db.submissions.Keys == db.submissions.Keys
            && (s in db.submissions ==>
                  var row := db.submissions[s];
                  step.db.submissions[s] ==
                    if s in batch && row.state == Reviewing && row.hardDeadline.Some? && row.hardDeadline.value <= now
                    then Submission(ReviewTimedOut, row.hardDeadline) else row)
  {
    hide Inv;
  }

  /** Saved, submitted and approved within a day, a submission is approved. */
  lemma ReviewPath(db: Db, s: SubmissionId, k: nat, at: Time, verdictAt: Time, verdict: SubmissionEvent)
    requires Inv(db) && k < |db.occurrences| && db.occurrences[k].id == s.occurrence && s !in db.submissions
    requires db.pod.state == PodActive && s.membership in db.memberships
    requires db.memberships[s.membership].state == MemberActive
    requires db.occurrences[k].opensAt <= db.clock <= at < db.occurrences[k].closesAt
    requires at <= verdictAt < at + 86400000 && verdict in {Approve, Reject}
    ensures var saved := SaveDraft(db, db.clock, s, true);
            var submitted := SubmitEvidence(saved.db, at, s, true);
            var decided := Decide(submitted.db, verdictAt, s, Some(verdict), true);
            && saved.reply == submitted.reply == decided.reply == Done
            && decided.db == db.(submissions := db.submissions[s :=
                 Submission(if verdict == Approve then ReviewApproved else ReviewRejected, Some(at + 86400000))])
  {
    hide Inv, SaveDraft, SubmitEvidence, Decide;
    var saved := SaveDraft(db, db.clock, s, true).db;
    SaveDraftByRows(db, db.clock, s, true, k);
    LifecycleKeeps.SaveDraftKeeps(db, db.clock, s, true);
    var submitted := SubmitEvidence(saved, at, s, true).db;
    SubmitByRows(saved, at, s, true, k);
    LifecycleKeeps.SubmitKeeps(saved, at, s, true);
    DecideByRows(submitted, verdictAt, s, Some(verdict), true);
  }

  // ---------------------------------------------------------------------------------------------
  // The worker's transitions.
  // ---------------------------------------------------------------------------------------------

  predicate UnderReview(db: Db) {
    exists s :: s in db.submissions && InState(db, s, Reviewing)
  }

  /** The window state by the published times alone. */
  predicate ShowsWindow(o: Occurrence, now: Time, state: WindowState) {
    && (state == Scheduled <==> now < o.opensAt)
    && (state == CommitmentOpen <==> o.deadline.Some? && o.opensAt <= now < o.deadline.value)
    && (state == EvidenceOpen <==> o.opensAt <= now < o.closesAt && (o.deadline.Some? ==> o.deadline.value <= now))
    && (state == ReviewOpen <==> o.closesAt <= now)
  }

  /** The Pod's members are active from the first opening on. */
  predicate Started(db: Db) {
    && db.occurrences != []
    && (db.pod.state == PodActive || (db.pod.state == LockedScheduled && db.occurrences[0].opensAt <= db.clock))
  }

  predicate Over(db: Db) {
    db.occurrences != [] && db.occurrences[|db.occurrences| - 1].closesAt <= db.clock
  }

  /** The Pod's state after the worker has run. */
  function StateAfter(db: Db): PodState {
    var reviewed := db.pod.contract.mode == FullRefundAlpha && !UnderReview(db);
    if Started(db) then if !Over(db) then PodActive else if reviewed then Completed else FinalReview
    else if db.pod.state == FinalReview && reviewed then Completed
    else db.pod.state
  }

  /** What one run of the worker leaves: the Pod's state; each window of a started Pod by its times; and the locked
      members of a Pod whose first occurrence opens active. Nothing else changes. */
  lemma TransitionsByRows(db: Db, k: nat, m: Id)
    requires Inv(db)
    ensures var after := RunTransitions(db, db.clock).db;
            && RunTransitions(db, db.clock).reply == Done
            && after == db.(pod := db.pod.(state := StateAfter(db)), occurrences := after.occurrences,
                            memberships := after.memberships)
            && |after.occurrences| == |db.occurrences| && after.memberships.Keys == db.memberships.Keys
            && (k < |db.occurrences| ==>
                  && after.occurrences[k] == db.occurrences[k].(state := after.occurrences[k].state)
                  && (if Started(db) then ShowsWindow(db.occurrences[k], db.clock, after.occurrences[k].state)
                      else after.occurrences[k] == db.occurrences[k]))
            && (m in db.memberships ==>
                  after.memberships[m] ==
                    if Started(db) && db.memberships[m].state == RosterLocked
                    then db.memberships[m].(state := MemberActive) else db.memberships[m])
  {
    hide Inv, RunTransitions, WindowStateAt, StateAfter, CalendarOk, ShowsWindow;
    LifecycleKeeps.HasCalendar(db);
    NoneLocked(db);
    if Started(db) {
      StartedRuns(db);
      if db.pod.state == PodActive && m in db.memberships { ActiveHasNoneLocked(db, m); }
      if k < |db.occurrences| {
        WindowIsOk(db, k);
        LifecycleShows(db.occurrences[k], db.clock);
      }
    } else {
      NotStartedRuns(db);
    }
  }

  /** Without a start only an alpha Pod in final review can move. */
  lemma NotStartedRuns(db: Db)
    requires db.occurrences != [] && !Started(db)
    ensures RunTransitions(db, db.clock) == Step(db.(pod := db.pod.(state := StateAfter(db))), Done)
  {
    hide WindowStateAt, AdvanceWindows, ActivateAll, ReviewPending, UnderReview;
    SameReviews(db, db);
  }

  /** A started Pod has all members active and its windows by the clock. */
  lemma StartedRuns(db: Db)
    requires CalendarOk(db.pod.contract, db.occurrences) && Started(db)
    ensures RunTransitions(db, db.clock)
         == Step(db.(pod := db.pod.(state := StateAfter(db)), occurrences := AdvanceWindows(db.occurrences, db.clock),
                     memberships := if db.pod.state == PodActive then db.memberships else ActivateAll(db.memberships)),
                 Done)
  {
    hide WindowStateAt, AdvanceWindows, ActivateAll, ReviewPending, UnderReview, CalendarOk, Over, Ending;
    var active := db.(pod := db.pod.(state := PodActive),
                      memberships := if db.pod.state == PodActive then db.memberships
                                     else ActivateAll(db.memberships));
    assert Activate(db, db.clock) == active;
    var advanced := active.(occurrences := AdvanceWindows(db.occurrences, db.clock));
    assert Advance(active, db.clock) == advanced;
    EndsWithLast(db);
    EndingIsOver(db, advanced);
    SameReviews(db, End(advanced, db.clock));
  }

  lemma EndingIsOver(db: Db, advanced: Db)
    requires CalendarOk(db.pod.contract, db.occurrences) && db.occurrences != []
    requires advanced.pod.state == PodActive && advanced.occurrences == AdvanceWindows(db.occurrences, db.clock)
    ensures Ending(advanced, db.clock) <==> Over(db)
  {
    hide WindowStateAt, CalendarOk, Over;
    EndsWithLast(db);
    assert forall k | 0 <= k < |db.occurrences| :: advanced.occurrences[k].closesAt == db.occurrences[k].closesAt;
    if forall k | 0 <= k < |advanced.occurrences| :: advanced.occurrences[k].closesAt <= db.clock {
      forall k | 0 <= k < |db.occurrences| ensures db.occurrences[k].closesAt <= db.clock {
        assert advanced.occurrences[k].closesAt <= db.clock;
      }
    }
  }

  lemma ActiveHasNoneLocked(db: Db, m: Id)
    requires Inv(db) && db.pod.state == PodActive && m in db.memberships
    ensures db.memberships[m].state != RosterLocked
  {
    hide Inv;
    NoneLocked(db);
  }

  lemma WindowIsOk(db: Db, k: nat)
    requires CalendarOk(db.pod.contract, db.occurrences) && k < |db.occurrences|
    ensures WindowOk(db.occurrences[k])
  {
  }

  lemma LifecycleShows(o: Occurrence, now: Time)
    requires WindowOk(o)
    ensures ShowsWindow(o, now, WindowStateAt(o, now))
  {
  }

  /** The last occurrence closes last. */
  lemma EndsWithLast(db: Db)
    requires CalendarOk(db.pod.contract, db.occurrences) && db.occurrences != []
    ensures Over(db) <==> forall k | 0 <= k < |db.occurrences| :: db.occurrences[k].closesAt <= db.clock
  {
    var last := |db.occurrences| - 1;
    forall k | 0 <= k < last ensures db.occurrences[k].closesAt <= db.occurrences[last].closesAt {
      assert db.occurrences[k].closesAt <= db.occurrences[last].opensAt < db.occurrences[last].closesAt;
    }
  }

  /** Locked memberships exist only in a scheduled Pod. */
  lemma NoneLocked(db: Db)
    requires Inv(db)
    ensures db.occurrences != []
    ensures forall m | m in db.memberships && db.memberships[m].state == RosterLocked ::
              db.pod.state in {CutoffEvaluating, LockedScheduled}
  {
    hide BookOk, RunOk, LifeOk, LegsOk, FrozenOk, SubmissionsOk, DepositsOk, HashesOk;
  }

  lemma SameReviews(db: Db, later: Db)
    requires later.submissions == db.submissions
    ensures UnderReview(db) <==> ReviewPending(later)
  {
    if s :| s in db.submissions && db.submissions[s].state == Reviewing { assert InState(db, s, Reviewing); }
  }
}
