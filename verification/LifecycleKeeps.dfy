/** The lifecycle transactions keep the invariants; final review means every window is closed; and once a run
    exists no submission moves. */
module LifecycleKeeps {
  import opened Basics
  import opened Ledger
  import opened Rows
  import opened Invariants
  import opened FundingKeeps
  import opened Lifecycle

  // ---------------------------------------------------------------------------------------------
  // Activation.
  // ---------------------------------------------------------------------------------------------

  lemma ActivatedDepositFits(pod: Pod, opensAt: Time, i: Id, d: Intent, r: Membership, leg: Option<RefundLeg>)
    requires DepositFits(pod, opensAt, i, d, r, leg) && pod.state == LockedScheduled
    ensures DepositFits(pod.(state := PodActive), opensAt, i, d, ActivateRow(r), leg)
  {
  }

  lemma ActivatedMembershipFits(pod: Pod, m: Id, r: Membership, d: Option<Intent>)
    requires MembershipFits(pod, m, r, d) && pod.state == LockedScheduled
    ensures MembershipFits(pod.(state := PodActive), m, ActivateRow(r), d)
    ensures ActivateRow(r).intent == r.intent
  {
  }

  lemma ActivateKeepsLinks(db: Db, now: Time)
    requires LinksOk(db) && ActivationDue(db, now)
    ensures LinksOk(Activate(db, now))
  {
    hide LinksOk, DepositFits, MembershipFits, ActivateRow;
    var after := Activate(db, now);
    forall i | i in after.intents
      ensures after.intents[i].membership in after.memberships
      ensures DepositFits(after.pod, after.occurrences[0].opensAt, i, after.intents[i],
                          after.memberships[after.intents[i].membership], LegOf(after.refunds, i))
    {
      AboutDeposit(db, i);
      ActivatedDepositFits(db.pod, db.occurrences[0].opensAt, i, db.intents[i],
                           db.memberships[db.intents[i].membership], LegOf(db.refunds, i));
    }
    forall m | m in after.memberships
      ensures MembershipFits(after.pod, m, after.memberships[m],
                             IntentOf(after.intents, after.memberships[m].intent))
    {
      AboutMembership(db, m);
      ActivatedMembershipFits(db.pod, m, db.memberships[m], IntentOf(db.intents, db.memberships[m].intent));
    }
    LinksFromRows(db, after);
  }

  lemma ActivateKeepsBalances(db: Db, now: Time)
    requires BalancesOk(db)
    ensures BalancesOk(Activate(db, now))
  {
    hide Net;
    var after := Activate(db, now);
    forall a | a != Treasury ensures Net(after.ledger, a) == Owed(after, a) {
      assert Net(db.ledger, a) == Owed(db, a);
    }
  }

  lemma ActivateKeepsSubmissions(db: Db, now: Time)
    requires SubmissionsOk(db.occurrences, db.memberships, db.submissions)
    ensures SubmissionsOk(db.occurrences, Activate(db, now).memberships, db.submissions)
  {
    hide HasOccurrence;
  }

  lemma ActivateKeeps(db: Db, now: Time)
    requires Inv(db)
    ensures Inv(Activate(db, now))
  {
    hide LinksOk, BalancesOk, KeysOk, EntriesOk, DistinctKeys, LegsOk, FrozenOk, SubmissionsOk, CalendarOk, AllResolved,
         EntitlementFits, Roster, OnRoster;
    if ActivationDue(db, now) {
      ActivateKeepsLinks(db, now);
      ActivateKeepsBalances(db, now);
      ActivateKeepsSubmissions(db, now);
      ActivateKeepsRoster(db, now);
    }
  }

  lemma ActivateKeepsRoster(db: Db, now: Time)
    ensures Roster(Activate(db, now).memberships) == Roster(db.memberships)
  {
    SameRoster(db.memberships, Activate(db, now).memberships);
  }

  // ---------------------------------------------------------------------------------------------
  // Windows.
  // ---------------------------------------------------------------------------------------------

  function WindowStage(s: WindowState): nat {
    match s
    case Scheduled => 0
    case CommitmentOpen => 1
    case EvidenceOpen => 2
    case ReviewOpen => 3
  }

  /** A window opens, passes its deadline and closes at exactly the published times, and never goes back. */
  lemma WindowsOnlyAdvance(o: Occurrence, now: Time, later: Time)
    requires WindowOk(o) && now <= later
    ensures WindowStage(WindowStateAt(o, now)) <= WindowStage(WindowStateAt(o, later))
    ensures WindowStateAt(o, now) == Scheduled <==> now < o.opensAt
    ensures WindowStateAt(o, now) == ReviewOpen <==> o.closesAt <= now
    ensures WindowStateAt(o, now) == CommitmentOpen <==> o.deadline.Some? && o.opensAt <= now < o.deadline.value
  {
  }

  lemma AdvanceKeepsLinks(db: Db, now: Time)
    requires LinksOk(db)
    ensures LinksOk(Advance(db, now))
  {
    hide DepositsOk, MembershipsOk, HashesOk, WindowStateAt;
  }

  lemma AdvanceKeepsBalances(db: Db, now: Time)
    requires BalancesOk(db)
    ensures BalancesOk(Advance(db, now))
  {
    hide Net, HeldFor, WindowStateAt;
    var after := Advance(db, now);
    forall a | a != Treasury ensures Net(after.ledger, a) == Owed(after, a) {
      assert Net(db.ledger, a) == Owed(db, a);
    }
  }

  lemma AdvanceKeepsCalendar(contract: Contract, occurrences: seq<Occurrence>, now: Time)
    requires CalendarOk(contract, occurrences)
    ensures CalendarOk(contract, AdvanceWindows(occurrences, now))
  {
    hide WindowStateAt;
  }

  lemma AdvanceKeepsSubmissions(occurrences: seq<Occurrence>, memberships: map<Id, Membership>,
                                submissions: map<SubmissionId, Submission>, now: Time)
    requires SubmissionsOk(occurrences, memberships, submissions)
    ensures SubmissionsOk(AdvanceWindows(occurrences, now), memberships, submissions)
  {
    hide WindowStateAt, HasOccurrence;
    forall s | s in submissions ensures HasOccurrence(AdvanceWindows(occurrences, now), s.occurrence) {
      StillThere(occurrences, now, s.occurrence);
    }
  }

  lemma StillThere(occurrences: seq<Occurrence>, now: Time, id: Id)
    requires HasOccurrence(occurrences, id)
    ensures HasOccurrence(AdvanceWindows(occurrences, now), id)
  {
    var k :| 0 <= k < |occurrences| && occurrences[k].id == id;
    assert AdvanceWindows(occurrences, now)[k].id == id;
  }

  lemma AdvanceKeeps(db: Db, now: Time)
    requires Inv(db)
    ensures Inv(Advance(db, now))
  {
    hide LinksOk, BalancesOk, KeysOk, EntriesOk, DistinctKeys, LegsOk, FrozenOk, SubmissionsOk, CalendarOk, RunOk,
         AdvanceWindows, Roster;
    AdvanceKeepsLinks(db, now);
    AdvanceKeepsBalances(db, now);
    AdvanceKeepsSubmissions(db.occurrences, db.memberships, db.submissions, now);
    AdvanceLife(db, now);
  }

  lemma AdvanceLife(db: Db, now: Time)
    requires LifeOk(db.pod, Roster(db.memberships), db.occurrences, db.clock)
    ensures LifeOk(db.pod, Roster(db.memberships), Advance(db, now).occurrences, db.clock)
  {
    hide Roster, CalendarOk;
    AdvanceKeepsCalendar(db.pod.contract, db.occurrences, now);
  }

  // ---------------------------------------------------------------------------------------------
  // The end.
  // ---------------------------------------------------------------------------------------------

  /** The Pod's own state moves on; the rows stay. */
  lemma StateKeeps(db: Db, state: PodState)
    requires Inv(db) && Advances(db.pod.state, state) && db.run.None?
    requires state == Completed ==> db.pod.contract.mode == FullRefundAlpha
    requires state in {FinalReview, Completed} ==> AllClosed(db.occurrences, db.clock)
    ensures Inv(WithState(db, state))
  {
    hide LinksOk, BalancesOk, KeysOk, EntriesOk, DistinctKeys, LegsOk, FrozenOk, SubmissionsOk, CalendarOk, AllClosed,
         Roster;
    FundingKeeps.AdvanceKeepsLinks(db, state);
    SameBalances(db, WithState(db, state));
  }

  lemma NoRunWhileActive(db: Db)
    requires Inv(db) && db.pod.state == PodActive
    ensures db.run.None?
  {
    hide LinksOk, BookOk, LifeOk, SubmissionsOk, LegsOk, FrozenOk, Roster;
  }

  lemma NoRunInAlpha(db: Db)
    requires Inv(db) && db.pod.contract.mode == FullRefundAlpha
    ensures db.run.None?
  {
    hide LinksOk, BookOk, LifeOk, SubmissionsOk, LegsOk, FrozenOk, Roster;
  }

  /** When every window has closed and was just advanced, every occurrence is open for review. */
  lemma AdvancedIsClosed(db: Db, now: Time)
    requires db.pod.state == PodActive && Ending(Advance(db, now), now)
    requires forall k | 0 <= k < |db.occurrences| :: WindowOk(db.occurrences[k])
    ensures AllClosed(Advance(db, now).occurrences, now)
  {
    forall k | 0 <= k < |db.occurrences| ensures Advance(db, now).occurrences[k].state == ReviewOpen {
      assert Advance(db, now).occurrences[k].closesAt == db.occurrences[k].closesAt;
      assert WindowOk(db.occurrences[k]);
    }
  }

  lemma HasWindows(db: Db)
    requires Inv(db)
    ensures forall k | 0 <= k < |db.occurrences| :: WindowOk(db.occurrences[k])
  {
    hide LinksOk, BookOk, RunOk, SubmissionsOk, FrozenOk, LegsOk, Roster, WindowOk;
  }

  lemma EndKeeps(db: Db)
    requires Inv(db)
    ensures Inv(End(Advance(db, db.clock), db.clock))
  {
    hide Inv, Advance, AllClosed;
    AdvanceKeeps(db, db.clock);
    var advanced := Advance(db, db.clock);
    AdvanceStates(db, db.clock);
    if Ending(advanced, db.clock) {
      HasWindows(db);
      AdvancedIsClosed(db, db.clock);
      NoRunWhileActive(advanced);
      StateKeeps(advanced, FinalReview);
    }
  }

  lemma AdvanceStates(db: Db, now: Time)
    ensures Advance(db, now).pod == db.pod && Advance(db, now).clock == db.clock
    ensures Advance(db, now).submissions == db.submissions
  {
  }

  lemma CompleteKeeps(db: Db)
    requires Inv(db)
    ensures Inv(CompleteAlpha(db))
  {
    hide Inv, ReviewPending, AllClosed;
    if db.pod.state == FinalReview && db.pod.contract.mode == FullRefundAlpha {
      NoRunInAlpha(db);
      FinalReviewIsClosed(db);
      StateKeeps(db, Completed);
    }
  }

  /** A Pod in final review has every window closed. */
  lemma FinalReviewIsClosed(db: Db)
    requires Inv(db) && db.pod.state in {FinalReview, Completed}
    ensures AllClosed(db.occurrences, db.clock)
  {
    hide LinksOk, BookOk, RunOk, SubmissionsOk, FrozenOk, LegsOk, Roster, CalendarOk, AllClosed;
  }

  lemma RunTransitionsKeeps(db: Db)
    requires Inv(db)
    ensures Inv(RunTransitions(db, db.clock).db)
  {
    hide Inv, Activate, Advance, End, CompleteAlpha;
    ActivateKeeps(db, db.clock);
    var active := Activate(db, db.clock);
    ActivateClock(db, db.clock);
    EndKeeps(active);
    CompleteKeeps(End(Advance(active, db.clock), db.clock));
  }

  lemma ActivateClock(db: Db, now: Time)
    ensures Activate(db, now).clock == db.clock
  {
  }

  /** Whenever the worker has moved the Pod to final review, every occurrence is numbered, closed and open for
      review, as the finalization demands. */
  lemma FinalReviewIsReady(db: Db)
    requires Inv(db) && RunTransitions(db, db.clock).db.pod.state == FinalReview
    ensures var after := RunTransitions(db, db.clock).db;
            && CalendarOk(after.pod.contract, after.occurrences)
            && forall k | 0 <= k < |after.occurrences| ::
                 after.occurrences[k].state == ReviewOpen && after.occurrences[k].closesAt <= db.clock
  {
    hide Inv, RunTransitions, CalendarOk;
    RunTransitionsKeeps(db);
    var after := RunTransitions(db, db.clock).db;
    TransitionsClock(db, db.clock);
    FinalReviewIsClosed(after);
    HasCalendar(after);
  }

  lemma TransitionsClock(db: Db, now: Time)
    ensures RunTransitions(db, now).db.clock == db.clock
  {
  }

  lemma HasCalendar(db: Db)
    requires Inv(db)
    ensures CalendarOk(db.pod.contract, db.occurrences)
  {
    hide LinksOk, BookOk, RunOk, SubmissionsOk, FrozenOk, LegsOk, Roster, CalendarOk;
  }

  // ---------------------------------------------------------------------------------------------
  // Submissions.
  // ---------------------------------------------------------------------------------------------

  lemma SubmissionsKeep(db: Db, submissions: map<SubmissionId, Submission>)
    requires Inv(db) && db.run.None? && SubmissionsOk(db.occurrences, db.memberships, submissions)
    ensures Inv(db.(submissions := submissions))
  {
    hide LinksOk, BalancesOk, KeysOk, EntriesOk, DistinctKeys, LegsOk, RunOk, LifeOk, SubmissionsOk, Roster;
    var after := db.(submissions := submissions);
    SameLinks(db, after);
    SameBalances(db, after);
  }

  lemma HasSubmissions(db: Db)
    requires Inv(db)
    ensures SubmissionsOk(db.occurrences, db.memberships, db.submissions)
  {
    hide LinksOk, BookOk, RunOk, LifeOk, SubmissionsOk, FrozenOk, LegsOk, Roster;
  }

  lemma SaveDraftKeeps(db: Db, now: Time, s: SubmissionId, accepted: bool)
    requires Inv(db)
    ensures Inv(SaveDraft(db, now, s, accepted).db)
  {
    hide Inv;
    var after := SaveDraft(db, now, s, accepted).db;
    if after != db {
      HasSubmissions(db);
      NoRunWhileActive(db);
      SubmissionsKeep(db, after.submissions);
    }
  }

  /** With a run, every occurrence has closed, nothing is being reviewed, and the Pod is no longer active. */
  lemma RunMeansClosed(db: Db)
    requires Inv(db) && db.run.Some?
    ensures AllClosed(db.occurrences, db.clock)
    ensures forall s | s in db.submissions :: db.submissions[s].state != Reviewing
    ensures db.pod.state != PodActive
  {
    hide LinksOk, BookOk, SubmissionsOk, LegsOk, Roster, CalendarOk, AllClosed, AllResolved, VerdictOf;
  }

  lemma SubmitKeeps(db: Db, now: Time, s: SubmissionId, accepted: bool)
    requires Inv(db) && db.clock <= now
    ensures Inv(SubmitEvidence(db, now, s, accepted).db)
  {
    hide Inv;
    var after := SubmitEvidence(db, now, s, accepted).db;
    if after != db {
      HasSubmissions(db);
      if db.run.Some? { RunMeansClosed(db); }
      SubmissionsKeep(db, after.submissions);
    }
  }

  lemma DecideKeeps(db: Db, now: Time, s: SubmissionId, decision: Decision, authorized: bool)
    requires Inv(db)
    ensures Inv(Decide(db, now, s, decision, authorized).db)
  {
    hide Inv;
    var after := Decide(db, now, s, decision, authorized).db;
    if after != db {
      HasSubmissions(db);
      if db.run.Some? { RunMeansClosed(db); }
      SubmissionsKeep(db, after.submissions);
    }
  }

  lemma ProtectKeeps(db: Db, now: Time, batch: set<SubmissionId>)
    requires Inv(db)
    ensures Inv(ProtectTimedOut(db, now, batch).db)
  {
    hide Inv;
    var after := ProtectTimedOut(db, now, batch).db;
    if db.run.Some? {
      RunMeansClosed(db);
      assert after.submissions == db.submissions;
    } else {
      HasSubmissions(db);
      SubmissionsKeep(db, after.submissions);
    }
  }

  // ---------------------------------------------------------------------------------------------
  // Frozen outcomes.
  // ---------------------------------------------------------------------------------------------

  /** Once a settlement run exists and time does not go back, no transaction moves a submission. */
  lemma SubmissionsAreFrozen(db: Db, now: Time, s: SubmissionId, accepted: bool, decision: Decision,
                             batch: set<SubmissionId>)
    requires Inv(db) && db.run.Some? && db.clock <= now
    ensures SaveDraft(db, now, s, accepted) == Throw(db)
    ensures SubmitEvidence(db, now, s, accepted) == Throw(db)
    ensures Decide(db, now, s, decision, accepted) == Return(db)
    ensures ProtectTimedOut(db, now, batch).db == db
  {
    hide Inv;
    RunMeansClosed(db);
    assert ProtectTimedOut(db, now, batch).db.submissions == db.submissions;
  }
}
