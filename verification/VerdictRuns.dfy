/** From a review to the settlement: over every run, the verdict on a submission is the one it is settled by. */
module VerdictRuns {
  import opened Basics
  import opened Rows
  import opened Invariants
  import opened Transactions
  import opened ReviewRows
  import S = SettlementRules
  import L = PayoutLegs
  import Cutoff
  import CutoffFates
  import Finalization
  import FinalizationRows
  import Guarantees
  import Histories
  import Ledger
  import Lifecycle
  import Refunds

  // ---------------------------------------------------------------------------------------------
  // Where a settlement run begins.
  // ---------------------------------------------------------------------------------------------

  lemma CutoffStartsNoRun(db: Db)
    requires Inv(db)
    ensures Cutoff.ApplyCutoff(db, db.clock).db.run == db.run
  {
    hide Inv, Cutoff.Decide, Cutoff.Ranked, Cutoff.BeginCutoff, CutoffFates.FateAt, CutoffFates.RefundList,
         CutoffFates.RosterOf, Cutoff.InChainOrder;
    if Cutoff.CutoffDue(db, db.clock) { CutoffFates.CutoffDecidesFate(db, db.clock); }
  }

  lemma CancelStartsNoRun(db: Db, user: Id, order: seq<Id>)
    requires Cutoff.Listed(db, order)
    ensures Cutoff.CancelEnrollment(db, user, order).db.run == db.run
  {
    hide Cutoff.RefundAll;
  }

  lemma RefundStartsNoRun(db: Db, i: Id, a: RefundAction)
    ensures RefundStep(db, i, a).db.run == db.run
  {
    hide Refunds.RefundsOpen, Ledger.Post;
  }

  lemma PayStartsNoRun(db: Db, m: Id, a: L.LegAction)
    requires a.DoReport? ==> L.Reportable(a.to)
    ensures db.run.None? ==> PayStep(db, m, a).db.run.None?
  {
    hide L.Act, L.Confirm, AllResolved, Ledger.Post;
  }

  lemma LiveStartsNoRun(db: Db, a: LifeAction)
    ensures LiveStep(db, a).db.run == db.run
  {
    hide Lifecycle.IndexOf, Lifecycle.NextSubmissionState, Lifecycle.Overdue, Lifecycle.ActivateAll,
         Lifecycle.AdvanceWindows, Lifecycle.ReviewPending, Lifecycle.ActivationDue, Lifecycle.Ending;
  }

  lemma FinalizeStartsRun(db: Db)
    ensures db.run.None? && Finalization.Finalize(db, db.clock).db.run.Some? ==>
              Finalization.Finalize(db, db.clock).reply == Done
  {
    hide Finalization.FundedRoster, Finalization.CalendarClosed, Finalization.CreditsMatch,
         Finalization.ReviewsDone, Finalization.FrozenInput, Finalization.Record;
  }

  /** Only a successful finalization starts a run. */
  lemma OnlyFinalizationStartsRun(db: Db, a: Action)
    requires Inv(db) && Allowed(db, a) && db.run.None? && Apply(db, a).db.run.Some?
    ensures a == Finalize && Finalization.Finalize(db, db.clock).reply == Done
  {
    hide Inv, FundStep, RefundStep, PayStep, LiveStep, Cutoff.ApplyCutoff, Cutoff.CancelEnrollment,
         Finalization.Finalize;
    match a {
      case Fund(action) => Histories.FundFrame(db, action);
      case ApplyCutoff => CutoffStartsNoRun(db);
      case Cancel(user, order) => CancelStartsNoRun(db, user, order);
      case Refund(i, action) => RefundStartsNoRun(db, i, action);
      case Pay(m, action) => PayStartsNoRun(db, m, action);
      case Finalize => FinalizeStartsRun(db);
      case Live(action) => LiveStartsNoRun(db, action);
    }
  }

  /** The event that started the run. */
  lemma {:induction false} RunStart(states: seq<Db>, events: seq<Event>, j: nat, k: nat) returns (f: nat)
    requires History(states, events) && j < k < |states| && states[j].run.None? && states[k].run.Some?
    ensures j <= f < k && f < |events| && states[f].run.None? && states[f + 1].run.Some?
    decreases k
  {
    hide Follows;
    if states[k - 1].run.None? { f := k - 1; } else { f := RunStart(states, events, j, k - 1); }
  }

  lemma StartIsFinalization(states: seq<Db>, events: seq<Event>, f: nat)
    requires History(states, events) && Inv(states[0]) && f + 1 < |states|
    requires states[f].run.None? && states[f + 1].run.Some?
    ensures f < |events|
    ensures var before := Wait(states[f], events[f].now);
            && Inv(before) && Finalization.Finalize(before, before.clock).reply == Done
            && states[f + 1] == Finalization.Finalize(before, before.clock).db
  {
    hide Inv, History, Finalization.Finalize;
    HistoryStep(states, events, f);
    HistoryKeeps(states, events, f);
    var before := Wait(states[f], events[f].now);
    WaitKeeps(states[f], events[f].now);
    OnlyFinalizationStartsRun(before, events[f].action);
  }

  // ---------------------------------------------------------------------------------------------
  // Verdicts.
  // ---------------------------------------------------------------------------------------------

  /** The outcome a decided submission is settled by. */
  predicate SettledBy(state: SubmissionState, outcome: S.OutcomeState) {
    && (state == ReviewApproved ==> outcome == S.Approved)
    && (state == ReviewRejected ==> outcome == S.Rejected)
    && (state == ReviewTimedOut ==> outcome == S.TimeoutProtected)
  }

  /** A decided submission of a state that the finalization finds is frozen with its verdict. */
  lemma FrozenWithVerdict(db: Db, s: SubmissionId)
    requires Inv(db) && Finalization.Finalize(db, db.clock).reply == Done
    requires s in db.submissions && Histories.Decided(db.submissions[s].state)
    ensures var after := Finalization.Finalize(db, db.clock).db;
            && after.run.Some? && s in after.run.value.outcomes
            && SettledBy(db.submissions[s].state, after.run.value.outcomes[s])
  {
    hide Inv, Finalization.Finalize, Roster;
    HasSubmissions(db);
    ActiveIsOnRoster(db, s.membership);
    var k :| 0 <= k < |db.occurrences| && db.occurrences[k].id == s.occurrence;
    assert s == SubmissionId(db.occurrences[k].id, s.membership);
    FinalizationRows.FrozenByRow(db, db.clock, k, s.membership);
  }

  lemma ActiveIsOnRoster(db: Db, m: Id)
    requires m in db.memberships && db.memberships[m].state == MemberActive
    ensures m in Roster(db.memberships)
  {
  }

  /** Whatever run the Pod gets later, a submission decided before it is settled by its verdict. */
  lemma DecidedIsSettledBy(states: seq<Db>, events: seq<Event>, j: nat, k: nat, s: SubmissionId)
    requires History(states, events) && Inv(states[0]) && j < k < |states|
    requires states[j].run.None? && states[k].run.Some?
    requires s in states[j].submissions && Histories.Decided(states[j].submissions[s].state)
    ensures s in states[k].run.value.outcomes
    ensures SettledBy(states[j].submissions[s].state, states[k].run.value.outcomes[s])
  {
    hide Inv, History, Finalization.Finalize, SettledBy;
    var f := RunStart(states, events, j, k);
    StartIsFinalization(states, events, f);
    Guarantees.VerdictsAreFinal(states, events, j, f, s);
    FrozenWithVerdict(Wait(states[f], events[f].now), s);
    Guarantees.OutcomesStayFrozen(states, events, f + 1, k, s);
  }

  /** The creator's decision in time is the outcome of every later settlement: approved after an approval, rejected
      after a rejection. */
  lemma DecisionIsSettledBy(states: seq<Db>, events: seq<Event>, j: nat, k: nat, s: SubmissionId,
                            verdict: Lifecycle.SubmissionEvent)
    requires History(states, events) && Inv(states[0]) && j < k < |states| && j < |events|
    requires verdict in {Lifecycle.Approve, Lifecycle.Reject}
    requires events[j].action == Live(Decide(s, Some(verdict), true))
    requires InState(states[j], s, Reviewing) && states[j].submissions[s].hardDeadline.Some?
    requires events[j].now < states[j].submissions[s].hardDeadline.value
    requires states[k].run.Some?
    ensures s in states[k].run.value.outcomes
    ensures states[k].run.value.outcomes[s] == if verdict == Lifecycle.Approve then S.Approved else S.Rejected
  {
    hide Inv, History, Lifecycle.Decide;
    HistoryStep(states, events, j);
    HistoryKeeps(states, events, j);
    var before := Wait(states[j], events[j].now);
    WaitKeeps(states[j], events[j].now);
    DecideByRows(before, before.clock, s, Some(verdict), true);
    NoRunUnderReview(before, s);
    DecidedIsSettledBy(states, events, j + 1, k, s);
  }

  lemma NoRunUnderReview(db: Db, s: SubmissionId)
    requires Inv(db) && InState(db, s, Reviewing)
    ensures db.run.None?
  {
    hide Inv;
    Guarantees.HasFrozen(db);
  }
}
