/** Concrete Pods whose money gets stuck: a failed refund, a mismatched payout, and a Pod with full refunds that is
    completed while it still owes them. */
module FailureExamples {
  import opened Basics
  import opened Ledger
  import opened Rows
  import opened Invariants
  import opened Transactions
  import opened Examples
  import L = PayoutLegs
  import Cancellation
  import Cutoff
  import CutoffFates
  import CutoffKeeps
  import Finalization
  import Guarantees
  import PayoutFailures
  import PayoutsKeep
  import RefundFailures
  import Refunds

  // ---------------------------------------------------------------------------------------------
  // A failed refund.
  // ---------------------------------------------------------------------------------------------

  /** The creator cancels an open Pod with two funded members. */
  lemma CancelledByCreator() returns (refunding: Db)
    ensures Inv(OpenPod(WAITING)) && Inv(refunding) && Reaches(OpenPod(WAITING), refunding)
    ensures Cancellation.TidyDb(refunding) && refunding.pod.state == CancelledRefunding
    ensures 21 in refunding.refunds && refunding.refunds[21].state == L.Queued
  {
    hide Inv, Reaches, Cutoff.RefundAll, CutoffKeeps.Fated, Refunds.RefundsOpen;
    var open, order, cancel := OpenPod(WAITING), [21, 22], Cancel(CREATOR, [21, 22]);
    OpenOrder(WAITING);
    TwoCredited(WAITING);
    CutoffFates.CancelRefundsAll(open, order);
    refunding := Apply(open, cancel).db;
    ApplyKeeps(open, cancel);
    ReachesNext(open, cancel);
    var closed := open.(memberships := Cutoff.CloseEntry(open.memberships));
    Cancellation.CancelIsTidy(open, CREATOR, order);
    Cancellation.CancelLegs(closed, refunding.(pod := closed.pod), order);
    assert order[0] in Cutoff.Elements(order);
  }

  /** Its refund is prepared and reported as retryable-failed: it is never paid, and the Pod never cancelled. */
  lemma FailedRefund() returns (failed: Db)
    ensures Inv(OpenPod(WAITING)) && Reaches(OpenPod(WAITING), failed)
    ensures failed.pod.state == CancelledRefunding
    ensures 21 in failed.refunds && failed.refunds[21].state == L.RetryableFailed
    ensures !RefundFailures.PaidLater(failed, 21) && !RefundFailures.CancelledLater(failed)
  {
    hide Inv, Reaches, Refunds.RefundsOpen, RefundFailures.PaidLater, RefundFailures.CancelledLater;
    var refunding := CancelledByCreator();
    var prepare, report := Refund(21, PrepareRefund(RefundBytes(0, 0, 0))), Refund(21, ReportRefund(L.RetryableFailed));
    var prepared := Apply(refunding, prepare).db;
    ReachesNext(refunding, prepare);
    ApplyKeeps(refunding, prepare);
    Cancellation.ApplyIsTidy(refunding, prepare);
    failed := Apply(prepared, report).db;
    ReachesNext(prepared, report);
    ApplyKeeps(prepared, report);
    Cancellation.ApplyIsTidy(prepared, report);
    ReachesTransitively(OpenPod(WAITING), refunding, prepared);
    ReachesTransitively(OpenPod(WAITING), prepared, failed);
    RefundFailures.RefundPaidIff(failed, 21);
    RefundFailures.PodCancelledIff(failed);
  }

  // ---------------------------------------------------------------------------------------------
  // A mismatched payout.
  // ---------------------------------------------------------------------------------------------

  /** The full Pod right after its settlement, with a queued payout. */
  lemma FreshlySettled() returns (db: Db, m: Id)
    ensures Inv(FULL) && Reaches(FULL, db) && Inv(db)
    ensures m in db.payouts && db.payouts[m] == L.NewLeg(db.payouts[m].amount)
  {
    hide Inv, Reaches, Finalization.Finalize, L.LegOk;
    CanBeSettled();
    db := Apply(FULL, Finalize).db;
    ApplyKeeps(FULL, Finalize);
    ReachesNext(FULL, Finalize);
    m := UnpaidMember(db);
    PayoutsKeep.AboutPayout(db, m);
    Guarantees.FinalizeLogs(FULL, m);
    NewWithoutEvents(db.payouts[m]);
  }

  /** The member of an entitlement that is still to be paid. */
  lemma UnpaidMember(db: Db) returns (m: Id)
    requires Finalization.Finalize(FULL, FULL.clock) == Step(db, Done) && Inv(db)
    ensures m in db.payouts
  {
    hide Inv, Finalization.FundedRoster, Finalization.CalendarClosed, Finalization.CreditsMatch,
         Finalization.ReviewsDone, Finalization.FrozenInput, Finalization.Postings, Finalization.QueuedLegs,
         Finalization.Entitlements, Finalization.Freeze, Roster, EntitlementFits;
    PayoutsKeep.HasRun(db);
    Guarantees.RunStateIsExact(db);
    m :| m in db.run.value.entitlements && Unresolved(db.run.value.entitlements[m]);
    UnresolvedHasLeg(db.run.value.entitlements[m], PayoutLegOf(db.payouts, m));
  }

  lemma UnresolvedHasLeg(e: Entitlement, leg: Option<L.Leg>)
    requires EntitlementFits(e, leg) && Unresolved(e)
    ensures leg.Some?
  {
  }

  lemma NewWithoutEvents(leg: L.Leg)
    requires L.LegOk(leg) && leg.events == []
    ensures leg == L.NewLeg(leg.amount)
  {
  }

  /** The payout is prepared and reported as mismatched: it is never paid, and the run never settles. */
  lemma MismatchedPayout() returns (stuck: Db, m: Id)
    ensures Inv(FULL) && Reaches(FULL, stuck)
    ensures m in stuck.payouts && stuck.payouts[m].state == L.Mismatched
    ensures !PayoutFailures.PaidLater(stuck, m) && !PayoutFailures.SettlesLater(stuck)
  {
    hide Inv, Reaches, L.LegOk, PayoutFailures.PaidLater, PayoutFailures.SettlesLater;
    var db;
    db, m := FreshlySettled();
    var prepare := Pay(m, L.DoPrepare(1, L.DataReference(m, 1), 0, true));
    var report := Pay(m, L.DoReport(1, L.Mismatched));
    var prepared := Apply(db, prepare).db;
    ReachesNext(db, prepare);
    ApplyKeeps(db, prepare);
    stuck := Apply(prepared, report).db;
    ReachesNext(prepared, report);
    ApplyKeeps(prepared, report);
    ReachesTransitively(FULL, db, prepared);
    ReachesTransitively(FULL, prepared, stuck);
    PayoutFailures.PayoutPaidIff(stuck, m);
    PayoutsKeep.AboutPayout(stuck, m);
    PayoutFailures.RunSettlesIff(stuck);
  }

  // ---------------------------------------------------------------------------------------------
  // Full refunds.
  // ---------------------------------------------------------------------------------------------

  const ALPHA_MEMBERSHIPS: map<Id, Membership> := map[
    1 := Member(11, MemberActive, 21),
    2 := Member(12, MemberActive, 22)]
  const ALPHA_INTENTS: map<Id, Intent> := map[
    21 := Deposit(1, 11, RefundPending, 41),
    22 := Deposit(2, 12, RefundPending, 42)]
  const ALPHA_REFUNDS: map<Id, RefundLeg> := map[
    21 := RefundLeg(1, 1, L.Queued, None),
    22 := RefundLeg(2, 1, L.Queued, None)]

  const ALPHA_LEDGER: Book := CREDITS + [RefundEntry(21, INTENTS[21])] + [RefundEntry(22, INTENTS[22])]

  /** In final review, every review done, with both refunds still queued. */
  const ALPHA := Db(POD.(contract := CONTRACT.(mode := FullRefundAlpha)), ALPHA_MEMBERSHIPS, ALPHA_INTENTS, OCCURRENCES,
                    map[], ALPHA_REFUNDS, map[], ALPHA_LEDGER, None, CLOSES)

  lemma AlphaNet(a: Account)
    ensures Net(ALPHA_LEDGER, a)
         == Effect(CreditEntry(21, INTENTS[21]), a) + Effect(CreditEntry(22, INTENTS[22]), a)
            + Effect(RefundEntry(21, INTENTS[21]), a) + Effect(RefundEntry(22, INTENTS[22]), a)
  {
    hide Net;
    var c1, c2 := CreditEntry(21, INTENTS[21]), CreditEntry(22, INTENTS[22]);
    assert [] + [c1] == [c1] && [c1] + [c2] == CREDITS;
    NothingPosted(a);
    NetOfOne([], c1, a);
    NetOfOne([c1], c2, a);
    NetOfOne(CREDITS, RefundEntry(21, INTENTS[21]), a);
    NetOfOne(CREDITS + [RefundEntry(21, INTENTS[21])], RefundEntry(22, INTENTS[22]), a);
  }

  lemma AlphaBalances()
    ensures BalancesOk(ALPHA)
  {
    hide Net;
    forall a | a != Treasury ensures Net(ALPHA_LEDGER, a) == Owed(ALPHA, a) { AlphaNet(a); }
  }

  lemma AlphaLedger()
    ensures DistinctKeys(ALPHA_LEDGER) && KeysOk(ALPHA_LEDGER, ALPHA_INTENTS, ALPHA_REFUNDS, map[], false)
    ensures EntriesOk(ALPHA_LEDGER, ALPHA_INTENTS, ALPHA_REFUNDS, map[])
  {
    assert ALPHA_LEDGER == [CreditEntry(21, INTENTS[21]), CreditEntry(22, INTENTS[22]),
                            RefundEntry(21, INTENTS[21]), RefundEntry(22, INTENTS[22])];
    assert ALPHA_LEDGER[0] in ALPHA_LEDGER && ALPHA_LEDGER[1] in ALPHA_LEDGER;
    assert ALPHA_LEDGER[2] in ALPHA_LEDGER && ALPHA_LEDGER[3] in ALPHA_LEDGER;
  }

  lemma AlphaRoster()
    ensures Roster(ALPHA_MEMBERSHIPS) == {1, 2}
  {
  }

  lemma AlphaLinks()
    ensures LinksOk(ALPHA)
  {
    hide DepositsOk, MembershipsOk;
    AlphaDeposits();
    AlphaMemberships();
  }

  lemma AlphaDeposits()
    ensures DepositsOk(ALPHA.pod, OPENS, ALPHA_MEMBERSHIPS, ALPHA_INTENTS, ALPHA_REFUNDS)
  {
  }

  lemma AlphaMemberships()
    ensures MembershipsOk(ALPHA.pod, ALPHA_MEMBERSHIPS, ALPHA_INTENTS)
  {
  }

  lemma AlphaOrder()
    ensures Inv(ALPHA)
  {
    hide BalancesOk, DistinctKeys, KeysOk, EntriesOk, LinksOk, Roster;
    AlphaLinks();
    AlphaBalances();
    AlphaLedger();
    AlphaRoster();
  }

  /** The worker completes the Pod, which still owes both refunds. */
  lemma CompletedOwing() returns (completed: Db)
    ensures Inv(ALPHA) && Reaches(ALPHA, completed) && Inv(completed)
    ensures completed.pod.state == Completed && TreasuryAsset(completed.ledger) == 2
  {
    hide Inv, Net, Reaches;
    AlphaOrder();
    completed := Apply(ALPHA, Live(RunTransitions)).db;
    ApplyKeeps(ALPHA, Live(RunTransitions));
    ReachesNext(ALPHA, Live(RunTransitions));
    AlphaNet(Treasury);
  }
}
