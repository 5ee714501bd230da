/** What a Pod keeps for ever: a relation between any earlier and any later state of a run. */
module Histories {
  import opened Basics
  import opened Ledger
  import opened Rows
  import opened Invariants
  import opened Transactions
  import L = PayoutLegs
  import Funding
  import FundingKeeps
  import Cutoff
  import CutoffKeeps
  import CutoffFates
  import Refunds
  import RefundsKeep
  import Payouts
  import PayoutsKeep
  import Finalization
  import FinalizationKeeps
  import Lifecycle
  import LifecycleKeeps

  // ---------------------------------------------------------------------------------------------
  // The relation.
  // ---------------------------------------------------------------------------------------------

  /** The states of a Pod only move forward, on one of two branches. */
  function Stage(s: PodState): nat {
    match s
    case EnrollmentOpen => 0
    case CutoffEvaluating => 1
    case LockedScheduled => 2
    case PodActive => 3
    case FinalReview => 4
    case Completed => 5
    case CancelledRefunding => 2
    case Cancelled => 3
  }

  predicate PodLater(a: Pod, b: Pod) {
    && b == a.(state := b.state)
    && Stage(a.state) <= Stage(b.state)
    && (Locked(a.state) ==> Locked(b.state))
    && (a.state in {CancelledRefunding, Cancelled} ==> b.state in {CancelledRefunding, Cancelled})
  }

  /** A refund keeps its amount, its member and its prepared bytes, and ends where it is confirmed or has failed. */
  predicate RefundLater(a: RefundLeg, b: RefundLeg) {
    && b.membership == a.membership && b.amount == a.amount
    && (a.state != L.Queued ==> b.bytes == a.bytes && b.state != L.Queued)
    && (a.state in {L.Confirmed, L.RetryableFailed, L.Mismatched} ==> b == a)
  }

  predicate RefundsLater(a: map<Id, RefundLeg>, b: map<Id, RefundLeg>) {
    forall i | i in a :: i in b && RefundLater(a[i], b[i])
  }

  predicate PayoutsLater(a: map<Id, L.Leg>, b: map<Id, L.Leg>) {
    forall m | m in a :: m in b && L.Evolves(a[m], b[m])
  }

  predicate EntitlementLater(a: Entitlement, b: Entitlement) {
    b == a || (a.state == TransferQueued && b == a.(state := TransferConfirmed))
  }

  /** A run keeps its outcomes, its members and their amounts; settled it never changes. */
  predicate RunLater(a: Option<Run>, b: Option<Run>) {
    a.Some? ==>
      && b.Some? && b.value.outcomes == a.value.outcomes
      && b.value.entitlements.Keys == a.value.entitlements.Keys
      && (forall m | m in a.value.entitlements :: EntitlementLater(a.value.entitlements[m], b.value.entitlements[m]))
      && (a.value.state == Settled ==> b == a)
  }

  predicate Decided(s: SubmissionState) {
    s in {ReviewApproved, ReviewRejected, ReviewTimedOut}
  }

  /** A verdict is final, and the hard deadline of a review never moves. */
  predicate SubmissionLater(a: Submission, b: Submission) {
    && (Decided(a.state) ==> b == a)
    && (a.state == Reviewing ==> b == a || (Decided(b.state) && b == a.(state := b.state)))
  }

  predicate SubmissionsLater(a: Db, b: Db) {
    && (forall s | s in a.submissions :: s in b.submissions && SubmissionLater(a.submissions[s], b.submissions[s]))
    && (a.run.Some? ==> b.submissions == a.submissions)
  }

  /** A deposit keeps its owner and amount; money that has arrived keeps its chain position and stays accounted
      for; and a rejected, seated or refunded deposit stays what it is. */
  predicate DepositLater(a: Intent, b: Intent) {
    && b.membership == a.membership && b.user == a.user && b.amount == a.amount && b.expiresAt == a.expiresAt
    && (Invariants.Funded(a.state) ==>
          Invariants.Funded(b.state) && b.block == a.block && b.index == a.index && b.hash == a.hash
          && b.finalizedAt == a.finalizedAt)
    && (a.state in {WalletRejected, AppliedToRoster, DepositState.Refunded} ==> b.state == a.state)
  }

  predicate DepositsLater(a: map<Id, Intent>, b: map<Id, Intent>) {
    forall i | i in a :: i in b && DepositLater(a[i], b[i])
  }

  /** The roster is fixed once the Pod is locked. */
  predicate RosterLater(a: Db, b: Db) {
    Locked(a.pod.state) ==> Roster(b.memberships) == Roster(a.memberships)
  }

  ghost predicate Later(a: Db, b: Db) {
    && a.clock <= b.clock
    && DepositsLater(a.intents, b.intents)
    && RosterLater(a, b)
    && a.ledger <= b.ledger
    && PodLater(a.pod, b.pod)
    && RefundsLater(a.refunds, b.refunds)
    && PayoutsLater(a.payouts, b.payouts)
    && RunLater(a.run, b.run)
    && SubmissionsLater(a, b)
  }

  lemma LaterIsReflexive(a: Db)
    ensures Later(a, a)
  {
  }

  lemma PayoutsLaterTwice(a: map<Id, L.Leg>, b: map<Id, L.Leg>, c: map<Id, L.Leg>)
    requires PayoutsLater(a, b) && PayoutsLater(b, c)
    ensures PayoutsLater(a, c)
  {
    hide L.Evolves;
    forall m | m in a ensures L.Evolves(a[m], c[m]) { L.EvolvesTransitively(a[m], b[m], c[m]); }
  }

  lemma RunLaterTwice(a: Option<Run>, b: Option<Run>, c: Option<Run>)
    requires RunLater(a, b) && RunLater(b, c)
    ensures RunLater(a, c)
  {
  }

  lemma RefundsLaterTwice(a: map<Id, RefundLeg>, b: map<Id, RefundLeg>, c: map<Id, RefundLeg>)
    requires RefundsLater(a, b) && RefundsLater(b, c)
    ensures RefundsLater(a, c)
  {
  }

  lemma SubmissionsLaterTwice(a: Db, b: Db, c: Db)
    requires SubmissionsLater(a, b) && SubmissionsLater(b, c) && RunLater(a.run, b.run)
    ensures SubmissionsLater(a, c)
  {
  }

  lemma DepositsLaterTwice(a: map<Id, Intent>, b: map<Id, Intent>, c: map<Id, Intent>)
    requires DepositsLater(a, b) && DepositsLater(b, c)
    ensures DepositsLater(a, c)
  {
  }

  lemma LaterIsTransitive(a: Db, b: Db, c: Db)
    requires Later(a, b) && Later(b, c)
    ensures Later(a, c)
  {
    hide RefundsLater, PayoutsLater, RunLater, SubmissionsLater, DepositsLater, Roster;
    DepositsLaterTwice(a.intents, b.intents, c.intents);
    RefundsLaterTwice(a.refunds, b.refunds, c.refunds);
    PayoutsLaterTwice(a.payouts, b.payouts, c.payouts);
    RunLaterTwice(a.run, b.run, c.run);
    SubmissionsLaterTwice(a, b, c);
  }

  // ---------------------------------------------------------------------------------------------
  // Every transaction goes forward.
  // ---------------------------------------------------------------------------------------------

  lemma FundIsLater(db: Db, a: FundingAction)
    requires Inv(db)
    ensures Later(db, FundStep(db, a).db)
  {
    hide Inv, FundStep, RefundsLater, PayoutsLater, RunLater, SubmissionsLater, DepositsLater, Roster;
    FundFrame(db, a);
    FundDeposits(db, a);
    FundRoster(db, a);
    SameIsLater(db, FundStep(db, a).db);
  }

  lemma OneDepositMoves(intents: map<Id, Intent>, i: Id, d: Intent)
    requires i in intents ==> DepositLater(intents[i], d)
    ensures DepositsLater(intents, intents[i := d])
  {
  }

  /** Funding moves at most one deposit, along the transition table. */
  lemma FundDeposits(db: Db, a: FundingAction)
    ensures DepositsLater(db.intents, FundStep(db, a).db.intents)
  {
    hide DepositsLater, Funding.HashTaken, Funding.EnrollmentRuns, Post;
    var after := FundStep(db, a).db.intents;
    if after == db.intents {
      LaterIsReflexive(db);
    } else {
      OneDepositMoves(db.intents, a.deposit, after[a.deposit]);
    }
  }

  lemma OneRowMoves(memberships: map<Id, Membership>, m: Id, r: Membership)
    requires !OnRoster(r.state) && (m in memberships ==> !OnRoster(memberships[m].state))
    ensures Roster(memberships[m := r]) == Roster(memberships)
  {
  }

  /** Funding never touches a membership on the roster. */
  lemma FundRoster(db: Db, a: FundingAction)
    requires Inv(db)
    ensures Roster(FundStep(db, a).db.memberships) == Roster(db.memberships)
  {
    hide Inv, Funding.HashTaken, Funding.EnrollmentRuns, Post, Roster;
    var after := FundStep(db, a).db.memberships;
    if after != db.memberships {
      match a {
        case WalletAttempt(i, open) =>
          RejectedIsOffRoster(db, i);
          OneRowMoves(db.memberships, db.intents[i].membership, after[db.intents[i].membership]);
        case CreditDeposit(i) =>
          OneRowMoves(db.memberships, db.intents[i].membership, after[db.intents[i].membership]);
        case Join(m, _, _) => OneRowMoves(db.memberships, m, after[m]);
        case DecideApplication(m, _) => OneRowMoves(db.memberships, m, after[m]);
        case CreateIntent(m, _, _, _, _) => OneRowMoves(db.memberships, m, after[m]);
        case _ =>
      }
    }
  }

  /** A deposit that can still be rejected belongs to nobody on the roster. */
  lemma RejectedIsOffRoster(db: Db, i: Id)
    requires Inv(db) && i in db.intents && db.intents[i].state == WalletApprovalPending
    ensures db.intents[i].membership in db.memberships
    ensures !OnRoster(db.memberships[db.intents[i].membership].state)
  {
    hide Inv, LinksOk;
    FundingKeeps.HasLinks(db);
    FundingKeeps.AboutDeposit(db, i);
    FundingKeeps.AboutMembership(db, db.intents[i].membership);
  }

  /** A step that leaves these rows alone. */
  lemma SameIsLater(a: Db, b: Db)
    requires a.refunds == b.refunds && a.payouts == b.payouts && a.run == b.run && a.submissions == b.submissions
    ensures RefundsLater(a.refunds, b.refunds) && PayoutsLater(a.payouts, b.payouts)
    ensures RunLater(a.run, b.run) && SubmissionsLater(a, b)
  {
  }

  lemma FundFrame(db: Db, a: FundingAction)
    ensures var after := FundStep(db, a).db;
            && after == db.(intents := after.intents, memberships := after.memberships, ledger := after.ledger)
            && db.ledger <= after.ledger
  {
    hide Funding.NextDepositState, Funding.HashTaken, Funding.EnrollmentRuns, Keys;
  }

  /** Refund legs that are new or kept. */
  lemma AddedLegsAreLater(a: map<Id, RefundLeg>, b: map<Id, RefundLeg>)
    requires forall i | i in a :: i in b && b[i] == a[i]
    ensures RefundsLater(a, b)
  {
  }

  lemma CutoffIsLater(db: Db)
    requires Inv(db)
    ensures Later(db, Cutoff.ApplyCutoff(db, db.clock).db)
  {
    hide Inv, LinksOk, Cutoff.Decide, Cutoff.BeginCutoff, Cutoff.Ranked, CutoffFates.FateAt, RefundsLater, PayoutsLater,
         RunLater, SubmissionsLater, DepositsLater, Roster, Cutoff.InChainOrder;
    if db.pod.state == EnrollmentOpen && Cutoff.CutoffDue(db, db.clock) {
      FundingKeeps.HasLinks(db);
      CutoffFates.RankedIsChainOrder(db);
      CutoffFates.CutoffDecidesFate(db, db.clock);
      CutoffFates.CutoffIsDecide(db, db.clock);
      var after, ranked := Cutoff.ApplyCutoff(db, db.clock).db, Cutoff.Ranked(db);
      DecideFrame(Cutoff.BeginCutoff(db), ranked);
      CutoffFates.LoopsReadyAtCutoff(db, db.clock);
      CutoffKeepsRefunds(db, after, ranked);
      CutoffKeepsDeposits(db, after, ranked, Cutoff.IncludedCount(db.pod.contract, |ranked|));
      AddedLegsAreLater(db.refunds, after.refunds);
      SameRestIsLater(db, after);
    } else {
      LaterIsReflexive(db);
    }
  }

  lemma SameRestIsLater(a: Db, b: Db)
    requires a.payouts == b.payouts && a.run == b.run && a.submissions == b.submissions
    ensures PayoutsLater(a.payouts, b.payouts) && RunLater(a.run, b.run) && SubmissionsLater(a, b)
  {
  }

  lemma DecideFrame(begin: Db, ranked: seq<Id>)
    requires Cutoff.Listed(begin, ranked)
    ensures var after := Cutoff.Decide(begin, ranked);
            && after == begin.(pod := after.pod, intents := after.intents, memberships := after.memberships,
                               refunds := after.refunds, ledger := after.ledger)
            && begin.ledger <= after.ledger
  {
    hide Cutoff.IncludeAll, Cutoff.RefundAll;
    assert forall i | i in ranked[..Cutoff.IncludedCount(begin.pod.contract, |ranked|)] :: i in ranked;
    assert forall i | i in ranked[Cutoff.IncludedCount(begin.pod.contract, |ranked|)..] :: i in ranked;
  }

  lemma CutoffKeepsRefunds(db: Db, after: Db, ranked: seq<Id>)
    requires Inv(db) && Cutoff.Listed(db, ranked)
    requires CutoffFates.Decided(db, after, ranked, Cutoff.IncludedCount(db.pod.contract, |ranked|))
    requires Cutoff.InChainOrder(db.intents, Cutoff.Credited(db), ranked)
    ensures forall i | i in db.refunds :: i in after.refunds && after.refunds[i] == db.refunds[i]
  {
    hide Inv, CutoffFates.FateAt;
    forall i | i in db.refunds ensures i in after.refunds && after.refunds[i] == db.refunds[i] {
      if i in ranked { CutoffKeeps.CreditedMember(db, i); }
      RefundIsDeposit(db, i);
      assert LegOf(after.refunds, i) == LegOf(db.refunds, i);
    }
  }

  lemma CutoffKeepsDeposits(db: Db, after: Db, ranked: seq<Id>, k: nat)
    requires k <= |ranked| && Cutoff.Listed(db, ranked) && CutoffFates.Decided(db, after, ranked, k)
    requires forall i | i in ranked :: i in Cutoff.Credited(db)
    ensures DepositsLater(db.intents, after.intents)
  {
    hide CutoffFates.RosterOf;
    forall i | i in db.intents ensures i in after.intents && DepositLater(db.intents[i], after.intents[i]) {
      if i in ranked {
        var j :| 0 <= j < |ranked| && ranked[j] == i;
        assert CutoffFates.FateAt(db, after, ranked, k, j);
      }
    }
  }

  lemma RefundIsDeposit(db: Db, i: Id)
    requires Inv(db) && i in db.refunds
    ensures i in db.intents
  {
    hide Inv;
    RefundsKeep.AboutLeg(db, i);
  }

  lemma CancelIsLater(db: Db, user: Id, order: seq<Id>)
    requires Inv(db) && Allowed(db, Cancel(user, order))
    ensures Later(db, Cutoff.CancelEnrollment(db, user, order).db)
  {
    hide Inv, Cutoff.RefundAll, CutoffFates.Enumerates, Cutoff.Credited, CutoffKeeps.Fated, RefundsLater, PayoutsLater,
         RunLater, SubmissionsLater, DepositsLater, Roster, Cutoff.Listed;
    if user == db.pod.creator && db.pod.state == EnrollmentOpen {
      CutoffFates.CancelRefundsAll(db, order);
      var closed := db.(memberships := Cutoff.CloseEntry(db.memberships));
      var after := Cutoff.CancelEnrollment(db, user, order).db;
      CancelKeepsRefunds(db, closed, after.(pod := closed.pod), order);
      CancelKeepsDeposits(db, closed, after.(pod := closed.pod), order);
      AddedLegsAreLater(db.refunds, after.refunds);
      SameRestIsLater(db, after);
    } else {
      LaterIsReflexive(db);
    }
  }

  lemma CancelKeepsRefunds(db: Db, closed: Db, after: Db, order: seq<Id>)
    requires Inv(db) && CutoffFates.Enumerates(order, Cutoff.Credited(db)) && Cutoff.Listed(closed, order)
    requires closed.refunds == db.refunds && closed.intents == db.intents
    requires CutoffKeeps.Fated(closed, after, order, RefundPending, MemberRefundPending, true)
    ensures forall i | i in db.refunds :: i in after.refunds && after.refunds[i] == db.refunds[i]
  {
    hide Inv, CutoffKeeps.Names;
    forall i | i in db.refunds ensures i in after.refunds && after.refunds[i] == db.refunds[i] {
      if i in order {
        assert i in Cutoff.Elements(order);
        CutoffKeeps.CreditedMember(db, i);
      }
    }
  }

  lemma CancelKeepsDeposits(db: Db, closed: Db, after: Db, order: seq<Id>)
    requires CutoffFates.Enumerates(order, Cutoff.Credited(db)) && Cutoff.Listed(closed, order)
    requires closed.intents == db.intents
    requires CutoffKeeps.Fated(closed, after, order, RefundPending, MemberRefundPending, true)
    ensures DepositsLater(db.intents, after.intents)
  {
    hide CutoffKeeps.Names, CutoffKeeps.LegsFor;
    forall i | i in db.intents ensures i in after.intents && DepositLater(db.intents[i], after.intents[i]) {
      if i in order { assert i in Cutoff.Elements(order); }
    }
  }

  /** Only one refund leg moved, forward. */
  lemma LegIsLater(db: Db, after: Db, i: Id)
    requires i in db.refunds && i in after.refunds && RefundLater(db.refunds[i], after.refunds[i])
    requires after.refunds == db.refunds[i := after.refunds[i]]
    requires after == db.(pod := after.pod, refunds := after.refunds, intents := after.intents,
                          memberships := after.memberships, ledger := after.ledger)
    requires db.ledger <= after.ledger && PodLater(db.pod, after.pod)
    requires DepositsLater(db.intents, after.intents) && RosterLater(db, after)
    ensures Later(db, after)
  {
    hide PayoutsLater, RunLater, SubmissionsLater, RefundLater, PodLater, DepositsLater, RosterLater;
    SameRestIsLater(db, after);
    OtherLegs(db.refunds, after.refunds, i);
  }

  lemma OtherLegs(a: map<Id, RefundLeg>, b: map<Id, RefundLeg>, i: Id)
    requires i in a && i in b && RefundLater(a[i], b[i]) && b == a[i := b[i]]
    ensures RefundsLater(a, b)
  {
  }

  lemma RefundDeposits(db: Db, i: Id, a: RefundAction)
    ensures DepositsLater(db.intents, RefundStep(db, i, a).db.intents)
  {
    hide DepositsLater, Refunds.RefundsOpen, Post, Refunds.RefundedMembership;
    var after := RefundStep(db, i, a).db.intents;
    if after == db.intents {
      LaterIsReflexive(db);
    } else {
      OneDepositMoves(db.intents, i, after[i]);
    }
  }

  lemma RefundRoster(db: Db, i: Id, a: RefundAction)
    ensures RosterLater(db, RefundStep(db, i, a).db)
  {
    hide Refunds.RefundsOpen, Post, Roster;
    var after := RefundStep(db, i, a).db.memberships;
    if after != db.memberships {
      OneRowMoves(db.memberships, db.refunds[i].membership, after[db.refunds[i].membership]);
    }
  }

  lemma RefundIsLater(db: Db, i: Id, a: RefundAction)
    requires a.ReportRefund? ==> Refunds.RefundReport(a.to)
    ensures Later(db, RefundStep(db, i, a).db)
  {
    hide Later, Refunds.RefundsOpen, Keys, Refunds.RefundedMembership, DepositsLater, RosterLater;
    var after := RefundStep(db, i, a).db;
    if after == db {
      LaterIsReflexive(db);
    } else {
      RefundDeposits(db, i, a);
      RefundRoster(db, i, a);
      LegIsLater(db, after, i);
    }
  }

  lemma ActIsLater(db: Db, m: Id, a: L.LegAction)
    requires Inv(db) && !a.DoConfirm? && (a.DoReport? ==> L.Reportable(a.to))
    ensures Later(db, Payouts.PayoutAct(db, m, a).db)
  {
    hide Inv, L.Act, L.Evolves, L.LegOk, EntitlementFits;
    if m in db.payouts && L.Act(m, db.payouts[m], a).Moved? {
      PayoutsKeep.AboutPayout(db, m);
      L.ActEvolves(m, db.payouts[m], a);
      LegsEvolve(db.payouts, m, L.Act(m, db.payouts[m], a).leg);
    } else {
      LaterIsReflexive(db);
    }
  }

  lemma LegsEvolve(payouts: map<Id, L.Leg>, m: Id, leg: L.Leg)
    requires m in payouts && L.Evolves(payouts[m], leg)
    ensures PayoutsLater(payouts, payouts[m := leg])
  {
  }

  lemma ConfirmIsLater(db: Db, m: Id, attempt: Id)
    requires Inv(db)
    ensures Later(db, Payouts.ConfirmPayout(db, m, attempt).db)
  {
    hide Inv, L.Confirm, L.Evolves, L.LegOk, RunLater, PayoutsLater, Payouts.Settle, Payouts.ConfirmRows;
    if m in db.payouts && L.Confirm(db.payouts[m], attempt).Moved? {
      PayoutsKeep.AboutPayout(db, m);
      PayoutsKeep.ConfirmMoves(db.payouts[m], attempt);
      PayoutsKeep.HasRun(db);
      PayoutsKeep.StillExecuting(db, m);
      hide RunOk;
      var leg := L.Confirm(db.payouts[m], attempt).leg;
      ConfirmEvolves(db.payouts[m], attempt);
      LegsEvolve(db.payouts, m, leg);
      SettleIsLater(db, m, leg);
    } else {
      LaterIsReflexive(db);
    }
  }

  lemma ConfirmEvolves(leg: L.Leg, attempt: Id)
    requires L.LegOk(leg) && L.Confirm(leg, attempt).Moved?
    ensures L.Evolves(leg, L.Confirm(leg, attempt).leg)
  {
    hide L.Evolves, L.LegOk;
    L.ActEvolves(0, leg, L.DoConfirm(attempt));
  }

  lemma SettleIsLater(db: Db, m: Id, leg: L.Leg)
    requires PayoutsKeep.Confirmable(db, m, leg) && db.run.value.state == Executing && db.pod.state == FinalReview
    requires db.run.value.entitlements[m].state == TransferQueued
    requires PayoutsLater(db.payouts, db.payouts[m := leg])
    ensures Later(db, Payouts.Settle(Payouts.ConfirmRows(db, m, leg)))
  {
    hide PayoutsLater, AllResolved, Keys;
  }

  lemma FinalizeIsLater(db: Db)
    requires Inv(db)
    ensures Later(db, Finalization.Finalize(db, db.clock).db)
  {
    hide Inv, Finalization.FundedRoster, Finalization.CalendarClosed, Finalization.CreditsMatch,
         Finalization.ReviewsDone, Finalization.FrozenInput, Finalization.Postings, Finalization.QueuedLegs,
         Finalization.Entitlements, Finalization.Freeze, FinalizationKeeps.ResultOf;
    if Finalization.Finalize(db, db.clock).reply == Done {
      FinalizationKeeps.DoneIsReady(db, db.clock);
      FinalizationKeeps.ReadyHolds(db);
      FinalizationKeeps.NoPayoutsYet(db);
    } else {
      LaterIsReflexive(db);
    }
  }

  lemma ActivateIsLater(db: Db, now: Time)
    ensures Later(db, Lifecycle.Activate(db, now))
  {
    hide RefundsLater, PayoutsLater, RunLater, SubmissionsLater, Lifecycle.ActivateAll, Roster;
    LifecycleKeeps.ActivateKeepsRoster(db, now);
    SameIsLater(db, Lifecycle.Activate(db, now));
  }

  lemma AdvanceIsLater(db: Db, now: Time)
    ensures Later(db, Lifecycle.Advance(db, now))
  {
    hide RefundsLater, PayoutsLater, RunLater, SubmissionsLater, Lifecycle.AdvanceWindows;
    SameIsLater(db, Lifecycle.Advance(db, now));
  }

  lemma EndIsLater(db: Db, now: Time)
    ensures Later(db, Lifecycle.End(db, now))
  {
    hide RefundsLater, PayoutsLater, RunLater, SubmissionsLater;
    SameIsLater(db, Lifecycle.End(db, now));
  }

  lemma CompleteIsLater(db: Db)
    ensures Later(db, Lifecycle.CompleteAlpha(db))
  {
    hide RefundsLater, PayoutsLater, RunLater, SubmissionsLater, Lifecycle.ReviewPending;
    SameIsLater(db, Lifecycle.CompleteAlpha(db));
  }

  lemma TransitionsAreLater(db: Db)
    ensures Later(db, Lifecycle.RunTransitions(db, db.clock).db)
  {
    hide Later, Lifecycle.Activate, Lifecycle.Advance, Lifecycle.End, Lifecycle.CompleteAlpha;
    var active := Lifecycle.Activate(db, db.clock);
    var advanced := Lifecycle.Advance(active, db.clock);
    var ended := Lifecycle.End(advanced, db.clock);
    ActivateIsLater(db, db.clock);
    AdvanceIsLater(active, db.clock);
    EndIsLater(advanced, db.clock);
    CompleteIsLater(ended);
    LaterIsTransitive(db, active, advanced);
    LaterIsTransitive(db, advanced, ended);
    LaterIsTransitive(db, ended, Lifecycle.CompleteAlpha(ended));
  }

  /** A step that only writes submissions, before there is a run. */
  lemma SubmissionsAreLater(db: Db, after: Db)
    requires after == db.(submissions := after.submissions)
    requires forall s | s in db.submissions ::
               s in after.submissions && SubmissionLater(db.submissions[s], after.submissions[s])
    requires db.run.Some? ==> after.submissions == db.submissions
    ensures Later(db, after)
  {
    hide SubmissionLater;
    LaterIsReflexive(db);
  }

  lemma LiveIsLater(db: Db, a: LifeAction)
    requires Inv(db)
    ensures Later(db, LiveStep(db, a).db)
  {
    hide Inv, Later, Lifecycle.IndexOf, Lifecycle.RunTransitions;
    if a.RunTransitions? {
      TransitionsAreLater(db);
    } else {
      var after := LiveStep(db, a).db;
      if db.run.Some? {
        NothingMoves(db, a);
      }
      SubmissionsAreLater(db, after);
    }
  }

  lemma NothingMoves(db: Db, a: LifeAction)
    requires Inv(db) && db.run.Some? && !a.RunTransitions?
    ensures LiveStep(db, a).db.submissions == db.submissions
  {
    hide Inv, Lifecycle.SaveDraft, Lifecycle.SubmitEvidence, Lifecycle.Decide, Lifecycle.ProtectTimedOut;
    match a {
      case SaveDraft(s, accepted) => LifecycleKeeps.SubmissionsAreFrozen(db, db.clock, s, accepted, None, {});
      case SubmitEvidence(s, accepted) => LifecycleKeeps.SubmissionsAreFrozen(db, db.clock, s, accepted, None, {});
      case Decide(s, decision, authorized) =>
        LifecycleKeeps.SubmissionsAreFrozen(db, db.clock, s, authorized, decision, {});
      case ProtectTimedOut(batch) =>
        LifecycleKeeps.SubmissionsAreFrozen(db, db.clock, SubmissionId(0, 0), true, None, batch);
    }
  }

  lemma ApplyIsLater(db: Db, a: Action)
    requires Inv(db) && Allowed(db, a)
    ensures Later(db, Apply(db, a).db)
  {
    hide Inv, Later, FundStep, RefundStep, LiveStep, Cutoff.ApplyCutoff, Cutoff.CancelEnrollment, Finalization.Finalize,
         Payouts.PayoutAct, Payouts.ConfirmPayout;
    match a {
      case Fund(action) => FundIsLater(db, action);
      case ApplyCutoff => CutoffIsLater(db);
      case Cancel(user, order) => CancelIsLater(db, user, order);
      case Refund(i, action) => RefundIsLater(db, i, action);
      case Pay(m, action) =>
        if action.DoConfirm? { ConfirmIsLater(db, m, action.id); } else { ActIsLater(db, m, action); }
      case Finalize => FinalizeIsLater(db);
      case Live(action) => LiveIsLater(db, action);
    }
  }

  lemma WaitIsLater(db: Db, now: Time)
    requires db.clock <= now
    ensures Later(db, Wait(db, now))
  {
  }

  lemma FollowsIsLater(before: Db, e: Event, after: Db)
    requires Inv(before) && Follows(before, e, after)
    ensures Later(before, after)
  {
    hide Inv, Later, Apply, Allowed;
    WaitKeeps(before, e.now);
    WaitIsLater(before, e.now);
    ApplyIsLater(Wait(before, e.now), e.action);
    LaterIsTransitive(before, Wait(before, e.now), after);
  }

  /** Between any two points of any run. */
  lemma {:induction false} HistoryIsForward(states: seq<Db>, events: seq<Event>, j: nat, k: nat)
    requires History(states, events) && Inv(states[0]) && j <= k < |states|
    ensures Later(states[j], states[k])
  {
    hide Inv, Later, Follows, History;
    if j == k {
      LaterIsReflexive(states[j]);
    } else {
      HistoryIsForward(states, events, j, k - 1);
      HistoryKeeps(states, events, k - 1);
      HistoryStep(states, events, k - 1);
      FollowsIsLater(states[k - 1], events[k - 1], states[k]);
      LaterIsTransitive(states[j], states[k - 1], states[k]);
    }
  }
}
