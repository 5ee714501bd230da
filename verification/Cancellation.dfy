/** The cancelled half of a Pod's life: which refund legs exist when, and that a cancelled Pod owes nothing. */
module Cancellation {
  import opened Basics
  import opened Ledger
  import opened Rows
  import opened Invariants
  import opened Transactions
  import opened Refunds
  import L = PayoutLegs
  import Conservation
  import Cutoff
  import CutoffFates
  import CutoffKeeps
  import Finalization
  import FinalizationGuards
  import FundingKeeps
  import Histories
  import Lifecycle

  /** Between transactions: no refund leg before the cutoff; a refunding Pod has an open leg unless it never had
      any; a cancelled Pod has none open. */
  predicate Tidy(pod: Pod, refunds: map<Id, RefundLeg>) {
    && pod.state != CutoffEvaluating
    && (pod.state == EnrollmentOpen ==> refunds == map[])
    && (pod.state == CancelledRefunding ==> (RefundsOpen(refunds) <==> refunds != map[]))
    && (pod.state == PodState.Cancelled ==> !RefundsOpen(refunds))
  }

  predicate TidyDb(db: Db) {
    Tidy(db.pod, db.refunds)
  }

  // ---------------------------------------------------------------------------------------------
  // The cutoff and the cancellation.
  // ---------------------------------------------------------------------------------------------

  /** The refund legs after a cutoff are those of the refunded deposits, all queued. */
  lemma CutoffLegs(db: Db)
    requires Inv(db) && Cutoff.CutoffDue(db, db.clock) && db.refunds == map[]
    ensures var after, ranked := Cutoff.ApplyCutoff(db, db.clock).db, Cutoff.Ranked(db);
            var k := Cutoff.IncludedCount(db.pod.contract, |ranked|);
            && after.refunds.Keys == Cutoff.Elements(CutoffFates.RefundList(db, ranked, k))
            && forall i | i in after.refunds :: after.refunds[i].state == L.Queued
  {
    hide Inv, Cutoff.ApplyCutoff, Cutoff.Ranked, Cutoff.InChainOrder;
    CutoffFates.CutoffDecidesFate(db, db.clock);
    CutoffFates.ApplyCutoffKeeps(db, db.clock);
    var after, ranked := Cutoff.ApplyCutoff(db, db.clock).db, Cutoff.Ranked(db);
    DistinctRanks(db);
    LegsAreOfDeposits(after);
    DecidedLegs(db, after, ranked, Cutoff.IncludedCount(db.pod.contract, |ranked|));
  }

  lemma DistinctRanks(db: Db)
    requires db.occurrences != []
    ensures forall a, b | 0 <= a < b < |Cutoff.Ranked(db)| :: Cutoff.Ranked(db)[a] != Cutoff.Ranked(db)[b]
  {
  }

  lemma LegsAreOfDeposits(db: Db)
    requires Inv(db)
    ensures db.refunds.Keys <= db.intents.Keys
  {
    hide Inv, LinksOk;
    FundingKeeps.HasLinks(db);
    FinalizationGuards.RefundsHaveDeposits(db);
  }

  lemma DecidedLegs(db: Db, after: Db, ranked: seq<Id>, k: nat)
    requires k <= |ranked| && Cutoff.Listed(db, ranked) && CutoffFates.Decided(db, after, ranked, k)
    requires db.refunds == map[] && after.refunds.Keys <= after.intents.Keys
    requires forall a, b | 0 <= a < b < |ranked| :: ranked[a] != ranked[b]
    ensures after.refunds.Keys == Cutoff.Elements(CutoffFates.RefundList(db, ranked, k))
    ensures forall i | i in after.refunds :: after.refunds[i].state == L.Queued
  {
    var list := CutoffFates.RefundList(db, ranked, k);
    hide CutoffFates.Decided;
    forall i | i in db.intents
      ensures LegOf(after.refunds, i) == if i in list then Some(Cutoff.NewRefundLeg(db.intents[i])) else None
    {
      DecidedLeg(db, after, ranked, k, i);
    }
    SameDeposits(db, after, ranked, k);
    forall i ensures i in after.refunds <==> i in list {
      assert i in list ==> i in ranked;
      assert i in after.refunds ==> LegOf(after.refunds, i) == Some(after.refunds[i]);
    }
    forall i | i in after.refunds ensures after.refunds[i].state == L.Queued {
      assert LegOf(after.refunds, i) == Some(after.refunds[i]);
    }
  }

  lemma SameDeposits(db: Db, after: Db, ranked: seq<Id>, k: nat)
    requires k <= |ranked| && Cutoff.Listed(db, ranked) && CutoffFates.Decided(db, after, ranked, k)
    ensures after.intents.Keys == db.intents.Keys
  {
    hide CutoffFates.FateAt;
  }

  lemma DecidedLeg(db: Db, after: Db, ranked: seq<Id>, k: nat, i: Id)
    requires k <= |ranked| && Cutoff.Listed(db, ranked) && CutoffFates.Decided(db, after, ranked, k)
    requires db.refunds == map[] && i in db.intents
    requires forall a, b | 0 <= a < b < |ranked| :: ranked[a] != ranked[b]
    ensures LegOf(after.refunds, i)
         == if i in CutoffFates.RefundList(db, ranked, k) then Some(Cutoff.NewRefundLeg(db.intents[i])) else None
  {
    if i in ranked {
      var j :| 0 <= j < |ranked| && ranked[j] == i;
      assert CutoffFates.FateAt(db, after, ranked, k, j);
      CutoffFates.InOneHalf(ranked, k, j);
    } else {
      assert i !in CutoffFates.RefundList(db, ranked, k);
    }
  }

  lemma QueuedLegsAreOpen(refunds: map<Id, RefundLeg>)
    requires forall i | i in refunds :: refunds[i].state == L.Queued
    ensures RefundsOpen(refunds) <==> refunds != map[]
  {
    if refunds != map[] {
      var i :| i in refunds;
      assert refunds[i].state != L.Confirmed;
    }
  }

  lemma RankedCount(db: Db)
    requires Inv(db) && db.occurrences != []
    ensures |Cutoff.Ranked(db)| == |Cutoff.Credited(db)|
    ensures Cutoff.Elements(Cutoff.Ranked(db)) == Cutoff.Credited(db)
  {
    hide Inv;
    CutoffKeeps.NoLateDeposits(db);
    assert Cutoff.Credited(db) - {} == Cutoff.Credited(db);
  }

  /** What a due cutoff does to the Pod: it locks exactly when the minimum is met. Otherwise every credited deposit
      is refunded; and the Pod has nothing to refund exactly when nobody was funded. */
  lemma CutoffOutcome(db: Db)
    requires Inv(db) && TidyDb(db) && Cutoff.CutoffDue(db, db.clock)
    ensures var after := Cutoff.ApplyCutoff(db, db.clock).db;
            && after.pod.state ==
                 (if |Cutoff.Credited(db)| >= db.pod.contract.minParticipants then LockedScheduled
                  else CancelledRefunding)
            && (after.pod.state == CancelledRefunding ==> after.refunds.Keys == Cutoff.Credited(db))
            && (after.pod.state == CancelledRefunding && after.refunds == map[] <==> Cutoff.Credited(db) == {})
            && (RefundsOpen(after.refunds) <==> after.refunds != map[])
  {
    hide Inv, Cutoff.ApplyCutoff, Cutoff.Ranked, CutoffFates.FateAt, PublishedContract;
    CutoffLegs(db);
    QueuedLegsAreOpen(Cutoff.ApplyCutoff(db, db.clock).db.refunds);
    CutoffFates.CutoffDecidesFate(db, db.clock);
    RankedCount(db);
    FinalizationGuards.HasContract(db);
    TwoSeats(db.pod.contract);
    assert Cutoff.Ranked(db)[0..] == Cutoff.Ranked(db);
  }

  lemma TwoSeats(c: Contract)
    requires PublishedContract(c)
    ensures 2 <= c.minParticipants <= c.maxParticipants
  {
  }

  lemma CutoffIsTidy(db: Db)
    requires Inv(db) && TidyDb(db)
    ensures TidyDb(Cutoff.ApplyCutoff(db, db.clock).db)
  {
    hide Inv, Cutoff.Decide, Cutoff.BeginCutoff, Cutoff.Ranked, RefundsOpen;
    if db.pod.state == EnrollmentOpen && Cutoff.CutoffDue(db, db.clock) { CutoffOutcome(db); }
  }

  lemma CancelIsTidy(db: Db, user: Id, order: seq<Id>)
    requires Inv(db) && TidyDb(db) && Allowed(db, Cancel(user, order))
    ensures TidyDb(Cutoff.CancelEnrollment(db, user, order).db)
  {
    hide Inv, Cutoff.RefundAll, CutoffFates.Enumerates, Cutoff.Credited, CutoffKeeps.Fated, Cutoff.Listed, RefundsOpen;
    if user == db.pod.creator && db.pod.state == EnrollmentOpen {
      CutoffFates.CancelRefundsAll(db, order);
      var closed := db.(memberships := Cutoff.CloseEntry(db.memberships));
      var after := Cutoff.CancelEnrollment(db, user, order).db;
      CancelLegs(closed, after.(pod := closed.pod), order);
      QueuedLegsAreOpen(after.refunds);
    }
  }

  lemma CancelLegs(closed: Db, after: Db, order: seq<Id>)
    requires Cutoff.Listed(closed, order) && closed.refunds == map[]
    requires CutoffKeeps.Fated(closed, after, order, RefundPending, MemberRefundPending, true)
    ensures after.refunds.Keys == Cutoff.Elements(order)
    ensures order == [] <==> after.refunds == map[]
    ensures forall i | i in after.refunds :: after.refunds[i].state == L.Queued
  {
    hide CutoffKeeps.Names, CutoffKeeps.EntriesFor;
    assert after.refunds == CutoffKeeps.LegsFor(closed.intents, order);
    assert order != [] ==> order[0] in order && order[0] in after.refunds;
    assert order == [] ==> forall i :: i !in after.refunds;
  }

  // ---------------------------------------------------------------------------------------------
  // Every transaction.
  // ---------------------------------------------------------------------------------------------

  lemma RefundIsTidy(db: Db, i: Id, a: RefundAction)
    requires TidyDb(db) && (a.ReportRefund? ==> RefundReport(a.to))
    ensures TidyDb(RefundStep(db, i, a).db)
  {
    hide Post, RefundedMembership;
    var after := RefundStep(db, i, a).db;
    if after != db && db.pod.state == CancelledRefunding && !a.ConfirmRefund? {
      assert after.refunds[i].state != L.Confirmed;
    }
  }

  lemma PayKeepsRefunds(db: Db, m: Id, a: L.LegAction)
    requires a.DoReport? ==> L.Reportable(a.to)
    ensures PayStep(db, m, a).db.refunds == db.refunds
    ensures PayStep(db, m, a).db.pod.state == db.pod.state || PayStep(db, m, a).db.pod.state == Completed
  {
    hide L.Act, L.Confirm, AllResolved, Post;
  }

  lemma LiveKeepsRefunds(db: Db, a: LifeAction)
    ensures LiveStep(db, a).db.refunds == db.refunds
    ensures var after := LiveStep(db, a).db.pod.state;
            after == db.pod.state || (Locked(db.pod.state) && after in {PodActive, FinalReview, Completed})
  {
    hide Lifecycle.IndexOf, Lifecycle.NextSubmissionState, Lifecycle.RunTransitions, Lifecycle.Overdue;
    if a.RunTransitions? { TransitionsKeepRefunds(db, db.clock); }
  }

  lemma TransitionsKeepRefunds(db: Db, now: Time)
    ensures var after := Lifecycle.RunTransitions(db, now).db;
            && after.refunds == db.refunds
            && (after.pod.state == db.pod.state
                || (Locked(db.pod.state) && after.pod.state in {PodActive, FinalReview, Completed}))
  {
    hide Lifecycle.ActivateAll, Lifecycle.AdvanceWindows, Lifecycle.ReviewPending;
  }

  lemma FinalizeKeepsRefunds(db: Db)
    ensures Finalization.Finalize(db, db.clock).db.refunds == db.refunds
    ensures Finalization.Finalize(db, db.clock).db.pod == db.pod
  {
    hide Finalization.FundedRoster, Finalization.CalendarClosed, Finalization.CreditsMatch, Finalization.ReviewsDone,
         Finalization.FrozenInput, Finalization.Postings, Finalization.QueuedLegs, Finalization.Entitlements,
         Finalization.Freeze;
  }

  /** Every transaction leaves the refunds tidy. */
  lemma ApplyIsTidy(db: Db, a: Action)
    requires Inv(db) && TidyDb(db) && Allowed(db, a)
    ensures TidyDb(Apply(db, a).db)
  {
    hide Inv, FundStep, RefundStep, PayStep, LiveStep, Cutoff.ApplyCutoff, Cutoff.CancelEnrollment,
         Finalization.Finalize, RefundsOpen;
    match a {
      case Fund(action) => Histories.FundFrame(db, action);
      case ApplyCutoff => CutoffIsTidy(db);
      case Cancel(user, order) => CancelIsTidy(db, user, order);
      case Refund(i, action) => RefundIsTidy(db, i, action);
      case Pay(m, action) => PayKeepsRefunds(db, m, action);
      case Finalize => FinalizeKeepsRefunds(db);
      case Live(action) => LiveKeepsRefunds(db, action);
    }
  }

  /** Over every run from a tidy Pod, a published one for instance, the refunds stay tidy. */
  lemma {:induction false} HistoryIsTidy(states: seq<Db>, events: seq<Event>, k: nat)
    requires History(states, events) && Inv(states[0]) && TidyDb(states[0]) && k < |states|
    ensures TidyDb(states[k])
  {
    hide Inv, History, Apply, Allowed, Tidy;
    if k > 0 {
      HistoryIsTidy(states, events, k - 1);
      HistoryKeeps(states, events, k - 1);
      HistoryStep(states, events, k - 1);
      var before := Wait(states[k - 1], events[k - 1].now);
      WaitKeeps(states[k - 1], events[k - 1].now);
      ApplyIsTidy(before, events[k - 1].action);
    }
  }

  // ---------------------------------------------------------------------------------------------
  // The books of a cancelled Pod.
  // ---------------------------------------------------------------------------------------------

  /** Once a Pod is refunding or cancelled, no participant holds a deposit and no run exists. */
  lemma NothingHeld(db: Db, m: Id)
    requires Inv(db) && db.pod.state in {CancelledRefunding, PodState.Cancelled}
    ensures db.run.None? && HeldFor(db.memberships, db.intents, db.run.Some?, m) == 0
  {
    hide Inv, LinksOk;
    FundingKeeps.HasLinks(db);
    NoRunWhenCancelled(db);
    if m in db.memberships {
      FundingKeeps.AboutMembership(db, m);
      if db.memberships[m].intent.Some? { FundingKeeps.AboutDeposit(db, db.memberships[m].intent.value); }
    }
  }

  lemma NoRunWhenCancelled(db: Db)
    requires Inv(db) && db.pod.state in {CancelledRefunding, PodState.Cancelled}
    ensures db.run.None?
  {
    hide LinksOk, BookOk, LifeOk, SubmissionsOk, LegsOk, FrozenOk, Roster, EntitlementFits;
  }

  /** While a Pod is refunding the treasury holds exactly its unconfirmed refunds. */
  lemma RefundingPodOwesRefunds(db: Db)
    requires Inv(db) && db.pod.state in {CancelledRefunding, PodState.Cancelled}
    ensures TreasuryAsset(db.ledger) == Conservation.RefundsOwed(db)
  {
    hide Inv, SumOver, Net, HeldFor;
    Conservation.TreasuryCoversAll(db);
    NoRunWhenCancelled(db);
    var held := (m: Id) => HeldFor(db.memberships, db.intents, db.run.Some?, m);
    forall m | m in db.memberships ensures held(m) == 0 { NothingHeld(db, m); }
    SumOverConstant(db.memberships.Keys, held, 0);
    SumOverConstant({}, m => PayoutOwed(db.run, m), 0);
  }

  /** A locked Pod with full refunds: no participant holds a deposit, and no run exists. */
  lemma NothingHeldInAlpha(db: Db, m: Id)
    requires Inv(db) && db.pod.contract.mode == FullRefundAlpha && Locked(db.pod.state)
    ensures db.run.None? && HeldFor(db.memberships, db.intents, db.run.Some?, m) == 0
  {
    hide Inv, LinksOk;
    FundingKeeps.HasLinks(db);
    NoRunInAlpha(db);
    if m in db.memberships {
      FundingKeeps.AboutMembership(db, m);
      if db.memberships[m].intent.Some? { FundingKeeps.AboutDeposit(db, db.memberships[m].intent.value); }
    }
  }

  lemma NoRunInAlpha(db: Db)
    requires Inv(db) && db.pod.contract.mode == FullRefundAlpha
    ensures db.run.None?
  {
    hide LinksOk, BookOk, LifeOk, SubmissionsOk, LegsOk, FrozenOk, Roster, EntitlementFits;
  }

  /** From its cutoff on, also once it is completed, a Pod with full refunds owes exactly its unconfirmed refunds. */
  lemma AlphaPodOwesRefunds(db: Db)
    requires Inv(db) && db.pod.contract.mode == FullRefundAlpha && Locked(db.pod.state)
    ensures TreasuryAsset(db.ledger) == Conservation.RefundsOwed(db)
  {
    hide Inv, SumOver, Net, HeldFor;
    Conservation.TreasuryCoversAll(db);
    NoRunInAlpha(db);
    var held := (m: Id) => HeldFor(db.memberships, db.intents, db.run.Some?, m);
    forall m | m in db.memberships ensures held(m) == 0 { NothingHeldInAlpha(db, m); }
    SumOverConstant(db.memberships.Keys, held, 0);
    SumOverConstant({}, m => PayoutOwed(db.run, m), 0);
  }

  /** The same at every point of every run once the Pod was locked. */
  lemma AlphaPodAlwaysOwesRefunds(states: seq<Db>, events: seq<Event>, j: nat, k: nat)
    requires History(states, events) && Inv(states[0]) && j <= k < |states|
    requires states[j].pod.contract.mode == FullRefundAlpha && Locked(states[j].pod.state)
    ensures TreasuryAsset(states[k].ledger) == Conservation.RefundsOwed(states[k])
  {
    hide Inv, History, Histories.DepositsLater, Histories.RosterLater, Histories.RefundsLater, Histories.PayoutsLater,
         Histories.RunLater, Histories.SubmissionsLater, Conservation.RefundsOwed, TreasuryAsset;
    HistoryKeeps(states, events, k);
    Histories.HistoryIsForward(states, events, j, k);
    AlphaPodOwesRefunds(states[k]);
  }

  /** A cancelled Pod has confirmed every refund, and treasury and all accounts are back to zero. */
  lemma CancelledPodIsEven(db: Db, a: Account)
    requires Inv(db) && TidyDb(db) && db.pod.state == PodState.Cancelled
    ensures forall i | i in db.refunds :: db.refunds[i].state == L.Confirmed
    ensures TreasuryAsset(db.ledger) == 0
    ensures Net(db.ledger, a) == 0
  {
    hide Inv, SumOver, Net;
    RefundingPodOwesRefunds(db);
    forall i | i in db.refunds ensures RefundOwed(db.refunds, i) == 0 && db.refunds[i].state == L.Confirmed {
    }
    SumOverConstant(db.refunds.Keys, i => RefundOwed(db.refunds, i), 0);
    if a != Treasury {
      FundingKeeps.AboutBalance(db, a);
      match a {
        case Participant(m) => NothingHeld(db, m);
        case PayoutDue(m) => NoRunWhenCancelled(db);
        case _ =>
      }
    }
  }

  /** Over every run: whenever the Pod is cancelled its books are even. */
  lemma CancelledPodStaysEven(states: seq<Db>, events: seq<Event>, k: nat, a: Account)
    requires History(states, events) && Inv(states[0]) && TidyDb(states[0])
    requires k < |states| && states[k].pod.state == PodState.Cancelled
    ensures forall i | i in states[k].refunds :: states[k].refunds[i].state == L.Confirmed
    ensures TreasuryAsset(states[k].ledger) == 0 && Net(states[k].ledger, a) == 0
  {
    hide Inv, History, Tidy, Net;
    HistoryKeeps(states, events, k);
    HistoryIsTidy(states, events, k);
    CancelledPodIsEven(states[k], a);
  }
}
