/** When a membership ends in funding failed: only by a rejection in the wallet, which no state of the Pod stops. */
module FundingFailures {
  import opened Basics
  import opened Rows
  import opened Invariants
  import opened Transactions
  import Cutoff
  import CutoffFates
  import CutoffKeeps
  import Finalization
  import Funding
  import FundingKeeps
  import Histories
  import Ledger
  import Lifecycle
  import Refunds
  import L = PayoutLegs

  /** The transaction is the rejection of the deposit this membership points to, with its wallet request open. */
  predicate Rejects(db: Db, a: Action, m: Id)
    requires m in db.memberships
  {
    && a.Fund? && a.funding.WalletAttempt? && !a.funding.open
    && db.memberships[m].intent == Some(a.funding.deposit)
    && a.funding.deposit in db.intents
    && db.intents[a.funding.deposit].state == WalletApprovalPending
  }

  // ---------------------------------------------------------------------------------------------
  // One transaction.
  // ---------------------------------------------------------------------------------------------

  lemma WalletFails(db: Db, i: Id, open: bool, m: Id)
    requires Inv(db) && m in db.memberships && db.memberships[m].state != FundingFailed
    ensures var after := Funding.WalletAttempt(db, i, open).db.memberships;
            m in after && (after[m].state == FundingFailed <==> Rejects(db, Fund(WalletAttempt(i, open)), m))
  {
    hide Inv, LinksOk;
    FundingKeeps.HasLinks(db);
    FundingKeeps.AboutMembership(db, m);
    if i in db.intents { FundingKeeps.AboutDeposit(db, i); }
  }

  lemma OtherFundingNeverFails(db: Db, a: FundingAction, m: Id)
    requires m in db.memberships && db.memberships[m].state != FundingFailed && !a.WalletAttempt?
    ensures m in FundStep(db, a).db.memberships && FundStep(db, a).db.memberships[m].state != FundingFailed
  {
    hide Funding.HashTaken, Funding.EnrollmentRuns, Funding.NextDepositState, Ledger.Post;
  }

  lemma FundFails(db: Db, a: FundingAction, m: Id)
    requires Inv(db) && m in db.memberships && db.memberships[m].state != FundingFailed
    ensures var after := FundStep(db, a).db.memberships;
            m in after && (after[m].state == FundingFailed <==> Rejects(db, Fund(a), m))
  {
    hide Inv, FundStep;
    if a.WalletAttempt? {
      WalletFailsAsStep(db, a, m);
    } else {
      OtherFundingNeverFails(db, a, m);
    }
  }

  lemma WalletFailsAsStep(db: Db, a: FundingAction, m: Id)
    requires Inv(db) && m in db.memberships && db.memberships[m].state != FundingFailed && a.WalletAttempt?
    ensures var after := FundStep(db, a).db.memberships;
            m in after && (after[m].state == FundingFailed <==> Rejects(db, Fund(a), m))
  {
    hide Inv, Funding.WalletAttempt, Rejects;
    WalletFails(db, a.deposit, a.open, m);
  }

  lemma CutoffNeverFails(db: Db, m: Id)
    requires Inv(db) && m in db.memberships && db.memberships[m].state != FundingFailed
    ensures var after := Cutoff.ApplyCutoff(db, db.clock).db.memberships;
            m in after && after[m].state != FundingFailed
  {
    hide Inv, LinksOk, Cutoff.Decide, Cutoff.BeginCutoff, Cutoff.Ranked, Cutoff.InChainOrder, CutoffFates.FateAt;
    if db.pod.state == EnrollmentOpen && Cutoff.CutoffDue(db, db.clock) {
      FundingKeeps.HasLinks(db);
      CutoffFates.CutoffDecidesFate(db, db.clock);
      var ranked := Cutoff.Ranked(db);
      DecidedNeverFails(db, Cutoff.ApplyCutoff(db, db.clock).db, ranked,
                        Cutoff.IncludedCount(db.pod.contract, |ranked|), m);
    }
  }

  lemma DecidedNeverFails(db: Db, after: Db, ranked: seq<Id>, k: nat, m: Id)
    requires k <= |ranked| && Cutoff.Listed(db, ranked) && CutoffFates.Decided(db, after, ranked, k)
    requires m in db.memberships && db.memberships[m].state != FundingFailed
    ensures m in after.memberships && after.memberships[m].state != FundingFailed
  {
    hide CutoffFates.RefundList, CutoffKeeps.EntriesFor;
    if CutoffKeeps.Names(db, ranked, m) {
      var i :| i in ranked && db.intents[i].membership == m;
      var j :| 0 <= j < |ranked| && ranked[j] == i;
      assert CutoffFates.FateAt(db, after, ranked, k, j);
    }
  }

  lemma CancelNeverFails(db: Db, user: Id, order: seq<Id>, m: Id)
    requires Inv(db) && Allowed(db, Cancel(user, order))
    requires m in db.memberships && db.memberships[m].state != FundingFailed
    ensures var after := Cutoff.CancelEnrollment(db, user, order).db.memberships;
            m in after && after[m].state != FundingFailed
  {
    hide Inv, Cutoff.RefundAll, CutoffFates.Enumerates, Cutoff.Credited, CutoffKeeps.Fated, Cutoff.Listed;
    if user == db.pod.creator && db.pod.state == EnrollmentOpen {
      CutoffFates.CancelRefundsAll(db, order);
      var closed := db.(memberships := Cutoff.CloseEntry(db.memberships));
      FatedNeverFails(closed, Cutoff.CancelEnrollment(db, user, order).db.(pod := closed.pod), order, m);
    }
  }

  lemma FatedNeverFails(closed: Db, after: Db, order: seq<Id>, m: Id)
    requires Cutoff.Listed(closed, order)
    requires CutoffKeeps.Fated(closed, after, order, RefundPending, MemberRefundPending, true)
    requires m in closed.memberships && closed.memberships[m].state != FundingFailed
    ensures m in after.memberships && after.memberships[m].state != FundingFailed
  {
    hide CutoffKeeps.Names, CutoffKeeps.LegsFor, CutoffKeeps.EntriesFor;
  }

  lemma RefundNeverFails(db: Db, i: Id, a: RefundAction, m: Id)
    requires m in db.memberships && db.memberships[m].state != FundingFailed
    ensures m in RefundStep(db, i, a).db.memberships
    ensures RefundStep(db, i, a).db.memberships[m].state != FundingFailed
    ensures RefundStep(db, i, a).db.memberships[m].intent == db.memberships[m].intent
  {
    hide Refunds.RefundsOpen, Ledger.Post;
  }

  lemma LiveNeverFails(db: Db, a: LifeAction, m: Id)
    requires m in db.memberships && db.memberships[m].state != FundingFailed
    ensures m in LiveStep(db, a).db.memberships && LiveStep(db, a).db.memberships[m].state != FundingFailed
    ensures LiveStep(db, a).db.memberships[m].intent == db.memberships[m].intent
    ensures LiveStep(db, a).db.intents == db.intents
  {
    hide Lifecycle.IndexOf, Lifecycle.NextSubmissionState, Lifecycle.Overdue, Lifecycle.RunTransitions;
    if a.RunTransitions? { TransitionsNeverFail(db, db.clock, m); }
  }

  lemma TransitionsNeverFail(db: Db, now: Time, m: Id)
    requires m in db.memberships && db.memberships[m].state != FundingFailed
    ensures var after := Lifecycle.RunTransitions(db, now).db;
            && m in after.memberships && after.memberships[m].state != FundingFailed
            && after.memberships[m].intent == db.memberships[m].intent && after.intents == db.intents
  {
    hide Lifecycle.ActivateAll, Lifecycle.AdvanceWindows, Lifecycle.ReviewPending, Lifecycle.ActivationDue,
         Lifecycle.Ending;
    ActivatedNeverFails(db.memberships, m);
  }

  lemma ActivatedNeverFails(memberships: map<Id, Membership>, m: Id)
    requires m in memberships && memberships[m].state != FundingFailed
    ensures var after := Lifecycle.ActivateAll(memberships);
            m in after && after[m].state != FundingFailed && after[m].intent == memberships[m].intent
  {
  }

  /** Paying and finalizing leave deposits and memberships alone. */
  lemma PayFrame(db: Db, m: Id, a: L.LegAction)
    requires a.DoReport? ==> L.Reportable(a.to)
    ensures PayStep(db, m, a).db.memberships == db.memberships && PayStep(db, m, a).db.intents == db.intents
  {
    hide L.Act, L.Confirm, AllResolved, Ledger.Post;
  }

  lemma FinalizeFrame(db: Db)
    ensures Finalization.Finalize(db, db.clock).db.memberships == db.memberships
    ensures Finalization.Finalize(db, db.clock).db.intents == db.intents
  {
    hide Finalization.FundedRoster, Finalization.CalendarClosed, Finalization.CreditsMatch, Finalization.ReviewsDone,
         Finalization.FrozenInput, Finalization.Postings, Finalization.QueuedLegs, Finalization.Entitlements,
         Finalization.Freeze;
  }

  /** A transaction leaves a membership in funding failed exactly when it rejects the open wallet request of the
      deposit the membership points to, whatever the state of Pod and membership. */
  lemma FailsIffRejected(db: Db, a: Action, m: Id)
    requires Inv(db) && Allowed(db, a) && m in db.memberships && db.memberships[m].state != FundingFailed
    ensures var after := Apply(db, a).db.memberships;
            m in after && (after[m].state == FundingFailed <==> Rejects(db, a, m))
  {
    hide Inv, FundStep, RefundStep, PayStep, LiveStep, Cutoff.ApplyCutoff, Cutoff.CancelEnrollment,
         Finalization.Finalize;
    match a {
      case Fund(action) => FundFails(db, action, m);
      case ApplyCutoff => CutoffNeverFails(db, m);
      case Cancel(user, order) => CancelNeverFails(db, user, order, m);
      case Refund(i, action) => RefundNeverFails(db, i, action, m);
      case Pay(n, action) => PayFrame(db, n, action);
      case Finalize => FinalizeFrame(db);
      case Live(action) => LiveNeverFails(db, action, m);
    }
  }

  // ---------------------------------------------------------------------------------------------
  // After enrollment.
  // ---------------------------------------------------------------------------------------------

  /** The membership points to a deposit whose wallet request is still to come or open. */
  predicate CanStillFail(db: Db, m: Id) {
    && m in db.memberships && db.memberships[m].intent.Some?
    && db.memberships[m].intent.value in db.intents
    && db.intents[db.memberships[m].intent.value].state in {IntentCreated, WalletApprovalPending}
  }

  /** Enrollment is closed, and the membership has not failed and no longer can. */
  predicate PastFailing(db: Db, m: Id) {
    && db.pod.state != EnrollmentOpen
    && m in db.memberships && db.memberships[m].state != FundingFailed && !CanStillFail(db, m)
  }

  /** Funding gives a membership a deposit only during enrollment, and moves no deposit back to its wallet. */
  lemma FundKeepsPointers(db: Db, a: FundingAction, m: Id)
    requires db.pod.state != EnrollmentOpen && m in db.memberships
    ensures var after := FundStep(db, a).db;
            && after.pod == db.pod
            && m in after.memberships && after.memberships[m].intent in {None, db.memberships[m].intent}
  {
    hide Funding.HashTaken, Funding.NextDepositState, Ledger.Post;
  }

  predicate InWallet(intents: map<Id, Intent>, i: Id) {
    i in intents && intents[i].state in {IntentCreated, WalletApprovalPending}
  }

  lemma FundNeverReopens(db: Db, a: FundingAction, i: Id)
    requires db.pod.state != EnrollmentOpen && !InWallet(db.intents, i)
    ensures !InWallet(FundStep(db, a).db.intents, i)
  {
    hide FundStep, InWallet;
    if a.Join? || a.DecideApplication? || a.CreateIntent? {
      EntryNeverReopens(db, a, i);
    } else if a.WalletAttempt? {
      WalletNeverReopens(db, a, i);
    } else {
      ChainNeverReopens(db, a, i);
    }
  }

  lemma EntryNeverReopens(db: Db, a: FundingAction, i: Id)
    requires db.pod.state != EnrollmentOpen && !InWallet(db.intents, i)
    requires a.Join? || a.DecideApplication? || a.CreateIntent?
    ensures !InWallet(FundStep(db, a).db.intents, i)
  {
    hide InWallet;
  }

  lemma WalletNeverReopens(db: Db, a: FundingAction, i: Id)
    requires !InWallet(db.intents, i) && a.WalletAttempt?
    ensures !InWallet(FundStep(db, a).db.intents, i)
  {
  }

  lemma ChainNeverReopens(db: Db, a: FundingAction, i: Id)
    requires !InWallet(db.intents, i)
    requires a.TransactionHint? || a.FlagDeposit? || a.ObserveDeposit? || a.FinalizeDeposit? || a.CreditDeposit?
    ensures !InWallet(FundStep(db, a).db.intents, i)
  {
    hide Funding.HashTaken, Ledger.Post;
  }

  lemma FundKeepsPast(db: Db, a: FundingAction, m: Id)
    requires Inv(db) && PastFailing(db, m)
    ensures PastFailing(FundStep(db, a).db, m)
  {
    hide Inv, FundStep;
    FundFails(db, a, m);
    FundKeepsPointers(db, a, m);
    if db.memberships[m].intent.Some? { FundNeverReopens(db, a, db.memberships[m].intent.value); }
  }

  lemma RefundKeepsPast(db: Db, i: Id, a: RefundAction, m: Id)
    requires PastFailing(db, m)
    ensures PastFailing(RefundStep(db, i, a).db, m)
  {
    hide Refunds.RefundsOpen, Ledger.Post;
    RefundNeverFails(db, i, a, m);
  }

  lemma PastStays(db: Db, a: Action, m: Id)
    requires Inv(db) && Allowed(db, a) && PastFailing(db, m)
    ensures PastFailing(Apply(db, a).db, m)
  {
    hide Inv, FundStep, RefundStep, PayStep, LiveStep, Finalization.Finalize, Cutoff.Ranked, Cutoff.RefundAll;
    Histories.ApplyIsLater(db, a);
    match a {
      case Fund(action) => FundKeepsPast(db, action, m);
      case ApplyCutoff =>
      case Cancel(user, order) =>
      case Refund(i, action) => RefundKeepsPast(db, i, action, m);
      case Pay(n, action) => PayFrame(db, n, action);
      case Finalize => FinalizeFrame(db);
      case Live(action) => LiveNeverFails(db, action, m);
    }
  }

  lemma {:induction false} PastStaysForever(states: seq<Db>, events: seq<Event>, m: Id, k: nat)
    requires History(states, events) && Inv(states[0]) && PastFailing(states[0], m) && k < |states|
    ensures PastFailing(states[k], m)
  {
    hide Inv, History, Apply, Allowed, CanStillFail;
    if k > 0 {
      PastStaysForever(states, events, m, k - 1);
      HistoryKeeps(states, events, k - 1);
      HistoryStep(states, events, k - 1);
      var before := Wait(states[k - 1], events[k - 1].now);
      WaitKeeps(states[k - 1], events[k - 1].now);
      SamePast(states[k - 1], before, m);
      PastStays(before, events[k - 1].action, m);
    }
  }

  lemma SamePast(a: Db, b: Db, m: Id)
    requires PastFailing(a, m) && b.pod == a.pod && b.memberships == a.memberships && b.intents == a.intents
    ensures PastFailing(b, m)
  {
  }

  /** In some run from here the membership ends in funding failed. */
  ghost predicate FailsLater(db: Db, m: Id) {
    exists later :: Reaches(db, later) && m in later.memberships && later.memberships[m].state == FundingFailed
  }

  lemma OpenThenReject(db: Db, m: Id) returns (rejected: Db)
    requires Inv(db) && CanStillFail(db, m)
    ensures Reaches(db, rejected) && m in rejected.memberships && rejected.memberships[m].state == FundingFailed
  {
    hide Inv, Reaches;
    var i := db.memberships[m].intent.value;
    var open, reject := Fund(WalletAttempt(i, true)), Fund(WalletAttempt(i, false));
    PointsBack(db, m);
    var pending := db;
    ReachesItself(db);
    if db.intents[i].state == IntentCreated {
      pending := Apply(db, open).db;
      ReachesNext(db, open);
    }
    rejected := Apply(pending, reject).db;
    ReachesNext(pending, reject);
    ReachesTransitively(db, pending, rejected);
  }

  lemma PointsBack(db: Db, m: Id)
    requires Inv(db) && CanStillFail(db, m)
    ensures db.intents[db.memberships[m].intent.value].membership == m
  {
    hide Inv, LinksOk;
    FundingKeeps.HasLinks(db);
    FundingKeeps.AboutMembership(db, m);
  }

  /** After enrollment has closed a membership can still end in funding failed exactly when the wallet request of its
      deposit is still to come or open; the cutoff that excluded it does not stop it. */
  lemma FailsAfterEnrollmentIff(db: Db, m: Id)
    requires Inv(db) && m in db.memberships && db.memberships[m].state != FundingFailed
    requires db.pod.state != EnrollmentOpen
    ensures FailsLater(db, m) <==> CanStillFail(db, m)
  {
    hide Inv, Reaches, CanStillFail;
    if CanStillFail(db, m) {
      var rejected := OpenThenReject(db, m);
    } else if FailsLater(db, m) {
      var later :| Reaches(db, later) && m in later.memberships && later.memberships[m].state == FundingFailed;
      PastReached(db, later, m);
      assert false;
    }
  }

  lemma PastReached(db: Db, later: Db, m: Id)
    requires Inv(db) && PastFailing(db, m) && Reaches(db, later)
    ensures PastFailing(later, m)
  {
    hide Inv, History, CanStillFail;
    var states, events :| RunBetween(db, states, events, later);
    HistoryLength(states, events);
    PastStaysForever(states, events, m, |states| - 1);
  }
}
