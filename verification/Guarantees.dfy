/** What holds over every run of a Pod, from any state in order to any later one. */
module Guarantees {
  import opened Basics
  import opened Ledger
  import opened Rows
  import opened Invariants
  import opened Transactions
  import opened Histories
  import L = PayoutLegs
  import Cancellation
  import Cutoff
  import CutoffFates
  import CutoffKeeps
  import Finalization
  import FinalizationKeeps
  import FinalizationGuards
  import Funding
  import FundingKeeps
  import Lifecycle
  import Payouts
  import PayoutsKeep
  import Refunds
  import RefundsKeep

  // ---------------------------------------------------------------------------------------------
  // Settlement runs.
  // ---------------------------------------------------------------------------------------------

  /** A run is executing exactly while some entitlement is unresolved and settled exactly when none is; and the
      Pod is completed exactly when its run is settled. */
  lemma RunStateIsExact(db: Db)
    requires Inv(db) && db.run.Some?
    ensures db.run.value.state == Settled
       <==> forall m | m in db.run.value.entitlements :: !Unresolved(db.run.value.entitlements[m])
    ensures db.run.value.state == Executing
       <==> exists m :: m in db.run.value.entitlements && Unresolved(db.run.value.entitlements[m])
    ensures db.pod.state == Completed <==> db.run.value.state == Settled
    ensures db.pod.state == FinalReview <==> db.run.value.state == Executing
  {
    hide Inv, EntitlementFits, Roster;
    PayoutsKeep.HasRun(db);
  }

  /** Once a run exists, its outcomes and the submissions they were read from never change again, and they agree
      in every later state. */
  lemma OutcomesStayFrozen(states: seq<Db>, events: seq<Event>, j: nat, k: nat, s: SubmissionId)
    requires History(states, events) && Inv(states[0]) && j <= k < |states| && states[j].run.Some?
    ensures states[k].run.Some? && states[k].submissions == states[j].submissions
    ensures states[k].run.value.outcomes == states[j].run.value.outcomes
    ensures s in states[j].run.value.outcomes ==>
              states[k].run.value.outcomes[s] == VerdictOf(states[k].submissions, s)
  {
    hide Inv, History, PodLater, RefundsLater, PayoutsLater, VerdictOf;
    HistoryIsForward(states, events, j, k);
    HistoryKeeps(states, events, k);
    HasFrozen(states[k]);
  }

  lemma HasFrozen(db: Db)
    requires Inv(db)
    ensures FrozenOk(db.submissions, db.run)
  {
    hide LinksOk, BookOk, RunOk, LifeOk, SubmissionsOk, FrozenOk, LegsOk, Roster;
  }

  /** A verdict is final. */
  lemma VerdictsAreFinal(states: seq<Db>, events: seq<Event>, j: nat, k: nat, s: SubmissionId)
    requires History(states, events) && Inv(states[0]) && j <= k < |states|
    requires s in states[j].submissions && Histories.Decided(states[j].submissions[s].state)
    ensures s in states[k].submissions && states[k].submissions[s] == states[j].submissions[s]
  {
    hide Inv, History, PodLater, RefundsLater, PayoutsLater, RunLater;
    HistoryIsForward(states, events, j, k);
  }

  // ---------------------------------------------------------------------------------------------
  // Pods that can never settle.
  // ---------------------------------------------------------------------------------------------

  /** A Pod with a refund leg never gets a settlement run. */
  lemma RefundLegBlocksSettlement(states: seq<Db>, events: seq<Event>, j: nat, k: nat)
    requires History(states, events) && Inv(states[0]) && j <= k < |states| && states[j].refunds != map[]
    ensures states[k].run.None?
  {
    hide Inv, History, PodLater, PayoutsLater, RunLater, SubmissionsLater, RefundLater;
    HistoryIsForward(states, events, j, k);
    HistoryKeeps(states, events, k);
    var i :| i in states[j].refunds;
    RefundsKeep.NoRunWithRefunds(states[k], i);
  }

  /** A proportional Pod with more funded members than seats never settles: the cutoff locks its roster, but the
      refund leg of the excluded depositor fails the deposit credit guard in every later state. */
  lemma OversubscribedPodNeverSettles(states: seq<Db>, events: seq<Event>, j: nat, k: nat)
    requires History(states, events) && Inv(states[0]) && j < k < |states|
    requires events[j].action == ApplyCutoff && Cutoff.CutoffDue(states[j], events[j].now)
    requires |Cutoff.Credited(states[j])| > states[j].pod.contract.maxParticipants
    ensures states[j + 1].pod.state == LockedScheduled
    ensures states[k].run.None?
  {
    hide Inv, History, Allowed, Later, Cutoff.ApplyCutoff;
    HistoryStep(states, events, j);
    HistoryKeeps(states, events, j);
    var before := Wait(states[j], events[j].now);
    WaitKeeps(states[j], events[j].now);
    FinalizationGuards.HasContract(before);
    ExcludedLeg(before);
    RefundLegBlocksSettlement(states, events, j + 1, k);
  }

  lemma ExcludedLeg(db: Db)
    requires Inv(db) && Cutoff.CutoffDue(db, db.clock) && PublishedContract(db.pod.contract)
    requires |Cutoff.Credited(db)| > db.pod.contract.maxParticipants
    ensures var after := Cutoff.ApplyCutoff(db, db.clock).db;
            after.pod.state == LockedScheduled && after.refunds != map[]
  {
    hide Inv, Cutoff.ApplyCutoff, Cutoff.Ranked, Cutoff.InChainOrder;
    CutoffFates.CutoffDecidesFate(db, db.clock);
    RankedLength(db);
    var ranked := Cutoff.Ranked(db);
    var last := |ranked| - 1;
    assert CutoffFates.FateAt(db, Cutoff.ApplyCutoff(db, db.clock).db, ranked,
                              Cutoff.IncludedCount(db.pod.contract, |ranked|), last);
  }

  lemma RankedLength(db: Db)
    requires Inv(db) && db.occurrences != []
    ensures |Cutoff.Ranked(db)| == |Cutoff.Credited(db)|
  {
    hide Inv, Cutoff.InChainOrder;
    CutoffKeeps.NoLateDeposits(db);
    assert Cutoff.Credited(db) - {} == Cutoff.Credited(db);
  }

  // ---------------------------------------------------------------------------------------------
  // Refunds that never end.
  // ---------------------------------------------------------------------------------------------

  /** A refund reported as failed or mismatched stays so: no transaction retries it, and its deposit stays refund
      pending. */
  lemma FailedRefundIsStuck(states: seq<Db>, events: seq<Event>, j: nat, k: nat, i: Id)
    requires History(states, events) && Inv(states[0]) && j <= k < |states|
    requires i in states[j].refunds && states[j].refunds[i].state in {L.RetryableFailed, L.Mismatched}
    ensures i in states[k].refunds && states[k].refunds[i] == states[j].refunds[i]
    ensures i in states[k].intents && states[k].intents[i].state == RefundPending
  {
    hide Inv, History, PodLater, PayoutsLater, RunLater, SubmissionsLater, LinksOk;
    HistoryIsForward(states, events, j, k);
    HistoryKeeps(states, events, k);
    RefundsKeep.AboutLeg(states[k], i);
  }

  /** A Pod that is refunding without a leg stays so. */
  lemma StrandedStep(db: Db, a: Action)
    requires Inv(db) && Allowed(db, a) && db.pod.state == CancelledRefunding && db.refunds == map[]
    ensures Apply(db, a).db.pod == db.pod && Apply(db, a).db.refunds == map[]
  {
    hide Inv, FundStep, Lifecycle.IndexOf, Finalization.FrozenInput;
    NoPayouts(db);
    if a.Fund? { FundFrame(db, a.funding); }
  }

  lemma NoPayouts(db: Db)
    requires Inv(db) && db.pod.state == CancelledRefunding
    ensures db.payouts == map[] && db.run.None?
  {
    hide LinksOk, BookOk, LifeOk, SubmissionsOk, LegsOk, FrozenOk, Roster, EntitlementFits;
  }

  lemma {:induction false} StrandedPodStays(states: seq<Db>, events: seq<Event>, j: nat, k: nat)
    requires History(states, events) && Inv(states[0]) && j <= k < |states|
    requires states[j].pod.state == CancelledRefunding && states[j].refunds == map[]
    ensures states[k].pod == states[j].pod && states[k].refunds == map[]
  {
    hide Inv, History, Apply, Allowed;
    if j < k {
      StrandedPodStays(states, events, j, k - 1);
      HistoryKeeps(states, events, k - 1);
      HistoryStep(states, events, k - 1);
      WaitKeeps(states[k - 1], events[k - 1].now);
      StrandedStep(Wait(states[k - 1], events[k - 1].now), events[k - 1].action);
    }
  }

  /** A cutoff strands the Pod, refunding for ever with nothing to refund, exactly when nobody was funded. */
  lemma StrandedIffNobodyFunded(states: seq<Db>, events: seq<Event>, j: nat, k: nat)
    requires History(states, events) && Inv(states[0]) && Cancellation.TidyDb(states[0]) && j < k < |states|
    requires events[j].action == ApplyCutoff && Cutoff.CutoffDue(states[j], events[j].now)
    ensures Cutoff.Credited(states[j]) == {}
       <==> states[k].refunds == map[] && states[k].pod.state == CancelledRefunding
  {
    hide Inv, History, Allowed, Later, Cutoff.ApplyCutoff, Refunds.RefundsOpen, Cutoff.Credited;
    HistoryLength(states, events);
    var before := AtCutoff(states, events, j);
    Cancellation.CutoffOutcome(before);
    if Cutoff.Credited(before) == {} {
      StrandedPodStays(states, events, j + 1, k);
    } else if states[j + 1].pod.state == CancelledRefunding {
      LegsStay(states, events, j + 1, k);
    } else {
      HistoryIsForward(states, events, j + 1, k);
      LockedStays(states[j + 1], states[k]);
    }
  }

  /** The rows a due cutoff starts from. */
  lemma AtCutoff(states: seq<Db>, events: seq<Event>, j: nat) returns (before: Db)
    requires History(states, events) && Inv(states[0]) && Cancellation.TidyDb(states[0]) && j + 1 < |states|
    requires j < |events| && events[j].action == ApplyCutoff && Cutoff.CutoffDue(states[j], events[j].now)
    ensures before == Wait(states[j], events[j].now) && Inv(before) && Cancellation.TidyDb(before)
    ensures Cutoff.CutoffDue(before, before.clock) && Cutoff.Credited(before) == Cutoff.Credited(states[j])
    ensures states[j + 1] == Cutoff.ApplyCutoff(before, before.clock).db
    ensures Inv(states[j + 1])
  {
    hide Inv, History, Allowed, Cutoff.ApplyCutoff, Cancellation.Tidy;
    HistoryStep(states, events, j);
    HistoryKeeps(states, events, j);
    HistoryKeeps(states, events, j + 1);
    Cancellation.HistoryIsTidy(states, events, j);
    WaitKeeps(states[j], events[j].now);
    before := Wait(states[j], events[j].now);
  }

  lemma LegsStay(states: seq<Db>, events: seq<Event>, j: nat, k: nat)
    requires History(states, events) && Inv(states[0]) && j <= k < |states| && states[j].refunds != map[]
    ensures states[k].refunds != map[]
  {
    hide Inv, History, PodLater, PayoutsLater, RunLater, SubmissionsLater, RefundLater, DepositsLater, RosterLater;
    HistoryIsForward(states, events, j, k);
    var i :| i in states[j].refunds;
    assert i in states[k].refunds;
  }

  lemma LockedStays(a: Db, b: Db)
    requires Later(a, b) && Locked(a.pod.state)
    ensures Locked(b.pod.state) && b.pod.contract == a.pod.contract
  {
    hide DepositsLater, RosterLater, RefundsLater, PayoutsLater, RunLater, SubmissionsLater;
  }

  // ---------------------------------------------------------------------------------------------
  // Pods that settle.
  // ---------------------------------------------------------------------------------------------

  /** After enrollment no transaction adds a refund leg. */
  lemma NoNewLegs(db: Db, a: Action)
    requires Inv(db) && Allowed(db, a) && db.pod.state != EnrollmentOpen
    ensures Apply(db, a).db.refunds.Keys == db.refunds.Keys && Apply(db, a).db.pod.state != EnrollmentOpen
  {
    hide Inv, FundStep, RefundStep, PayStep, LiveStep, Finalization.Finalize, Cutoff.Ranked, Cutoff.RefundAll;
    match a {
      case Fund(action) => FundFrame(db, action);
      case ApplyCutoff =>
      case Cancel(user, order) =>
      case Refund(i, action) => RefundKeepsLegs(db, i, action);
      case Pay(m, action) => Cancellation.PayKeepsRefunds(db, m, action);
      case Finalize => Cancellation.FinalizeKeepsRefunds(db);
      case Live(action) => Cancellation.LiveKeepsRefunds(db, action);
    }
  }

  lemma RefundKeepsLegs(db: Db, i: Id, a: RefundAction)
    ensures RefundStep(db, i, a).db.refunds.Keys == db.refunds.Keys
    ensures RefundStep(db, i, a).db.pod.state in {db.pod.state, PodState.Cancelled}
  {
    hide Refunds.RefundsOpen, Keys, Refunds.RefundedMembership;
  }

  lemma {:induction false} LegsAreFixed(states: seq<Db>, events: seq<Event>, j: nat, k: nat)
    requires History(states, events) && Inv(states[0]) && j <= k < |states| && states[j].pod.state != EnrollmentOpen
    ensures states[k].refunds.Keys == states[j].refunds.Keys && states[k].pod.state != EnrollmentOpen
  {
    hide Inv, History, Apply, Allowed;
    if j < k {
      LegsAreFixed(states, events, j, k - 1);
      HistoryKeeps(states, events, k - 1);
      HistoryStep(states, events, k - 1);
      WaitKeeps(states[k - 1], events[k - 1].now);
      NoNewLegs(Wait(states[k - 1], events[k - 1].now), events[k - 1].action);
    }
  }

  /** A proportional Pod that met its minimum at the cutoff can be settled, once it is in final review and every
      review is done, exactly when no funded depositor was left without a seat. */
  lemma SettlesIffSeatsSuffice(states: seq<Db>, events: seq<Event>, j: nat, k: nat, now: Time)
    requires History(states, events) && Inv(states[0]) && Cancellation.TidyDb(states[0]) && j < k < |states|
    requires events[j].action == ApplyCutoff && Cutoff.CutoffDue(states[j], events[j].now)
    requires states[j].pod.contract.mode == Proportional
    requires |Cutoff.Credited(states[j])| >= states[j].pod.contract.minParticipants
    requires states[k].pod.state == FinalReview && states[k].run.None? && states[k].clock <= now
    requires FinalizationGuards.NoPendingReview(states[k])
    ensures Finalization.Finalize(states[k], now).reply == Done
       <==> |Cutoff.Credited(states[j])| <= states[j].pod.contract.maxParticipants
  {
    hide Inv, History, Allowed, Later, Cutoff.ApplyCutoff, Refunds.RefundsOpen, Cutoff.Credited, Finalization.Finalize,
         FinalizationGuards.NoPendingReview;
    HistoryLength(states, events);
    var before := AtCutoff(states, events, j);
    Cancellation.CutoffOutcome(before);
    SeatsDecideLegs(before);
    LegsAreFixed(states, events, j + 1, k);
    HistoryKeeps(states, events, k);
    HistoryIsForward(states, events, j + 1, k);
    LockedStays(states[j + 1], states[k]);
    CutoffContract(before);
    FinalizationGuards.FinalizeSucceedsIff(states[k], now);
  }

  lemma CutoffContract(db: Db)
    requires Inv(db) && Cutoff.CutoffDue(db, db.clock)
    ensures Cutoff.ApplyCutoff(db, db.clock).db.pod.contract == db.pod.contract
  {
    hide Inv, Later, Cutoff.ApplyCutoff, DepositsLater, RosterLater, RefundsLater, PayoutsLater, RunLater,
         SubmissionsLater;
    CutoffIsLater(db);
    LaterContract(db, Cutoff.ApplyCutoff(db, db.clock).db);
  }

  lemma LaterContract(a: Db, b: Db)
    requires Later(a, b)
    ensures b.pod.contract == a.pod.contract
  {
    hide DepositsLater, RosterLater, RefundsLater, PayoutsLater, RunLater, SubmissionsLater;
  }

  /** A cutoff that locks a proportional Pod queues no refund exactly when the seats suffice. */
  lemma SeatsDecideLegs(db: Db)
    requires Inv(db) && Cutoff.CutoffDue(db, db.clock) && db.refunds == map[]
    requires db.pod.contract.mode == Proportional && |Cutoff.Credited(db)| >= db.pod.contract.minParticipants
    ensures Cutoff.ApplyCutoff(db, db.clock).db.refunds == map[]
       <==> |Cutoff.Credited(db)| <= db.pod.contract.maxParticipants
  {
    hide Inv, Cutoff.ApplyCutoff, Cutoff.Ranked, Cutoff.Credited, PublishedContract;
    Cancellation.CutoffLegs(db);
    Cancellation.RankedCount(db);
    var ranked := Cutoff.Ranked(db);
    var k := Cutoff.IncludedCount(db.pod.contract, |ranked|);
    var list := CutoffFates.RefundList(db, ranked, k);
    assert list == ranked[k..];
    assert list != [] ==> list[0] in Cutoff.Elements(list);
    assert list == [] ==> Cutoff.Elements(list) == {};
  }

  // ---------------------------------------------------------------------------------------------
  // Replays of the cutoff.
  // ---------------------------------------------------------------------------------------------

  /** A seated deposit of a locked Pod in an earlier and a later state. */
  lemma SeatStays(a: Db, b: Db, i: Id)
    requires Inv(a) && Inv(b) && Later(a, b) && i in Cutoff.LockedDeposits(a)
    requires a.pod.state == b.pod.state == LockedScheduled
    ensures i in Cutoff.LockedDeposits(b) && i in a.intents && i in b.intents
    ensures b.intents[i].membership == a.intents[i].membership
    ensures CutoffFates.SamePosition(a.intents[i], b.intents[i])
  {
    hide Inv, LinksOk, RefundsLater, PayoutsLater, RunLater, SubmissionsLater;
    FundingKeeps.HasLinks(a);
    FundingKeeps.HasLinks(b);
    FundingKeeps.AboutMembership(a, a.intents[i].membership);
    assert DepositLater(a.intents[i], b.intents[i]);
    FundingKeeps.AboutDeposit(b, i);
    assert a.intents[i].membership in Roster(a.memberships);
    FundingKeeps.AboutMembership(b, a.intents[i].membership);
  }

  lemma SeatsAreTheSame(a: Db, b: Db)
    requires Inv(a) && Inv(b) && Later(a, b) && a.pod.state == b.pod.state == LockedScheduled
    ensures Cutoff.LockedDeposits(a) == Cutoff.LockedDeposits(b)
  {
    hide Inv, Later, Cutoff.LockedDeposits;
    forall i | i in Cutoff.LockedDeposits(a) ensures i in Cutoff.LockedDeposits(b) { SeatStays(a, b, i); }
    forall i | i in Cutoff.LockedDeposits(b) ensures i in Cutoff.LockedDeposits(a) {
      var seat := SeatBefore(a, b, i);
      SeatStays(a, b, seat);
      OneSeat(b, i, seat);
    }
  }

  /** The deposit that held this seat before. */
  lemma SeatBefore(a: Db, b: Db, i: Id) returns (seat: Id)
    requires Inv(a) && Inv(b) && Later(a, b) && i in Cutoff.LockedDeposits(b)
    requires a.pod.state == b.pod.state == LockedScheduled
    ensures seat in Cutoff.LockedDeposits(a) && i in b.intents
    ensures a.intents[seat].membership == b.intents[i].membership
  {
    hide Inv, LinksOk, DepositsLater, RefundsLater, PayoutsLater, RunLater, SubmissionsLater;
    FundingKeeps.HasLinks(a);
    var m := b.intents[i].membership;
    assert m in Roster(b.memberships);
    assert m in Roster(a.memberships);
    FundingKeeps.AboutMembership(a, m);
    seat := a.memberships[m].intent.value;
    FundingKeeps.AboutDeposit(a, seat);
  }

  lemma OneSeat(db: Db, i: Id, j: Id)
    requires i in Cutoff.LockedDeposits(db) && j in Cutoff.LockedDeposits(db)
    requires db.intents[i].membership == db.intents[j].membership
    ensures i == j
  {
  }

  lemma SameRosterReadBack(a: Db, b: Db)
    requires Inv(a) && Inv(b) && Later(a, b) && a.pod.state == b.pod.state == LockedScheduled
    ensures Cutoff.CurrentRoster(a) == Cutoff.CurrentRoster(b)
  {
    hide Inv, Later, Cutoff.LockedDeposits, Cutoff.InChainOrder, Cutoff.HashesDiffer, Cutoff.ChainOrder,
         CutoffFates.SamePosition;
    SeatsAreTheSame(a, b);
    var s := Cutoff.LockedDeposits(a);
    CutoffFates.LockedAreOrdered(a);
    CutoffFates.LockedAreOrdered(b);
    var ranked := Cutoff.ChainOrder(a.intents, s);
    CutoffFates.OrderedHashesDiffer(b, s);
    forall i | i in s
      ensures i in a.intents && i in b.intents && CutoffFates.SamePosition(a.intents[i], b.intents[i])
      ensures b.intents[i].membership == a.intents[i].membership
    {
      SeatStays(a, b, i);
    }
    assert s <= a.intents.Keys && s <= b.intents.Keys;
    OrderCarriesOver(a.intents, b.intents, s, ranked);
    Cutoff.ChainOrderIsUnique(b.intents, s, ranked, Cutoff.ChainOrder(b.intents, s));
    CutoffFates.OrderListsAll(a.intents, s, ranked);
    assert Cutoff.MembershipsOf(a.intents, ranked) == Cutoff.MembershipsOf(b.intents, ranked);
  }

  lemma OrderCarriesOver(intents: map<Id, Intent>, intents': map<Id, Intent>, s: set<Id>, ranked: seq<Id>)
    requires s <= intents.Keys && Cutoff.InChainOrder(intents, s, ranked)
    requires forall i | i in s :: i in intents' && CutoffFates.SamePosition(intents[i], intents'[i])
    ensures s <= intents'.Keys && Cutoff.InChainOrder(intents', s, ranked)
  {
    assert forall j | 0 <= j < |ranked| :: ranked[j] in s;
  }

  /** However late a locked Pod's cutoff is replayed, it writes nothing, and returns the roster of the cutoff in the
      same order and the refund legs of the cutoff. */
  lemma LaterReplayReturnsSame(states: seq<Db>, events: seq<Event>, j: nat, k: nat, later: Time)
    requires History(states, events) && Inv(states[0]) && Cancellation.TidyDb(states[0]) && j < k < |states|
    requires events[j].action == ApplyCutoff && Cutoff.CutoffDue(states[j], events[j].now)
    requires states[k].pod.state == LockedScheduled
    ensures Cutoff.ApplyCutoff(states[k], later) == Return(states[k])
    ensures var before := Wait(states[j], events[j].now);
            var ranked := Cutoff.Ranked(before);
            var included := Cutoff.IncludedCount(before.pod.contract, |ranked|);
            && (forall i | i in ranked[..included] :: i in before.intents)
            && Cutoff.CurrentRoster(states[k]) == Cutoff.MembershipsOf(before.intents, ranked[..included])
            && states[k].refunds.Keys == Cutoff.Elements(CutoffFates.RefundList(before, ranked, included))
  {
    hide Inv, History, Allowed, Later, Cutoff.Ranked, Cutoff.Decide, Cutoff.BeginCutoff, Cutoff.CurrentRoster,
         Cutoff.Credited, Cancellation.Tidy;
    HistoryLength(states, events);
    var before := AtCutoff(states, events, j);
    TidyHasNoLegs(before);
    CutoffFates.ReplayReturnsSameRoster(before, before.clock, later);
    Cancellation.CutoffLegs(before);
    LockedAtCutoff(states, events, j, k);
    LegsAreFixed(states, events, j + 1, k);
    HistoryKeeps(states, events, k);
    HistoryIsForward(states, events, j + 1, k);
    SameRosterReadBack(states[j + 1], states[k]);
  }

  lemma TidyHasNoLegs(db: Db)
    requires Cancellation.TidyDb(db) && db.pod.state == EnrollmentOpen
    ensures db.refunds == map[]
  {
    hide Refunds.RefundsOpen;
  }

  /** A Pod that is locked later was locked by its cutoff. */
  lemma LockedAtCutoff(states: seq<Db>, events: seq<Event>, j: nat, k: nat)
    requires History(states, events) && Inv(states[0]) && Cancellation.TidyDb(states[0]) && j < k < |states|
    requires j < |events| && events[j].action == ApplyCutoff && Cutoff.CutoffDue(states[j], events[j].now)
    requires states[k].pod.state == LockedScheduled
    ensures states[j + 1].pod.state == LockedScheduled
  {
    hide Inv, History, Allowed, Later, Cutoff.ApplyCutoff, Cutoff.Credited, Refunds.RefundsOpen;
    var before := AtCutoff(states, events, j);
    Cancellation.CutoffOutcome(before);
    HistoryIsForward(states, events, j + 1, k);
    LaterPod(states[j + 1], states[k]);
  }

  lemma LaterPod(a: Db, b: Db)
    requires Later(a, b)
    ensures PodLater(a.pod, b.pod)
  {
    hide DepositsLater, RosterLater, RefundsLater, PayoutsLater, RunLater, SubmissionsLater;
  }

  // ---------------------------------------------------------------------------------------------
  // Deposits.
  // ---------------------------------------------------------------------------------------------

  /** A credited deposit has its chain position, arrived before the first opening, carries a hash no other deposit
      has, is the one its membership points to, and every other deposit of that membership was rejected. */
  lemma CreditedDepositFacts(db: Db, i: Id, j: Id)
    requires Inv(db) && i in db.intents && db.intents[i].state == CreditedProvisional
    ensures var d := db.intents[i];
            && d.block.Some? && d.index.Some? && d.hash.Some? && d.finalizedAt.Some?
            && db.occurrences != [] && d.finalizedAt.value <= db.occurrences[0].opensAt
            && d.membership in db.memberships && db.memberships[d.membership].intent == Some(i)
            && (j in db.intents && j != i ==> db.intents[j].hash != d.hash)
            && (j in db.intents && j != i && db.intents[j].membership == d.membership ==>
                  db.intents[j].state == WalletRejected)
  {
    hide Inv, LinksOk;
    FundingKeeps.HasLinks(db);
    FundingKeeps.AboutDeposit(db, i);
    if j in db.intents { FundingKeeps.AboutDeposit(db, j); }
  }

  /** A deposit finalized in time is credited exactly when its membership still waits for it, which no longer
      happens once enrollment has closed; then the money stays with the treasury and off the ledger. */
  lemma CreditSucceedsIff(db: Db, i: Id)
    requires Inv(db) && i in db.intents && db.intents[i].state == Finalized
    requires db.intents[i].finalizedAt.Some? && db.intents[i].finalizedAt.value <= db.intents[i].expiresAt
    ensures db.intents[i].membership in db.memberships
    ensures Funding.CreditDeposit(db, i).reply == Done
       <==> db.memberships[db.intents[i].membership].state == DepositPending
    ensures db.pod.state != EnrollmentOpen ==> Funding.CreditDeposit(db, i) == Throw(db)
  {
    hide Inv, LinksOk;
    FundingKeeps.HasLinks(db);
    FundingKeeps.AboutDeposit(db, i);
    FundingKeeps.AboutMembership(db, db.intents[i].membership);
  }

  // ---------------------------------------------------------------------------------------------
  // Payouts.
  // ---------------------------------------------------------------------------------------------

  /** A confirmed payout was posted once, for exactly the member's entitlement; an unconfirmed one was not. */
  lemma PaidExactlyOnce(db: Db, m: Id, x: nat, y: nat)
    requires Inv(db) && m in db.payouts && x < |db.ledger| && y < |db.ledger|
    ensures db.payouts[m].state == L.Confirmed <==> PayoutConfirmed(m) in Keys(db.ledger)
    ensures db.run.Some? && m in db.run.value.entitlements
    ensures db.ledger[x].key == PayoutConfirmed(m) ==>
              db.ledger[x].amount == db.payouts[m].amount == db.run.value.entitlements[m].amounts.payout
    ensures db.ledger[x].key == db.ledger[y].key == PayoutConfirmed(m) ==> x == y
  {
    hide Inv, L.LegOk;
    FinalizationGuards.HasKeys(db);
    PayoutsKeep.AboutPayout(db, m);
    assert PayoutConfirmed(m) in Keys(db.ledger) <==> Due(PayoutConfirmed(m), db.intents, db.refunds, db.payouts);
    assert db.ledger[x] in db.ledger;
  }

  /** The transaction took effect on the payout leg of member `m`, for this reason. */
  ghost predicate Logged(before: Db, e: Event, m: Id, reason: L.Reason) {
    && Allowed(Wait(before, e.now), e.action) && e.action.Pay? && e.action.member == m
    && L.ReasonOf(e.action.leg) == reason
    && Apply(Wait(before, e.now), e.action).reply == Done
  }

  /** How many of the first `k` events took effect on the leg for this reason. */
  ghost function Successes(states: seq<Db>, events: seq<Event>, m: Id, reason: L.Reason, k: nat): nat
    requires History(states, events) && k <= |events|
  {
    if k == 0 then 0
    else
      Successes(states, events, m, reason, k - 1)
      + if Logged(states[k - 1], events[k - 1], m, reason) then 1 else 0
  }

  /** How many of them claimed the broadcast of this attempt. */
  ghost function Claims(states: seq<Db>, events: seq<Event>, m: Id, id: Id, k: nat): nat
    requires History(states, events) && k <= |events|
  {
    if k == 0 then 0
    else
      Claims(states, events, m, id, k - 1)
      + if Logged(states[k - 1], events[k - 1], m, L.BroadcastClaimed) && events[k - 1].action.leg.id == id
        then 1 else 0
  }

  function Log(db: Db, m: Id): seq<L.Event> {
    if m in db.payouts then db.payouts[m].events else []
  }

  /** The log of a leg grows by one event when a transaction on it takes effect, and otherwise not at all. */
  lemma LogGrows(db: Db, a: Action, m: Id)
    requires Inv(db) && Allowed(db, a)
    ensures var took := a.Pay? && a.member == m && Apply(db, a).reply == Done;
            && (took ==> exists e: L.Event :: Log(Apply(db, a).db, m) == Log(db, m) + [e]
                           && e.reason == L.ReasonOf(a.leg) && e.attempt == a.leg.id)
            && (!took ==> Log(Apply(db, a).db, m) == Log(db, m))
  {
    hide Inv, FundStep, RefundStep, LiveStep, Cutoff.ApplyCutoff, Cutoff.CancelEnrollment, Finalization.Finalize,
         Payouts.PayoutAct, Payouts.ConfirmPayout, L.ReasonOf;
    match a {
      case Pay(n, action) => PayLogs(db, n, action, m);
      case Finalize => FinalizeLogs(db, m);
      case _ => OtherLogs(db, a, m);
    }
  }

  lemma OtherLogs(db: Db, a: Action, m: Id)
    requires Inv(db) && Allowed(db, a) && !a.Pay? && !a.Finalize?
    ensures Apply(db, a).db.payouts == db.payouts
  {
    hide Inv, FundStep, RefundStep, LiveStep, Cutoff.ApplyCutoff, Cutoff.RefundAll, Cutoff.CloseEntry;
    match a {
      case Fund(action) => FundFrame(db, action);
      case ApplyCutoff => CutoffPayouts(db);
      case Cancel(user, order) =>
      case Refund(i, action) => RefundPayouts(db, i, action);
      case Live(action) => LivePayouts(db, action);
    }
  }

  lemma RefundPayouts(db: Db, i: Id, a: RefundAction)
    ensures RefundStep(db, i, a).db.payouts == db.payouts
  {
    hide Refunds.RefundsOpen, Keys, Refunds.RefundedMembership;
  }

  lemma LivePayouts(db: Db, a: LifeAction)
    ensures LiveStep(db, a).db.payouts == db.payouts
  {
    hide Lifecycle.IndexOf, Lifecycle.NextSubmissionState, Lifecycle.RunTransitions, Lifecycle.Overdue;
    if a.RunTransitions? { TransitionsPayouts(db, db.clock); }
  }

  lemma TransitionsPayouts(db: Db, now: Time)
    ensures Lifecycle.RunTransitions(db, now).db.payouts == db.payouts
  {
    hide Lifecycle.ActivateAll, Lifecycle.AdvanceWindows, Lifecycle.ReviewPending, Lifecycle.ActivationDue,
         Lifecycle.Ending;
  }

  lemma CutoffPayouts(db: Db)
    requires Inv(db)
    ensures Cutoff.ApplyCutoff(db, db.clock).db.payouts == db.payouts
  {
    hide Inv, Cutoff.Decide, Cutoff.BeginCutoff, Cutoff.Ranked;
    if db.pod.state == EnrollmentOpen && Cutoff.CutoffDue(db, db.clock) {
      CutoffFates.CutoffIsDecide(db, db.clock);
      DecideFrame(Cutoff.BeginCutoff(db), Cutoff.Ranked(db));
      CutoffFates.LoopsReadyAtCutoff(db, db.clock);
    }
  }

  lemma FinalizeLogs(db: Db, m: Id)
    requires Inv(db)
    ensures Log(Finalization.Finalize(db, db.clock).db, m) == Log(db, m)
  {
    hide Inv, Finalization.FundedRoster, Finalization.CalendarClosed, Finalization.CreditsMatch,
         Finalization.ReviewsDone, Finalization.FrozenInput, Finalization.Postings, Finalization.QueuedLegs,
         Finalization.Entitlements, Finalization.Freeze;
    if Finalization.Finalize(db, db.clock).reply == Done {
      FinalizationKeeps.DoneIsReady(db, db.clock);
      FinalizationKeeps.ReadyHolds(db);
      FinalizationKeeps.NoPayoutsYet(db);
      var members := FinalizationKeeps.ResultOf(db).members;
      FinalizationKeeps.LegsAreNew(members);
      if m in Finalization.QueuedLegs(map[], members) {
        var amount :| Finalization.QueuedLegs(map[], members)[m] == L.NewLeg(amount);
      }
    }
  }

  lemma PayLogs(db: Db, n: Id, action: L.LegAction, m: Id)
    requires Inv(db) && (action.DoReport? ==> L.Reportable(action.to))
    ensures var step := PayStep(db, n, action);
            && (n == m && step.reply == Done ==>
                  exists e: L.Event :: Log(step.db, m) == Log(db, m) + [e]
                                       && e.reason == L.ReasonOf(action) && e.attempt == action.id)
            && (!(n == m && step.reply == Done) ==> Log(step.db, m) == Log(db, m))
  {
    hide Inv, L.Act, L.Confirm, L.ReasonOf, L.LegOk, AllResolved, Keys;
    if n in db.payouts {
      L.ActLogs(n, db.payouts[n], action);
      ActOfConfirm(n, db.payouts[n], action);
    }
  }

  lemma ActOfConfirm(n: Id, leg: L.Leg, action: L.LegAction)
    requires action.DoReport? ==> L.Reportable(action.to)
    ensures action.DoConfirm? ==> L.Act(n, leg, action) == L.Confirm(leg, action.id)
  {
    hide L.Confirm;
  }

  /** The event logs are an exact account of the run: from a Pod without payouts, each count in a leg's log is the
      number of transactions that took effect for that reason. */
  lemma {:induction false} LogsAreExact(states: seq<Db>, events: seq<Event>, m: Id, reason: L.Reason, id: Id, k: nat)
    requires History(states, events) && Inv(states[0]) && m !in states[0].payouts && k <= |events|
    ensures L.CountOf(Log(states[k], m), reason) == Successes(states, events, m, reason, k)
    ensures L.ClaimsOf(Log(states[k], m), id) == Claims(states, events, m, id, k)
  {
    hide Inv, History, Apply, Allowed, L.ReasonOf, L.CountOf, L.ClaimsOf, Log;
    HistoryLength(states, events);
    if k == 0 {
      NothingLogged(states[0], m, reason, id);
    } else {
      LogsAreExact(states, events, m, reason, id, k - 1);
      HistoryKeeps(states, events, k - 1);
      HistoryStep(states, events, k - 1);
      var before, a := Wait(states[k - 1], events[k - 1].now), events[k - 1].action;
      WaitKeeps(states[k - 1], events[k - 1].now);
      LogGrows(before, a, m);
      SameLog(states[k - 1], before, m);
      if a.Pay? && a.member == m && Apply(before, a).reply == Done {
        var e: L.Event :| Log(states[k], m) == Log(before, m) + [e] && e.reason == L.ReasonOf(a.leg)
                          && e.attempt == a.leg.id;
        L.LoggedOnce(Log(before, m), e);
      }
    }
  }

  lemma NothingLogged(db: Db, m: Id, reason: L.Reason, id: Id)
    requires m !in db.payouts
    ensures L.CountOf(Log(db, m), reason) == 0 && L.ClaimsOf(Log(db, m), id) == 0
  {
  }

  lemma SameLog(a: Db, b: Db, m: Id)
    requires a.payouts == b.payouts
    ensures Log(a, m) == Log(b, m)
  {
  }

  /** Over any run from a Pod without payouts: the broadcast of an attempt is claimed at most once, a leg's
      broadcasts at most once more than retries were granted, and a leg is confirmed at most once. */
  lemma ClaimsAreBounded(states: seq<Db>, events: seq<Event>, m: Id, id: Id, k: nat)
    requires History(states, events) && Inv(states[0]) && m !in states[0].payouts && k <= |events|
    ensures Claims(states, events, m, id, k) <= 1
    ensures Successes(states, events, m, L.BroadcastClaimed, k) <= 1 + Successes(states, events, m, L.RetryRequested, k)
    ensures Successes(states, events, m, L.ChainFinalized, k) <= 1
  {
    hide Inv, History, Successes, Claims, L.LegOk, L.CountOf, L.ClaimsOf;
    LogsAreExact(states, events, m, L.BroadcastClaimed, id, k);
    LogsAreExact(states, events, m, L.RetryRequested, id, k);
    LogsAreExact(states, events, m, L.ChainFinalized, id, k);
    HistoryLength(states, events);
    HistoryKeeps(states, events, k);
    if m in states[k].payouts {
      PayoutsKeep.AboutPayout(states[k], m);
      L.ClaimsAreBounded(states[k].payouts[m], id);
      ConfirmedOnce(states[k].payouts[m]);
    } else {
      NothingLogged(states[k], m, L.BroadcastClaimed, id);
      NothingLogged(states[k], m, L.RetryRequested, id);
      NothingLogged(states[k], m, L.ChainFinalized, id);
    }
  }

  lemma ConfirmedOnce(leg: L.Leg)
    requires L.LegOk(leg)
    ensures L.CountOf(leg.events, L.ChainFinalized) <= 1
  {
    hide L.AttemptsOk, L.ClaimsOk, L.CountOf;
  }
}
