/** Concrete Pods with two seats. In final review, every window closed and no review pending: with two funded depositors
    the Pod is settled; with a third, excluded one it cannot be. At the cutoff: a third depositor whose deposit is still
    in the wallet, or already final but not credited, and a Pod that nobody has funded. */
module Examples {
  import opened Basics
  import opened Ledger
  import opened Rows
  import opened Invariants
  import L = PayoutLegs
  import opened Transactions
  import Cancellation
  import Cutoff
  import CutoffFates
  import CutoffKeeps
  import Finalization
  import FinalizationGuards
  import Funding

  const CONTRACT := Contract(Proportional, 1, 1, 1, 2, 2, false)
  const CONTRACT_HASH: Id := 9
  const CREATOR: Id := 99
  const OPENS: Time := 100
  const CLOSES: Time := 200

  function Member(user: Id, state: MembershipState, deposit: Id): Membership {
    Membership(user, state, Some(deposit), Some(CONTRACT_HASH))
  }

  function Deposit(membership: Id, user: Id, state: DepositState, hash: Id): Intent {
    Intent(membership, user, 1, state, OPENS, Some(hash), Some(hash), Some(0), Some(50), None)
  }

  const MEMBERSHIPS: map<Id, Membership> := map[
    1 := Member(11, MemberActive, 21),
    2 := Member(12, MemberActive, 22),
    3 := Member(13, ExcludedAtCutoff, 23)]

  const INTENTS: map<Id, Intent> := map[
    21 := Deposit(1, 11, AppliedToRoster, 41),
    22 := Deposit(2, 12, AppliedToRoster, 42),
    23 := Deposit(3, 13, RefundPending, 43)]

  const REFUNDS: map<Id, RefundLeg> := map[23 := RefundLeg(3, 1, L.Queued, None)]

  const CREDITS: Book := [CreditEntry(21, INTENTS[21]), CreditEntry(22, INTENTS[22])]
  const LEDGER: Book := CREDITS + [CreditEntry(23, INTENTS[23])] + [RefundEntry(23, INTENTS[23])]

  const POD := Pod(FinalReview, CONTRACT, CONTRACT_HASH, CREATOR)
  const OCCURRENCES := [Occurrence(31, 1, OPENS, CLOSES, None, ReviewOpen)]
  const DB := Db(POD, MEMBERSHIPS, INTENTS, OCCURRENCES, map[], REFUNDS, map[], LEDGER, None, CLOSES)

  lemma NothingPosted(a: Account)
    ensures Net([], a) == 0
  {
  }

  lemma Balances()
    ensures BalancesOk(DB)
  {
    hide Net;
    forall a | a != Treasury ensures Net(LEDGER, a) == Owed(DB, a) {
      var c1, c2, c3 := CreditEntry(21, INTENTS[21]), CreditEntry(22, INTENTS[22]), CreditEntry(23, INTENTS[23]);
      assert [] + [c1] == [c1] && [c1] + [c2] == CREDITS;
      NothingPosted(a);
      NetOfOne([], c1, a);
      NetOfOne([c1], c2, a);
      NetOfOne(CREDITS, c3, a);
      NetOfOne(CREDITS + [c3], RefundEntry(23, INTENTS[23]), a);
    }
  }

  lemma LedgerKeys()
    ensures Keys(LEDGER) == {DepositCredit(21), DepositCredit(22), DepositCredit(23), RefundEntitlement(23)}
    ensures DistinctKeys(LEDGER) && KeysOk(LEDGER, INTENTS, REFUNDS, map[], false)
    ensures EntriesOk(LEDGER, INTENTS, REFUNDS, map[])
  {
    assert LEDGER == [CreditEntry(21, INTENTS[21]), CreditEntry(22, INTENTS[22]), CreditEntry(23, INTENTS[23]),
                      RefundEntry(23, INTENTS[23])];
    assert LEDGER[0] in LEDGER && LEDGER[1] in LEDGER && LEDGER[2] in LEDGER && LEDGER[3] in LEDGER;
  }

  lemma RosterIs()
    ensures Roster(MEMBERSHIPS) == {1, 2}
  {
  }

  /** The state is in order, all reviews are done, and the finalization throws. */
  lemma CannotBeSettled()
    ensures Inv(DB) && FinalizationGuards.NoPendingReview(DB) && DB.pod.state == FinalReview
    ensures Finalization.Finalize(DB, DB.clock) == Throw(DB)
  {
    Balances();
    LedgerKeys();
    RosterIs();
    OversubscribedOrder();
    FinalizationGuards.FinalizeSucceedsIff(DB, DB.clock);
  }

  lemma OversubscribedOrder()
    requires BalancesOk(DB) && DistinctKeys(LEDGER) && KeysOk(LEDGER, INTENTS, REFUNDS, map[], false)
    requires EntriesOk(LEDGER, INTENTS, REFUNDS, map[]) && Roster(MEMBERSHIPS) == {1, 2}
    ensures Inv(DB)
  {
    hide BalancesOk, DistinctKeys, KeysOk, EntriesOk, Roster;
  }

  // ---------------------------------------------------------------------------------------------
  // The same Pod without the third depositor.
  // ---------------------------------------------------------------------------------------------

  const FULL := DB.(memberships := MEMBERSHIPS - {3}, intents := INTENTS - {23}, refunds := map[], ledger := CREDITS)

  lemma FullBalances()
    ensures BalancesOk(FULL)
  {
    hide Net;
    forall a | a != Treasury ensures Net(CREDITS, a) == Owed(FULL, a) {
      var c1, c2 := CreditEntry(21, INTENTS[21]), CreditEntry(22, INTENTS[22]);
      assert [] + [c1] == [c1] && [c1] + [c2] == CREDITS;
      NothingPosted(a);
      NetOfOne([], c1, a);
      NetOfOne([c1], c2, a);
    }
  }

  lemma FullLedger()
    ensures Keys(CREDITS) == {DepositCredit(21), DepositCredit(22)}
    ensures DistinctKeys(CREDITS) && KeysOk(CREDITS, FULL.intents, map[], map[], false)
    ensures EntriesOk(CREDITS, FULL.intents, map[], map[])
  {
    assert CREDITS[0] in CREDITS && CREDITS[1] in CREDITS;
  }

  lemma FullRoster()
    ensures Roster(FULL.memberships) == {1, 2}
  {
  }

  /** The state is in order, and the finalization succeeds. */
  lemma CanBeSettled()
    ensures Inv(FULL) && Finalization.Finalize(FULL, FULL.clock).reply == Done
  {
    FullBalances();
    FullLedger();
    FullRoster();
    FullOrder();
    FinalizationGuards.FinalizeSucceedsIff(FULL, FULL.clock);
  }

  lemma FullOrder()
    requires BalancesOk(FULL) && DistinctKeys(CREDITS) && KeysOk(CREDITS, FULL.intents, map[], map[], false)
    requires EntriesOk(CREDITS, FULL.intents, map[], map[]) && Roster(FULL.memberships) == {1, 2}
    ensures Inv(FULL)
  {
    hide BalancesOk, DistinctKeys, KeysOk, EntriesOk, Roster;
  }

  // ---------------------------------------------------------------------------------------------
  // At the cutoff.
  // ---------------------------------------------------------------------------------------------

  /** A deposit whose wallet request is open. */
  const WAITING := Intent(3, 13, 1, WalletApprovalPending, OPENS, None, None, None, None, None)
  /** A deposit that was finalized in time and not credited yet. */
  const TIMELY := Deposit(3, 13, Finalized, 43)

  const OPEN_MEMBERSHIPS: map<Id, Membership> := map[
    1 := Member(11, FundedProvisional, 21),
    2 := Member(12, FundedProvisional, 22),
    3 := Member(13, DepositPending, 23)]

  function OpenIntents(third: Intent): map<Id, Intent> {
    map[21 := Deposit(1, 11, CreditedProvisional, 41), 22 := Deposit(2, 12, CreditedProvisional, 42), 23 := third]
  }

  const OPEN_OCCURRENCES := [Occurrence(31, 1, OPENS, CLOSES, None, Scheduled)]

  /** Two credited deposits and a third that is not, when the first opening has come. */
  function OpenPod(third: Intent): Db {
    Db(POD.(state := EnrollmentOpen), OPEN_MEMBERSHIPS, OpenIntents(third), OPEN_OCCURRENCES, map[], map[], map[],
       CREDITS, None, OPENS)
  }

  lemma OpenBalances(third: Intent)
    requires third in {WAITING, TIMELY}
    ensures BalancesOk(OpenPod(third))
  {
    hide Net;
    forall a | a != Treasury ensures Net(CREDITS, a) == Owed(OpenPod(third), a) {
      var c1, c2 := CreditEntry(21, INTENTS[21]), CreditEntry(22, INTENTS[22]);
      assert [] + [c1] == [c1] && [c1] + [c2] == CREDITS;
      NothingPosted(a);
      NetOfOne([], c1, a);
      NetOfOne([c1], c2, a);
    }
  }

  lemma OpenLedger(third: Intent)
    requires third in {WAITING, TIMELY}
    ensures DistinctKeys(CREDITS) && KeysOk(CREDITS, OpenIntents(third), map[], map[], false)
    ensures EntriesOk(CREDITS, OpenIntents(third), map[], map[])
  {
    FullLedger();
  }

  lemma OpenLinks(third: Intent)
    requires third in {WAITING, TIMELY}
    ensures LinksOk(OpenPod(third))
  {
    hide DepositsOk, MembershipsOk;
    OpenDeposits(third);
    OpenMemberships(third);
  }

  lemma OpenDeposits(third: Intent)
    requires third in {WAITING, TIMELY}
    ensures DepositsOk(POD.(state := EnrollmentOpen), OPENS, OPEN_MEMBERSHIPS, OpenIntents(third), map[])
  {
  }

  lemma OpenMemberships(third: Intent)
    requires third in {WAITING, TIMELY}
    ensures MembershipsOk(POD.(state := EnrollmentOpen), OPEN_MEMBERSHIPS, OpenIntents(third))
  {
  }

  lemma OpenOrder(third: Intent)
    requires third in {WAITING, TIMELY}
    ensures Inv(OpenPod(third))
  {
    hide BalancesOk, DistinctKeys, KeysOk, EntriesOk, LinksOk;
    OpenLinks(third);
    OpenBalances(third);
    OpenLedger(third);
  }

  /** The cutoff locks the two credited deposits, excludes the third membership and leaves its deposit alone. */
  lemma ThirdIsExcluded(third: Intent) returns (locked: Db)
    requires third in {WAITING, TIMELY}
    ensures locked == Apply(OpenPod(third), ApplyCutoff).db
    ensures Inv(OpenPod(third)) && Inv(locked) && locked.pod.state == LockedScheduled
    ensures 3 in locked.memberships && locked.memberships[3] == Member(13, ExcludedAtCutoff, 23)
    ensures 23 in locked.intents && locked.intents[23] == third
  {
    hide Inv, Cutoff.ApplyCutoff, Cutoff.Ranked, CutoffKeeps.EntriesFor, CutoffFates.Decided, Cutoff.InChainOrder;
    var open := OpenPod(third);
    locked := Apply(open, ApplyCutoff).db;
    OpenOrder(third);
    ApplyKeeps(open, ApplyCutoff);
    CutoffFates.CutoffDecidesFate(open, OPENS);
    Cancellation.CutoffOutcome(open);
    TwoCredited(third);
    Cancellation.RankedCount(open);
    var ranked := Cutoff.Ranked(open);
    ThirdIsUntouched(third, locked, ranked, Cutoff.IncludedCount(open.pod.contract, |ranked|));
  }

  lemma ThirdIsUntouched(third: Intent, locked: Db, ranked: seq<Id>, k: nat)
    requires third in {WAITING, TIMELY} && k <= |ranked| && Cutoff.Elements(ranked) == {21, 22}
    requires Cutoff.Listed(OpenPod(third), ranked) && CutoffFates.Decided(OpenPod(third), locked, ranked, k)
    ensures 3 in locked.memberships && locked.memberships[3] == Member(13, ExcludedAtCutoff, 23)
    ensures 23 in locked.intents && locked.intents[23] == third
  {
    hide CutoffFates.FateAt, CutoffFates.RefundList, CutoffKeeps.EntriesFor, CutoffFates.RosterOf;
    assert forall i | i in ranked :: i in Cutoff.Elements(ranked);
    assert !CutoffKeeps.Names(OpenPod(third), ranked, 3);
    assert 23 !in ranked;
  }

  lemma TwoCredited(third: Intent)
    requires third in {WAITING, TIMELY}
    ensures Cutoff.Credited(OpenPod(third)) == {21, 22}
  {
  }

  /** Excluded by the cutoff and rejected in the wallet afterwards, the third membership ends in funding failed. */
  lemma RejectedAfterCutoff() returns (locked: Db)
    ensures Inv(OpenPod(WAITING)) && locked == Apply(OpenPod(WAITING), ApplyCutoff).db && Inv(locked)
    ensures 3 in locked.memberships && locked.memberships[3].state == ExcludedAtCutoff
    ensures var after := Apply(locked, Fund(WalletAttempt(23, false))).db;
            Inv(after) && 3 in after.memberships && after.memberships[3].state == FundingFailed
  {
    hide Inv, Cutoff.ApplyCutoff;
    locked := ThirdIsExcluded(WAITING);
    ApplyKeeps(locked, Fund(WalletAttempt(23, false)));
  }

  /** The third deposit was finalized before the cutoff, and its credit throws after it. */
  lemma TimelyButExcluded() returns (locked: Db)
    ensures Inv(OpenPod(TIMELY)) && locked == Apply(OpenPod(TIMELY), ApplyCutoff).db && Inv(locked)
    ensures 23 in locked.intents && locked.intents[23] == TIMELY && TIMELY.finalizedAt.value <= TIMELY.expiresAt
    ensures Funding.CreditDeposit(locked, 23) == Throw(locked)
  {
    hide Inv, Cutoff.ApplyCutoff;
    locked := ThirdIsExcluded(TIMELY);
  }

  /** Published, and nobody came until the first opening. */
  const EMPTY_POD := Published(POD.(state := EnrollmentOpen), OPEN_OCCURRENCES, OPENS)

  /** Its cutoff leaves it refunding with nothing to refund. */
  lemma NobodyFunded()
    ensures Inv(EMPTY_POD)
    ensures var after := Apply(EMPTY_POD, ApplyCutoff).db;
            after.pod.state == CancelledRefunding && after.refunds == map[]
  {
    hide Inv, Cutoff.ApplyCutoff;
    PublishedIsInOrder(POD.(state := EnrollmentOpen), OPEN_OCCURRENCES, OPENS);
    assert Cutoff.Credited(EMPTY_POD) == {};
    Cancellation.CutoffOutcome(EMPTY_POD);
  }
}
