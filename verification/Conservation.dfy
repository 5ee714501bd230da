/** Conservation of money: in every state a Pod can reach, the treasury holds exactly what is still owed. */
module Conservation {
  import opened Basics
  import opened Ledger
  import opened Rows
  import opened Invariants
  import opened FundingKeeps
  import opened Transactions
  import FinalizationGuards

  /** Deposits the participants still own. */
  ghost function ParticipantsOwed(db: Db): int {
    SumOver(db.memberships.Keys, m => HeldFor(db.memberships, db.intents, db.run.Some?, m))
  }

  /** Refunds not yet confirmed. */
  ghost function RefundsOwed(db: Db): int {
    SumOver(db.refunds.Keys, i => RefundOwed(db.refunds, i))
  }

  function Entitled(run: Option<Run>): set<Id> {
    if run.Some? then run.value.entitlements.Keys else {}
  }

  /** Payouts not yet confirmed. */
  ghost function PayoutsOwed(db: Db): int {
    SumOver(Entitled(db.run), m => PayoutOwed(db.run, m))
  }

  ghost function ParticipantAccounts(db: Db): set<Account> {
    Image(db.memberships.Keys, m => Participant(m))
  }

  ghost function RefundAccounts(db: Db): set<Account> {
    Image(db.refunds.Keys, i => RefundDue(i))
  }

  ghost function PayoutAccounts(db: Db): set<Account> {
    Image(Entitled(db.run), m => PayoutDue(m))
  }

  lemma InImage<A(!new), B(!new)>(s: set<A>, f: A -> B, x: A)
    requires x in s
    ensures f(x) in Image(s, f)
  {
  }

  /** Nothing is owed on any other account. */
  lemma NothingElseOwed(db: Db, a: Account)
    requires a !in ParticipantAccounts(db) && a !in RefundAccounts(db) && a !in PayoutAccounts(db)
    ensures Owed(db, a) == 0
  {
    match a {
      case Participant(m) => if m in db.memberships { InImage(db.memberships.Keys, m => Participant(m), m); }
      case RefundDue(i) => if i in db.refunds { InImage(db.refunds.Keys, i => RefundDue(i), i); }
      case PayoutDue(m) => if m in Entitled(db.run) { InImage(Entitled(db.run), m => PayoutDue(m), m); }
      case _ =>
    }
  }

  /** What is owed, account kind by account kind. */
  lemma OwedByKind(db: Db)
    ensures SumOver(ParticipantAccounts(db), a => Owed(db, a)) == ParticipantsOwed(db)
    ensures SumOver(RefundAccounts(db), a => Owed(db, a)) == RefundsOwed(db)
    ensures SumOver(PayoutAccounts(db), a => Owed(db, a)) == PayoutsOwed(db)
  {
    hide SumOver, HeldFor, RefundOwed, PayoutOwed;
    SumOverImage(db.memberships.Keys, m => Participant(m), a => Owed(db, a),
                 m => HeldFor(db.memberships, db.intents, db.run.Some?, m));
    SumOverImage(db.refunds.Keys, i => RefundDue(i), a => Owed(db, a), i => RefundOwed(db.refunds, i));
    SumOverImage(Entitled(db.run), m => PayoutDue(m), a => Owed(db, a), m => PayoutOwed(db.run, m));
  }

  lemma KindsAreApart(db: Db)
    ensures ParticipantAccounts(db) !! RefundAccounts(db)
    ensures (ParticipantAccounts(db) + RefundAccounts(db)) !! PayoutAccounts(db)
    ensures Treasury !in ParticipantAccounts(db) + RefundAccounts(db) + PayoutAccounts(db)
  {
  }

  lemma SumOfKinds(db: Db, all: set<Account>)
    requires ParticipantAccounts(db) + RefundAccounts(db) + PayoutAccounts(db) <= all
    ensures SumOver(all, a => Owed(db, a)) == ParticipantsOwed(db) + RefundsOwed(db) + PayoutsOwed(db)
  {
    hide SumOver, ParticipantAccounts, RefundAccounts, PayoutAccounts, Owed, ParticipantsOwed, RefundsOwed, PayoutsOwed;
    var p, r, d := ParticipantAccounts(db), RefundAccounts(db), PayoutAccounts(db);
    var owed := a => Owed(db, a);
    KindsAreApart(db);
    OwedByKind(db);
    SumOverSplit(all, p, owed);
    SumOverSplit(all - p, r, owed);
    SumOverSplit(all - p - r, d, owed);
    forall a | a in all - p - r - d ensures owed(a) == 0 { NothingElseOwed(db, a); }
    SumOverConstant(all - p - r - d, owed, 0);
  }

  /** The treasury holds exactly the outstanding participant, refund and payout liabilities. */
  lemma TreasuryCoversAll(db: Db)
    requires Inv(db)
    ensures TreasuryAsset(db.ledger) == ParticipantsOwed(db) + RefundsOwed(db) + PayoutsOwed(db)
  {
    hide Inv, SumOver, Touched, Net, Owed, ParticipantAccounts, RefundAccounts, PayoutAccounts,
         ParticipantsOwed, RefundsOwed, PayoutsOwed;
    var kinds := ParticipantAccounts(db) + RefundAccounts(db) + PayoutAccounts(db);
    var all := (Touched(db.ledger) + kinds) - {Treasury};
    KindsAreApart(db);
    TreasuryCoversLiabilities(db.ledger, all);
    forall a | a in all ensures Net(db.ledger, a) == Owed(db, a) { AboutBalance(db, a); }
    SumOverSame(all, a => Net(db.ledger, a), a => Owed(db, a));
    SumOfKinds(db, all);
  }

  /** No liability is ever negative. */
  lemma NothingIsNegative(db: Db, a: Account)
    requires Inv(db) && a != Treasury
    ensures Net(db.ledger, a) >= 0
  {
    hide Inv, LinksOk, Net, PublishedContract;
    AboutBalance(db, a);
    HasLinks(db);
    TotalIsPositive(db);
    match a {
      case Participant(m) =>
        if m in db.memberships && IntentOf(db.intents, db.memberships[m].intent).Some? {
          AboutDeposit(db, db.memberships[m].intent.value);
        }
      case RefundDue(i) => if i in db.refunds { LegAmount(db, i); }
      case PayoutDue(m) => if m in Entitled(db.run) { PayoutAmount(db, m); }
      case _ =>
    }
  }

  lemma TotalIsPositive(db: Db)
    requires Inv(db)
    ensures db.pod.contract.totalLuna > 0
  {
    hide Inv;
    FinalizationGuards.HasContract(db);
    ContractIsPositive(db.pod.contract);
  }

  lemma ContractIsPositive(c: Contract)
    requires PublishedContract(c)
    ensures c.totalLuna > 0
  {
  }

  lemma LegAmount(db: Db, i: Id)
    requires LinksOk(db) && i in db.refunds
    ensures db.refunds[i].amount == db.pod.contract.totalLuna
  {
    assert i in db.intents;
    hide LinksOk;
    AboutDeposit(db, i);
  }

  lemma PayoutAmount(db: Db, m: Id)
    requires Inv(db) && m in Entitled(db.run)
    ensures db.run.value.entitlements[m].amounts.payout >= 0
  {
    hide LinksOk, BookOk, LifeOk, SubmissionsOk, FrozenOk, LegsOk, AllResolved, Roster;
    assert EntitlementFits(db.run.value.entitlements[m], PayoutLegOf(db.payouts, m));
  }

  // ---------------------------------------------------------------------------------------------
  // Over whole runs.
  // ---------------------------------------------------------------------------------------------

  /** At every point of every run the treasury equals what is outstanding, every account holds exactly what its
      deposit, refund leg or entitlement says, and none is negative. */
  lemma TreasuryAlwaysCovers(states: seq<Db>, events: seq<Event>, k: nat, a: Account)
    requires History(states, events) && Inv(states[0]) && k < |states|
    ensures TreasuryAsset(states[k].ledger)
         == ParticipantsOwed(states[k]) + RefundsOwed(states[k]) + PayoutsOwed(states[k])
    ensures a != Treasury ==> Net(states[k].ledger, a) == Owed(states[k], a) >= 0
  {
    hide Inv, History, Net, ParticipantsOwed, RefundsOwed, PayoutsOwed, Owed;
    HistoryKeeps(states, events, k);
    TreasuryCoversAll(states[k]);
    if a != Treasury {
      AboutBalance(states[k], a);
      NothingIsNegative(states[k], a);
    }
  }

  /** Once a run is settled, treasury and all accounts are back to zero. */
  lemma SettledPodIsEven(db: Db, a: Account)
    requires Inv(db) && db.run.Some? && db.run.value.state == Settled
    ensures TreasuryAsset(db.ledger) == 0 && Net(db.ledger, a) == 0
  {
    hide Inv, SumOver, Net, LinksOk, Owed;
    TreasuryCoversAll(db);
    SettledOwesNothing(db);
    var held := (m: Id) => HeldFor(db.memberships, db.intents, db.run.Some?, m);
    SumOverConstant(db.memberships.Keys, held, 0);
    SumOverConstant(db.refunds.Keys, i => RefundOwed(db.refunds, i), 0);
    SumOverConstant(Entitled(db.run), m => PayoutOwed(db.run, m), 0);
    if a != Treasury {
      AboutBalance(db, a);
      NothingOwed(db, a);
    }
  }

  lemma NothingOwed(db: Db, a: Account)
    requires db.run.Some? && db.refunds == map[]
    requires forall m | m in Entitled(db.run) :: PayoutOwed(db.run, m) == 0
    ensures Owed(db, a) == 0
  {
  }

  /** Over every run: whenever the settlement is done, the books are even. */
  lemma SettledPodStaysEven(states: seq<Db>, events: seq<Event>, k: nat, a: Account)
    requires History(states, events) && Inv(states[0])
    requires k < |states| && states[k].run.Some? && states[k].run.value.state == Settled
    ensures TreasuryAsset(states[k].ledger) == 0 && Net(states[k].ledger, a) == 0
  {
    hide Inv, History, Net;
    HistoryKeeps(states, events, k);
    SettledPodIsEven(states[k], a);
  }

  lemma SettledOwesNothing(db: Db)
    requires Inv(db) && db.run.Some? && db.run.value.state == Settled
    ensures db.refunds == map[]
    ensures forall m | m in Entitled(db.run) :: PayoutOwed(db.run, m) == 0
  {
    hide LinksOk, BookOk, LifeOk, SubmissionsOk, FrozenOk, LegsOk, Roster;
    forall m | m in db.run.value.entitlements ensures PayoutOwed(db.run, m) == 0 {
      assert !Unresolved(db.run.value.entitlements[m]);
      assert EntitlementFits(db.run.value.entitlements[m], PayoutLegOf(db.payouts, m));
    }
  }
}
