/** The refund transactions keep the invariants. */
module RefundsKeep {
  import opened Basics
  import opened Ledger
  import opened Rows
  import opened Refunds
  import opened Invariants
  import opened FundingKeeps
  import L = PayoutLegs

  /** Refund legs and a settlement run never exist together. */
  lemma NoRunWithRefunds(db: Db, i: Id)
    requires Inv(db) && i in db.refunds
    ensures db.run.None?
  {
    hide LinksOk, BookOk, LifeOk, SubmissionsOk, LegsOk, FrozenOk;
  }

  /** The rows a refund leg refers to. */
  lemma AboutLeg(db: Db, i: Id)
    requires Inv(db) && i in db.refunds
    ensures LinksOk(db) && i in db.intents && db.refunds[i].membership == db.intents[i].membership
    ensures db.refunds[i].amount == db.intents[i].amount && RefundState(db.refunds[i].state)
    ensures db.intents[i].membership in db.memberships
    ensures db.intents[i].state == if db.refunds[i].state == L.Confirmed then Refunded else RefundPending
    ensures db.memberships[db.intents[i].membership].intent == Some(i)
  {
    hide Inv;
    HasLinks(db);
    RefundsAreDeposits(db, i);
    hide LinksOk;
    AboutDeposit(db, i);
  }

  lemma RefundsAreDeposits(db: Db, i: Id)
    requires LinksOk(db) && i in db.refunds
    ensures i in db.intents
  {
    hide DepositsOk, MembershipsOk, HashesOk;
  }

  // ---------------------------------------------------------------------------------------------
  // A leg moves without being confirmed.
  // ---------------------------------------------------------------------------------------------

  lemma MoveLegKeepsLinks(db: Db, i: Id, leg: RefundLeg)
    requires LinksOk(db) && i in db.refunds && i in db.intents && db.intents[i].membership in db.memberships
    requires db.memberships[db.intents[i].membership].intent == Some(i)
    requires db.refunds[i].state != L.Confirmed && leg.state != L.Confirmed && RefundState(leg.state)
    requires leg.membership == db.refunds[i].membership && leg.amount == db.refunds[i].amount
    ensures LinksOk(MoveLeg(db, i, leg))
  {
    hide LinksOk;
    var d := db.intents[i];
    AboutDeposit(db, i);
    AboutMembership(db, d.membership);
    var r := db.memberships[d.membership];
    assert db.intents[i := d] == db.intents && db.memberships[d.membership := r] == db.memberships;
    RewriteLinksAndLeg(db, i, d, r, leg);
    SameLinks(Rewrite(db, i, d, r).(refunds := db.refunds[i := leg]), MoveLeg(db, i, leg));
  }

  lemma MoveLegKeepsBook(db: Db, i: Id, leg: RefundLeg)
    requires BookOk(db) && i in db.refunds
    requires db.refunds[i].state != L.Confirmed && leg.state != L.Confirmed && RefundState(leg.state)
    requires leg.membership == db.refunds[i].membership && leg.amount == db.refunds[i].amount
    ensures BookOk(MoveLeg(db, i, leg))
  {
    var after := MoveLeg(db, i, leg);
    hide Net, DistinctKeys;
    forall a | a != Treasury ensures Net(after.ledger, a) == Owed(after, a) {
      assert Net(db.ledger, a) == Owed(db, a);
    }
  }

  lemma MoveLegKeeps(db: Db, i: Id, leg: RefundLeg)
    requires Inv(db) && i in db.refunds
    requires db.refunds[i].state != L.Confirmed && leg.state != L.Confirmed && RefundState(leg.state)
    requires leg.membership == db.refunds[i].membership && leg.amount == db.refunds[i].amount
    ensures Inv(MoveLeg(db, i, leg))
  {
    hide LinksOk, BookOk, LifeOk, LegsOk, SubmissionsOk, FrozenOk, Roster;
    NoRunWithRefunds(db, i);
    AboutLeg(db, i);
    MoveLegKeepsLinks(db, i, leg);
    MoveLegKeepsBook(db, i, leg);
  }

  lemma PrepareRefundKeeps(db: Db, i: Id, bytes: RefundBytes)
    requires Inv(db)
    ensures Inv(PrepareRefund(db, i, bytes).db)
  {
    hide Inv;
    if i in db.refunds && db.refunds[i].state == L.Queued {
      MoveLegKeeps(db, i, db.refunds[i].(state := L.Prepared, bytes := Some(bytes)));
    }
  }

  lemma BroadcastRefundKeeps(db: Db, i: Id)
    requires Inv(db)
    ensures Inv(BroadcastRefund(db, i).db)
  {
    hide Inv;
    if i in db.refunds && db.refunds[i].state == L.Prepared {
      MoveLegKeeps(db, i, db.refunds[i].(state := L.Broadcast));
    }
  }

  lemma ReportRefundKeeps(db: Db, i: Id, to: L.LegState)
    requires Inv(db) && RefundReport(to)
    ensures Inv(ReportRefund(db, i, to).db)
  {
    hide Inv;
    if i in db.refunds && L.OpenAttempt(db.refunds[i].state) {
      MoveLegKeeps(db, i, db.refunds[i].(state := to));
    }
  }

  // ---------------------------------------------------------------------------------------------
  // A leg is confirmed.
  // ---------------------------------------------------------------------------------------------

  predicate Confirmable(db: Db, i: Id) {
    && i in db.refunds
    && L.OpenAttempt(db.refunds[i].state)
    && i in db.intents
    && db.intents[i].state == RefundPending
    && db.refunds[i].membership == db.intents[i].membership
    && db.refunds[i].amount == db.intents[i].amount
    && db.intents[i].membership in db.memberships
    && db.memberships[db.intents[i].membership].intent == Some(i)
  }

  /** The confirmed rows written out. */
  function Confirmed(db: Db, i: Id): Db
    requires Confirmable(db, i)
  {
    var d := db.intents[i];
    Rewrite(db, i, d.(state := Refunded), RefundedMembership(db.memberships[d.membership])).(
      refunds := db.refunds[i := db.refunds[i].(state := L.Confirmed)],
      ledger := db.ledger + [RefundConfirmedEntry(i, db.refunds[i])])
  }

  lemma ConfirmKeepsLinks(db: Db, i: Id)
    requires LinksOk(db) && Confirmable(db, i)
    ensures LinksOk(Confirmed(db, i))
  {
    hide LinksOk;
    var d := db.intents[i];
    AboutDeposit(db, i);
    AboutMembership(db, d.membership);
    var d', r' := d.(state := Refunded), RefundedMembership(db.memberships[d.membership]);
    var leg := db.refunds[i].(state := L.Confirmed);
    RewriteLinksAndLeg(db, i, d', r', leg);
    SameLinks(Rewrite(db, i, d', r').(refunds := db.refunds[i := leg]), Confirmed(db, i));
  }

  lemma ConfirmKeepsKeys(db: Db, i: Id)
    requires Confirmable(db, i)
    requires KeysOk(db.ledger, db.intents, db.refunds, db.payouts, db.run.Some?) && DistinctKeys(db.ledger)
    ensures var after := Confirmed(db, i);
            && Post(db.ledger, RefundConfirmedEntry(i, db.refunds[i])) == after.ledger
            && KeysOk(after.ledger, after.intents, after.refunds, after.payouts, after.run.Some?)
            && DistinctKeys(after.ledger)
  {
    hide KeysOk, DistinctKeys;
    var after := Confirmed(db, i);
    PostKeepsKeys(db.ledger, RefundConfirmedEntry(i, db.refunds[i]), db.intents, db.refunds, db.payouts,
                  db.run.Some?, after.intents, after.refunds, after.payouts);
  }

  lemma ConfirmKeepsHeld(db: Db, i: Id, m: Id)
    requires LinksOk(db) && Confirmable(db, i)
    ensures HeldFor(Confirmed(db, i).memberships, Confirmed(db, i).intents, db.run.Some?, m)
         == HeldFor(db.memberships, db.intents, db.run.Some?, m)
  {
    hide LinksOk;
    if m in db.memberships { AboutMembership(db, m); }
  }

  lemma ConfirmKeepsBalances(db: Db, i: Id)
    requires LinksOk(db) && BalancesOk(db) && Confirmable(db, i)
    ensures BalancesOk(Confirmed(db, i))
  {
    hide LinksOk, Net, HeldFor;
    var after := Confirmed(db, i);
    forall a | a != Treasury ensures Net(after.ledger, a) == Owed(after, a) {
      NetOfOne(db.ledger, RefundConfirmedEntry(i, db.refunds[i]), a);
      assert Net(db.ledger, a) == Owed(db, a);
      if a.Participant? { ConfirmKeepsHeld(db, i, a.membership); }
    }
  }

  lemma ConfirmKeepsRest(db: Db, i: Id)
    requires Confirmable(db, i) && db.run.None?
    requires RunOk(db.pod, Roster(db.memberships), db.refunds, db.payouts, db.run)
    requires SubmissionsOk(db.occurrences, db.memberships, db.submissions)
    ensures var after := Confirmed(db, i);
            && RunOk(after.pod, Roster(after.memberships), after.refunds, after.payouts, after.run)
            && SubmissionsOk(after.occurrences, after.memberships, after.submissions)
            && Roster(after.memberships) == Roster(db.memberships)
  {
    SameRoster(db.memberships, Confirmed(db, i).memberships);
  }

  lemma ConfirmLegIs(db: Db, i: Id)
    requires Confirmable(db, i)
    requires Post(db.ledger, RefundConfirmedEntry(i, db.refunds[i])) == Confirmed(db, i).ledger
    ensures ConfirmLeg(db, i) == Confirmed(db, i)
  {
    hide Post;
  }

  lemma ConfirmedKeeps(db: Db, i: Id)
    requires Inv(db) && Confirmable(db, i)
    ensures Inv(Confirmed(db, i)) && ConfirmLeg(db, i) == Confirmed(db, i)
  {
    hide LinksOk, BalancesOk, KeysOk, EntriesOk, DistinctKeys, RunOk, LifeOk, LegsOk, FrozenOk, SubmissionsOk, Roster,
         Post, ConfirmLeg;
    NoRunWithRefunds(db, i);
    ConfirmKeepsLinks(db, i);
    ConfirmKeepsKeys(db, i);
    ConfirmLegIs(db, i);
    EntriesStay(db, Confirmed(db, i), RefundConfirmedEntry(i, db.refunds[i]));
    ConfirmKeepsBalances(db, i);
    ConfirmKeepsRest(db, i);
  }

  /** A Pod whose refunds are all confirmed is cancelled. */
  lemma CancelKeeps(db: Db)
    requires Inv(db) && db.pod.state == CancelledRefunding
    ensures Inv(WithState(db, Cancelled))
  {
    hide LinksOk, BalancesOk, KeysOk, EntriesOk, DistinctKeys, LegsOk, FrozenOk, SubmissionsOk, CalendarOk;
    AdvanceKeepsLinks(db, Cancelled);
    SameBalances(db, WithState(db, Cancelled));
  }

  lemma ConfirmRefundKeeps(db: Db, i: Id)
    requires Inv(db)
    ensures Inv(ConfirmRefund(db, i).db)
  {
    hide Inv, LinksOk, RefundsOpen, ConfirmLeg;
    if i in db.refunds && L.OpenAttempt(db.refunds[i].state) {
      AboutLeg(db, i);
      ConfirmedKeeps(db, i);
      if !RefundsOpen(ConfirmLeg(db, i).refunds) && db.pod.state == CancelledRefunding {
        CancelKeeps(ConfirmLeg(db, i));
      }
    }
  }

  // ---------------------------------------------------------------------------------------------
  // What a confirmation means.
  // ---------------------------------------------------------------------------------------------

  /** Confirming a refund pays exactly the deposit back, once: the deposit and its excluded or refund-pending
      member become refunded, the amount leaves the liability and the treasury, and every other account stays.
      Confirming it again changes nothing. */
  lemma ConfirmRefundPaysOnce(db: Db, i: Id)
    requires Inv(db) && i in db.refunds && L.OpenAttempt(db.refunds[i].state)
    ensures var after := ConfirmRefund(db, i).db;
            && i in db.intents && i in after.intents
            && after.intents[i] == db.intents[i].(state := Refunded)
            && Net(db.ledger, RefundDue(i)) == db.intents[i].amount
            && Net(after.ledger, RefundDue(i)) == 0
            && TreasuryAsset(after.ledger) == TreasuryAsset(db.ledger) - db.intents[i].amount
            && (forall a | a != Treasury && a != RefundDue(i) :: Net(after.ledger, a) == Net(db.ledger, a))
            && ConfirmRefund(after, i) == Return(after)
  {
    hide Inv, LinksOk, Net;
    AboutLeg(db, i);
    AboutBalance(db, RefundDue(i));
    ConfirmedKeeps(db, i);
    ConfirmedLedger(db, i);
  }

  lemma ConfirmedLedger(db: Db, i: Id)
    requires Confirmable(db, i)
    ensures forall a :: Net(Confirmed(db, i).ledger, a)
                     == Net(db.ledger, a) + Effect(RefundConfirmedEntry(i, db.refunds[i]), a)
  {
    forall a ensures Net(Confirmed(db, i).ledger, a)
                  == Net(db.ledger, a) + Effect(RefundConfirmedEntry(i, db.refunds[i]), a)
    {
      NetOfOne(db.ledger, RefundConfirmedEntry(i, db.refunds[i]), a);
    }
  }

  /** The Pod turns from refunding to cancelled exactly when its last refund is confirmed. */
  lemma LastRefundCancels(db: Db, i: Id)
    requires Inv(db) && i in db.refunds && L.OpenAttempt(db.refunds[i].state) && db.pod.state == CancelledRefunding
    ensures ConfirmRefund(db, i).db.pod.state == Cancelled
       <==> forall j | j in db.refunds && j != i :: db.refunds[j].state == L.Confirmed
  {
    hide Inv, LinksOk, Post, RefundedMembership;
    AboutLeg(db, i);
    var after := ConfirmLeg(db, i).refunds;
    if RefundsOpen(after) {
      var j :| j in after && after[j].state != L.Confirmed;
      assert j in db.refunds && j != i && db.refunds[j].state != L.Confirmed;
    } else {
      forall j | j in db.refunds && j != i ensures db.refunds[j].state == L.Confirmed {
        assert j in after;
      }
    }
  }
}
