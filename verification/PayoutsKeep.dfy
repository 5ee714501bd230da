/** The payout transactions keep the invariants; a run settles exactly when its last payout is confirmed. */
module PayoutsKeep {
  import opened Basics
  import opened Ledger
  import opened Rows
  import opened Payouts
  import opened Invariants
  import opened FundingKeeps
  import L = PayoutLegs

  /** A payout leg belongs to an entitlement of the run, for its amount. */
  lemma AboutPayout(db: Db, m: Id)
    requires Inv(db) && m in db.payouts
    ensures db.run.Some? && m in db.run.value.entitlements && L.LegOk(db.payouts[m])
    ensures EntitlementFits(db.run.value.entitlements[m], Some(db.payouts[m]))
    ensures db.refunds == map[]
  {
    hide LinksOk, BookOk, LifeOk, SubmissionsOk, FrozenOk, EntitlementFits, L.LegOk, AllResolved, Roster;
  }

  // ---------------------------------------------------------------------------------------------
  // A leg moves without being confirmed.
  // ---------------------------------------------------------------------------------------------

  function MoveLeg(db: Db, m: Id, leg: L.Leg): Db {
    db.(payouts := db.payouts[m := leg])
  }

  lemma MoveLegKeepsBook(db: Db, m: Id, leg: L.Leg)
    requires BookOk(db) && m in db.payouts && db.payouts[m].state != L.Confirmed && leg.state != L.Confirmed
    requires leg.amount == db.payouts[m].amount
    ensures BookOk(MoveLeg(db, m, leg))
  {
    hide Net, DistinctKeys;
    var after := MoveLeg(db, m, leg);
    forall a | a != Treasury ensures Net(after.ledger, a) == Owed(after, a) {
      assert Net(db.ledger, a) == Owed(db, a);
    }
  }

  lemma MoveLegKeepsRun(db: Db, m: Id, leg: L.Leg)
    requires RunOk(db.pod, Roster(db.memberships), db.refunds, db.payouts, db.run) && m in db.payouts
    requires db.payouts[m].state != L.Confirmed && leg.state != L.Confirmed && leg.amount == db.payouts[m].amount
    ensures RunOk(db.pod, Roster(db.memberships), db.refunds, db.payouts[m := leg], db.run)
  {
    hide Roster, AllResolved;
    forall n | n in db.run.value.entitlements
      ensures EntitlementFits(db.run.value.entitlements[n], PayoutLegOf(db.payouts[m := leg], n))
    {
      assert EntitlementFits(db.run.value.entitlements[n], PayoutLegOf(db.payouts, n));
    }
  }

  lemma MoveLegKeeps(db: Db, m: Id, leg: L.Leg)
    requires Inv(db) && m in db.payouts && L.LegOk(leg)
    requires db.payouts[m].state != L.Confirmed && leg.state != L.Confirmed && leg.amount == db.payouts[m].amount
    ensures Inv(MoveLeg(db, m, leg))
  {
    hide LinksOk, BookOk, RunOk, LifeOk, SubmissionsOk, FrozenOk, Roster, L.LegOk;
    SameLinks(db, MoveLeg(db, m, leg));
    MoveLegKeepsBook(db, m, leg);
    MoveLegKeepsRun(db, m, leg);
  }

  lemma PayoutActKeeps(db: Db, m: Id, action: L.LegAction)
    requires Inv(db) && !action.DoConfirm? && (action.DoReport? ==> L.Reportable(action.to))
    ensures Inv(PayoutAct(db, m, action).db)
  {
    hide Inv, L.Act, L.LegOk, EntitlementFits;
    if m in db.payouts && L.Act(m, db.payouts[m], action).Moved? {
      AboutPayout(db, m);
      L.ActKeeps(m, db.payouts[m], action);
      L.ActEffect(m, db.payouts[m], action);
      MoveLegKeeps(db, m, L.Act(m, db.payouts[m], action).leg);
    }
  }

  // ---------------------------------------------------------------------------------------------
  // A leg is confirmed.
  // ---------------------------------------------------------------------------------------------

  /** The run around a leg that is about to be confirmed. */
  predicate Confirmable(db: Db, m: Id, leg: L.Leg) {
    && m in db.payouts && db.run.Some? && m in db.run.value.entitlements
    && db.payouts[m].state != L.Confirmed && leg.state == L.Confirmed && leg.amount == db.payouts[m].amount
    && db.run.value.entitlements[m].amounts.payout == leg.amount
  }

  lemma ConfirmKeepsKeys(db: Db, m: Id, leg: L.Leg)
    requires Confirmable(db, m, leg)
    requires KeysOk(db.ledger, db.intents, db.refunds, db.payouts, db.run.Some?) && DistinctKeys(db.ledger)
    ensures var after := ConfirmRows(db, m, leg);
            && after.ledger == db.ledger + [PayoutEntry(m, leg)]
            && KeysOk(after.ledger, after.intents, after.refunds, after.payouts, after.run.Some?)
            && DistinctKeys(after.ledger)
  {
    hide KeysOk, DistinctKeys, Post;
    var after := ConfirmRows(db, m, leg);
    PostKeepsKeys(db.ledger, PayoutEntry(m, leg), db.intents, db.refunds, db.payouts, db.run.Some?,
                  after.intents, after.refunds, after.payouts);
  }

  lemma ConfirmKeepsBalances(db: Db, m: Id, leg: L.Leg)
    requires BalancesOk(db) && Confirmable(db, m, leg)
    requires db.run.value.entitlements[m].state != TransferConfirmed
    requires ConfirmRows(db, m, leg).ledger == db.ledger + [PayoutEntry(m, leg)]
    ensures BalancesOk(ConfirmRows(db, m, leg))
  {
    hide Net, HeldFor, RefundOwed, Post;
    var after := ConfirmRows(db, m, leg);
    forall a | a != Treasury ensures Net(after.ledger, a) == Owed(after, a) {
      NetOfOne(db.ledger, PayoutEntry(m, leg), a);
      assert Net(db.ledger, a) == Owed(db, a);
    }
  }

  lemma ConfirmKeepsBook(db: Db, m: Id, leg: L.Leg)
    requires BookOk(db) && Confirmable(db, m, leg)
    requires db.run.value.entitlements[m].state != TransferConfirmed
    ensures BookOk(ConfirmRows(db, m, leg))
    ensures ConfirmRows(db, m, leg).ledger == db.ledger + [PayoutEntry(m, leg)]
  {
    hide KeysOk, DistinctKeys, EntriesOk, BalancesOk, Post;
    ConfirmKeepsKeys(db, m, leg);
    EntriesStay(db, ConfirmRows(db, m, leg), PayoutEntry(m, leg));
    ConfirmKeepsBalances(db, m, leg);
  }

  /** The entitlements all fit their legs once more. */
  lemma ConfirmKeepsFits(db: Db, m: Id, leg: L.Leg)
    requires RunOk(db.pod, Roster(db.memberships), db.refunds, db.payouts, db.run) && Confirmable(db, m, leg)
    ensures var after := ConfirmRows(db, m, leg);
            forall n | n in after.run.value.entitlements ::
              EntitlementFits(after.run.value.entitlements[n], PayoutLegOf(after.payouts, n))
  {
    hide Roster, AllResolved, Post;
    var after := ConfirmRows(db, m, leg);
    forall n | n in after.run.value.entitlements
      ensures EntitlementFits(after.run.value.entitlements[n], PayoutLegOf(after.payouts, n))
    {
      assert EntitlementFits(db.run.value.entitlements[n], PayoutLegOf(db.payouts, n));
    }
  }

  /** While some leg is unconfirmed its run executes and the Pod waits in final review. */
  lemma StillExecuting(db: Db, m: Id)
    requires RunOk(db.pod, Roster(db.memberships), db.refunds, db.payouts, db.run)
    requires db.run.Some? && m in db.run.value.entitlements && m in db.payouts && db.payouts[m].state != L.Confirmed
    ensures db.run.value.state == Executing && db.pod.state == FinalReview
    ensures db.run.value.entitlements[m].state == TransferQueued
  {
    hide Roster;
    assert EntitlementFits(db.run.value.entitlements[m], PayoutLegOf(db.payouts, m));
    assert Unresolved(db.run.value.entitlements[m]);
  }

  lemma SettleKeepsRun(db: Db, m: Id, leg: L.Leg)
    requires RunOk(db.pod, Roster(db.memberships), db.refunds, db.payouts, db.run) && Confirmable(db, m, leg)
    ensures var after := Settle(ConfirmRows(db, m, leg));
            RunOk(after.pod, Roster(after.memberships), after.refunds, after.payouts, after.run)
  {
    hide EntitlementFits, Roster, AllResolved, Post;
    StillExecuting(db, m);
    ConfirmKeepsFits(db, m, leg);
    var rows := ConfirmRows(db, m, leg);
    SameResolved(rows.run.value);
    assert rows.run.value.entitlements.Keys == db.run.value.entitlements.Keys;
  }

  lemma SameResolved(run: Run)
    ensures AllResolved(run.(state := Settled)) == AllResolved(run)
  {
  }

  /** Settling only rewrites the run's state and the Pod's. */
  lemma SettleKeepsBook(db: Db)
    requires BookOk(db) && db.run.Some?
    ensures BookOk(Settle(db))
  {
    hide AllResolved, Net, HeldFor, RefundOwed, KeysOk, EntriesOk, DistinctKeys;
    var after := Settle(db);
    forall a | a != Treasury ensures Net(after.ledger, a) == Owed(after, a) {
      assert Net(db.ledger, a) == Owed(db, a);
    }
  }

  lemma SettleKeepsLinks(db: Db, rows: Db)
    requires LinksOk(db) && db.pod.state == FinalReview && rows.run.Some?
    requires rows == db.(ledger := rows.ledger, payouts := rows.payouts, run := rows.run)
    ensures LinksOk(Settle(rows))
  {
    hide LinksOk, AllResolved;
    AdvanceKeepsLinks(db, Completed);
    var after := Settle(rows);
    if after.pod == db.pod {
      SameLinks(db, after);
    } else {
      SameLinks(WithState(db, Completed), after);
    }
  }

  lemma SettleKeepsRest(db: Db, rows: Db)
    requires db.pod.state == FinalReview && rows.run.Some? && db.run.Some?
    requires rows == db.(ledger := rows.ledger, payouts := rows.payouts, run := rows.run)
    requires rows.run.value.outcomes == db.run.value.outcomes
    requires LifeOk(db.pod, Roster(db.memberships), db.occurrences, db.clock)
    requires FrozenOk(db.submissions, db.run)
    ensures var after := Settle(rows);
            && LifeOk(after.pod, Roster(after.memberships), after.occurrences, after.clock)
            && FrozenOk(after.submissions, after.run)
  {
    hide AllResolved, CalendarOk, Roster, VerdictOf;
  }

  lemma ConfirmedKeeps(db: Db, m: Id, leg: L.Leg)
    requires Inv(db) && Confirmable(db, m, leg) && L.LegOk(leg)
    ensures Inv(Settle(ConfirmRows(db, m, leg)))
  {
    hide LinksOk, BookOk, RunOk, LifeOk, SubmissionsOk, FrozenOk, Roster, L.LegOk, AllResolved, Post;
    StillExecuting(db, m);
    var rows := ConfirmRows(db, m, leg);
    ConfirmKeepsBook(db, m, leg);
    SettleKeepsBook(rows);
    SettleKeepsLinks(db, rows);
    SettleKeepsRun(db, m, leg);
    SettleKeepsRest(db, rows);
  }

  lemma ConfirmMoves(leg: L.Leg, attempt: Id)
    requires L.LegOk(leg) && L.Confirm(leg, attempt).Moved?
    ensures leg.state != L.Confirmed && L.LegOk(L.Confirm(leg, attempt).leg)
    ensures L.Confirm(leg, attempt).leg.state == L.Confirmed && L.Confirm(leg, attempt).leg.amount == leg.amount
  {
    hide L.LegOk;
    L.ActKeeps(0, leg, L.DoConfirm(attempt));
    L.ActEffect(0, leg, L.DoConfirm(attempt));
  }

  lemma ConfirmPayoutKeeps(db: Db, m: Id, attempt: Id)
    requires Inv(db)
    ensures Inv(ConfirmPayout(db, m, attempt).db)
  {
    hide Inv, L.Confirm, L.LegOk, Settle;
    if m in db.payouts && L.Confirm(db.payouts[m], attempt).Moved? {
      AboutPayout(db, m);
      ConfirmMoves(db.payouts[m], attempt);
      ConfirmedKeeps(db, m, L.Confirm(db.payouts[m], attempt).leg);
    }
  }

  // ---------------------------------------------------------------------------------------------
  // What a confirmation means.
  // ---------------------------------------------------------------------------------------------

  /** No guard about the entitlement can fail: a confirmation is refused only by the leg itself. */
  lemma EntitlementAlwaysMatches(db: Db, m: Id, attempt: Id)
    requires Inv(db) && m in db.payouts
    ensures ConfirmPayout(db, m, attempt).reply == match L.Confirm(db.payouts[m], attempt)
                                                   case Moved(_) => Done
                                                   case Unmoved => Nothing
                                                   case Refused => Thrown
  {
    hide Inv, L.Confirm, L.LegOk, Settle;
    AboutPayout(db, m);
    if L.Confirm(db.payouts[m], attempt).Moved? {
      ConfirmMoves(db.payouts[m], attempt);
    }
  }

  /** A confirmation pays exactly the entitlement: it leaves the payout liability and the treasury, and every
      other account stays. The run settles and the Pod completes, in the same step, exactly when every other
      member's payout is already confirmed or needs none; confirming again changes nothing. */
  lemma ConfirmPayoutPaysOnce(db: Db, m: Id, attempt: Id)
    requires Inv(db) && m in db.payouts && L.Confirm(db.payouts[m], attempt).Moved?
    ensures var after := ConfirmPayout(db, m, attempt).db;
            var payout := db.payouts[m].amount;
            && db.run.Some? && after.run.Some?
            && m in db.run.value.entitlements && db.run.value.entitlements[m].amounts.payout == payout
            && Net(db.ledger, PayoutDue(m)) == payout && Net(after.ledger, PayoutDue(m)) == 0
            && TreasuryAsset(after.ledger) == TreasuryAsset(db.ledger) - payout
            && (forall a | a != Treasury && a != PayoutDue(m) :: Net(after.ledger, a) == Net(db.ledger, a))
            && db.run.value.state == Executing && db.pod.state == FinalReview
            && (after.run.value.state == Settled <==> after.pod.state == Completed)
            && (after.run.value.state == Settled <==>
                  forall n | n in db.run.value.entitlements && n != m :: !Unresolved(db.run.value.entitlements[n]))
            && ConfirmPayout(after, m, attempt) == Return(after)
  {
    hide Inv, L.Confirm, L.LegOk, RunOk, Net, Settle, ConfirmRows;
    AboutPayout(db, m);
    ConfirmMoves(db.payouts[m], attempt);
    var leg := L.Confirm(db.payouts[m], attempt).leg;
    AboutBalance(db, PayoutDue(m));
    HasRun(db);
    StillExecuting(db, m);
    HasBook(db);
    ConfirmKeepsBook(db, m, leg);
    PayoutLedger(db.ledger, m, leg);
    SettlesWhenResolved(db, m, leg);
    ConfirmedTwice(Settle(ConfirmRows(db, m, leg)), m, attempt);
  }

  lemma HasRun(db: Db)
    requires Inv(db)
    ensures RunOk(db.pod, Roster(db.memberships), db.refunds, db.payouts, db.run)
  {
    hide LinksOk, BookOk, RunOk, LifeOk, SubmissionsOk, FrozenOk, LegsOk, Roster;
  }

  lemma HasBook(db: Db)
    requires Inv(db)
    ensures BookOk(db)
  {
    hide LinksOk, BookOk, RunOk, LifeOk, SubmissionsOk, FrozenOk, LegsOk, Roster;
  }

  lemma PayoutLedger(ledger: Book, m: Id, leg: L.Leg)
    ensures forall a :: Net(ledger + [PayoutEntry(m, leg)], a) == Net(ledger, a) + Effect(PayoutEntry(m, leg), a)
  {
    forall a ensures Net(ledger + [PayoutEntry(m, leg)], a) == Net(ledger, a) + Effect(PayoutEntry(m, leg), a) {
      NetOfOne(ledger, PayoutEntry(m, leg), a);
    }
  }

  lemma SettlesWhenResolved(db: Db, m: Id, leg: L.Leg)
    requires Confirmable(db, m, leg) && db.run.value.state == Executing && db.pod.state == FinalReview
    ensures var rows, after := ConfirmRows(db, m, leg), Settle(ConfirmRows(db, m, leg));
            && after.ledger == rows.ledger && after.payouts == db.payouts[m := leg] && after.run.Some?
            && (after.run.value.state == Settled <==> after.pod.state == Completed)
            && (after.run.value.state == Settled <==>
                  forall n | n in db.run.value.entitlements && n != m :: !Unresolved(db.run.value.entitlements[n]))
  {
    hide Post;
    var run := ConfirmRows(db, m, leg).run.value;
    if AllResolved(run) {
      forall n | n in db.run.value.entitlements && n != m ensures !Unresolved(db.run.value.entitlements[n]) {
        assert !Unresolved(run.entitlements[n]);
      }
    }
  }

  lemma ConfirmedTwice(db: Db, m: Id, attempt: Id)
    requires m in db.payouts && db.payouts[m].state == L.Confirmed
    ensures ConfirmPayout(db, m, attempt) == Return(db)
  {
    hide Settle;
  }
}
