/** The refund transactions on the rows: from which state each takes effect, and exactly what it leaves. */
module RefundRows {
  import opened Basics
  import opened Rows
  import opened Invariants
  import opened Refunds
  import L = PayoutLegs
  import Ledger
  import RefundsKeep

  predicate OnTheWay(s: L.LegState) {
    s == L.Prepared || s == L.Broadcast || s == L.Unknown
  }

  /** The step ran, left this refund leg, and changed nothing else. */
  predicate LeavesLeg(db: Db, step: Step, i: Id, leg: RefundLeg) {
    step == Step(db.(refunds := db.refunds[i := leg]), Done)
  }

  /** A queued refund takes the signed bytes; prepared with them it is passed over; anything else throws. */
  lemma PrepareByRows(db: Db, i: Id, bytes: RefundBytes)
    requires i in db.refunds
    ensures var step, leg := PrepareRefund(db, i, bytes), db.refunds[i];
            if leg.state == L.Queued then LeavesLeg(db, step, i, leg.(state := L.Prepared, bytes := Some(bytes)))
            else if leg.state == L.Prepared && leg.bytes == Some(bytes) then step == Return(db)
            else step == Throw(db)
  {
  }

  lemma BroadcastByRows(db: Db, i: Id)
    requires i in db.refunds
    ensures var step, leg := BroadcastRefund(db, i), db.refunds[i];
            if leg.state == L.Prepared then LeavesLeg(db, step, i, leg.(state := L.Broadcast))
            else if leg.state == L.Broadcast then step == Return(db)
            else step == Throw(db)
  {
  }

  /** A report on a prepared, broadcast or unknown refund leaves exactly the reported state; otherwise nothing happens.
      */
  lemma ReportByRows(db: Db, i: Id, to: L.LegState)
    requires i in db.refunds
    ensures var step, leg := ReportRefund(db, i, to), db.refunds[i];
            if OnTheWay(leg.state) then LeavesLeg(db, step, i, leg.(state := to)) else step == Return(db)
  {
  }

  /** The member once its refund is confirmed: refunded if it was excluded or is refund pending, and otherwise, as on an
      alpha roster, what it was. */
  function MemberAfter(r: Membership): Membership {
    match r.state
    case ExcludedAtCutoff => r.(state := MemberRefunded)
    case MemberRefundPending => r.(state := MemberRefunded)
    case _ => r
  }

  predicate LastOpen(refunds: map<Id, RefundLeg>, i: Id) {
    forall j | j in refunds && j != i :: refunds[j].state == L.Confirmed
  }

  /** A confirmation takes effect exactly on a prepared, broadcast or unknown refund: leg and deposit are then confirmed
      and refunded, the ledger has one more entry of the amount back to the treasury, and the last confirmation cancels
      a refunding Pod. A confirmed refund is passed over, any other throws. */
  lemma ConfirmByRows(db: Db, i: Id)
    requires Inv(db) && i in db.refunds
    ensures i in db.intents && db.intents[i].membership in db.memberships
    ensures var step, leg, m := ConfirmRefund(db, i), db.refunds[i], db.intents[i].membership;
            if OnTheWay(leg.state) then
              var cancels := LastOpen(db.refunds, i) && db.pod.state == CancelledRefunding;
              step == Step(db.(
                refunds := db.refunds[i := leg.(state := L.Confirmed)],
                intents := db.intents[i := db.intents[i].(state := Refunded)],
                memberships := db.memberships[m := MemberAfter(db.memberships[m])],
                ledger := db.ledger + [Ledger.Entry(Ledger.RefundConfirmed(i), Ledger.RefundDue(i), Ledger.Treasury,
                                                    db.intents[i].amount)],
                pod := if cancels then db.pod.(state := PodState.Cancelled) else db.pod), Done)
            else if leg.state == L.Confirmed then step == Return(db)
            else step == Throw(db)
  {
    hide Inv, LinksOk, RefundsOpen, ConfirmLeg, MemberAfter, LastOpen;
    RefundsKeep.AboutLeg(db, i);
    if OnTheWay(db.refunds[i].state) {
      NotPosted(db, i);
      LastIsLast(db.refunds, i);
      LegByRows(db, i);
    }
  }

  lemma LegByRows(db: Db, i: Id)
    requires i in db.refunds && i in db.intents && db.intents[i].state == RefundPending
    requires db.refunds[i].membership == db.intents[i].membership && db.refunds[i].amount == db.intents[i].amount
    requires db.intents[i].membership in db.memberships
    requires Ledger.Post(db.ledger, RefundConfirmedEntry(i, db.refunds[i]))
          == db.ledger + [RefundConfirmedEntry(i, db.refunds[i])]
    ensures var m := db.intents[i].membership;
            ConfirmLeg(db, i) == db.(
              refunds := db.refunds[i := db.refunds[i].(state := L.Confirmed)],
              intents := db.intents[i := db.intents[i].(state := Refunded)],
              memberships := db.memberships[m := MemberAfter(db.memberships[m])],
              ledger := db.ledger + [Ledger.Entry(Ledger.RefundConfirmed(i), Ledger.RefundDue(i), Ledger.Treasury,
                                                  db.intents[i].amount)])
  {
    hide Ledger.Post;
  }

  lemma NotPosted(db: Db, i: Id)
    requires Inv(db) && i in db.refunds && db.refunds[i].state != L.Confirmed
    ensures Ledger.Post(db.ledger, RefundConfirmedEntry(i, db.refunds[i]))
         == db.ledger + [RefundConfirmedEntry(i, db.refunds[i])]
  {
    hide LinksOk, DistinctKeys, EntriesOk, BalancesOk, RunOk, LifeOk, LegsOk, FrozenOk, SubmissionsOk, Roster;
    assert Ledger.RefundConfirmed(i) in Ledger.Keys(db.ledger)
      <==> Due(Ledger.RefundConfirmed(i), db.intents, db.refunds, db.payouts);
  }

  lemma LastIsLast(refunds: map<Id, RefundLeg>, i: Id)
    requires i in refunds
    ensures RefundsOpen(refunds[i := refunds[i].(state := L.Confirmed)]) <==> !LastOpen(refunds, i)
  {
    var after := refunds[i := refunds[i].(state := L.Confirmed)];
    if j :| j in refunds && j != i && refunds[j].state != L.Confirmed { assert after[j].state != L.Confirmed; }
  }

  /** Without a leg every refund transaction is passed over. */
  lemma WithoutLeg(db: Db, i: Id, bytes: RefundBytes, to: L.LegState)
    requires i !in db.refunds
    ensures PrepareRefund(db, i, bytes) == BroadcastRefund(db, i) == ReportRefund(db, i, to) == ConfirmRefund(db, i)
         == Return(db)
  {
  }

  /** Prepared, broadcast and confirmed, a queued refund ends with the bytes it was prepared with, its deposit refunded.
      */
  lemma RefundPath(db: Db, i: Id, bytes: RefundBytes)
    requires Inv(db) && i in db.refunds && db.refunds[i].state == L.Queued
    ensures var prepared := PrepareRefund(db, i, bytes);
            var sent := BroadcastRefund(prepared.db, i);
            var paid := ConfirmRefund(sent.db, i);
            && prepared.reply == sent.reply == paid.reply == Done
            && i in paid.db.refunds && i in paid.db.intents && i in db.intents
            && paid.db.refunds[i] == RefundLeg(db.intents[i].membership, db.intents[i].amount, L.Confirmed, Some(bytes))
            && paid.db.intents[i] == db.intents[i].(state := Refunded)
  {
    hide Inv, PrepareRefund, BroadcastRefund, ConfirmRefund;
    RefundsKeep.AboutLeg(db, i);
    PrepareByRows(db, i, bytes);
    RefundsKeep.PrepareRefundKeeps(db, i, bytes);
    var prepared := PrepareRefund(db, i, bytes).db;
    BroadcastByRows(prepared, i);
    RefundsKeep.BroadcastRefundKeeps(prepared, i);
    ConfirmByRows(BroadcastRefund(prepared, i).db, i);
  }
}
