/** Refund legs: prepared once with fixed bytes, broadcast, reported on, and confirmed. */
module Refunds {
  import opened Basics
  import opened Ledger
  import opened Rows
  import L = PayoutLegs

  function MoveLeg(db: Db, i: Id, leg: RefundLeg): Db {
    db.(refunds := db.refunds[i := leg])
  }

  /** `markRefundTransferPrepared`. */
  function PrepareRefund(db: Db, i: Id, bytes: RefundBytes): Step {
    if i !in db.refunds then Return(db)
    else
      var leg := db.refunds[i];
      if leg.state == L.Prepared then
        if leg.bytes != Some(bytes) then Throw(db) else Return(db)
      else if leg.state != L.Queued then Throw(db)
      else Step(MoveLeg(db, i, leg.(state := L.Prepared, bytes := Some(bytes))), Done)
  }

  /** `markRefundTransferBroadcast`. */
  function BroadcastRefund(db: Db, i: Id): Step {
    if i !in db.refunds || db.refunds[i].state == L.Broadcast then Return(db)
    else if db.refunds[i].state != L.Prepared then Throw(db)
    else Step(MoveLeg(db, i, db.refunds[i].(state := L.Broadcast)), Done)
  }

  /** What the worker may report about a refund. */
  predicate RefundReport(s: L.LegState) {
    s in {L.Unknown, L.RetryableFailed, L.Mismatched}
  }

  /** The unknown, retryable-failed and mismatched marks. */
  function ReportRefund(db: Db, i: Id, to: L.LegState): Step {
    if i !in db.refunds || !L.OpenAttempt(db.refunds[i].state) then Return(db)
    else Step(MoveLeg(db, i, db.refunds[i].(state := to)), Done)
  }

  /** Whether some refund leg of the Pod is still unconfirmed. */
  predicate RefundsOpen(refunds: map<Id, RefundLeg>) {
    exists i :: i in refunds && refunds[i].state != L.Confirmed
  }

  function RefundedMembership(r: Membership): Membership {
    if r.state in {MemberRefundPending, ExcludedAtCutoff} then r.(state := MemberRefunded) else r
  }

  /** The rows once leg `i` is confirmed, before the Pod is looked at. */
  function ConfirmLeg(db: Db, i: Id): Db
    requires i in db.refunds
  {
    var leg := db.refunds[i];
    db.(ledger := Post(db.ledger, RefundConfirmedEntry(i, leg)),
        intents := if i in db.intents && db.intents[i].state == RefundPending
                   then db.intents[i := db.intents[i].(state := Refunded)] else db.intents,
        memberships := if leg.membership in db.memberships
                       then db.memberships[leg.membership := RefundedMembership(db.memberships[leg.membership])]
                       else db.memberships,
        refunds := db.refunds[i := leg.(state := L.Confirmed)])
  }

  /** `confirmRefundTransfer`. */
  function ConfirmRefund(db: Db, i: Id): Step {
    if i !in db.refunds || db.refunds[i].state == L.Confirmed then Return(db)
    else if !L.OpenAttempt(db.refunds[i].state) then Throw(db)
    else
      var confirmed := ConfirmLeg(db, i);
      if !RefundsOpen(confirmed.refunds) && db.pod.state == CancelledRefunding then
        Step(confirmed.(pod := db.pod.(state := Cancelled)), Done)
      else Step(confirmed, Done)
  }
}
