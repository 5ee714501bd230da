/** Payout legs among the Pod's rows: confirming one resolves its entitlement and may settle the run. */
module Payouts {
  import opened Basics
  import opened Ledger
  import opened Rows
  import opened Invariants
  import L = PayoutLegs

  /** Every payout transaction but the confirmation; a leg is known by its member. Without a leg only the retry
      request throws. */
  function PayoutAct(db: Db, m: Id, action: L.LegAction): Step
    requires !action.DoConfirm? && (action.DoReport? ==> L.Reportable(action.to))
  {
    if m !in db.payouts then if action.DoRetry? then Throw(db) else Return(db)
    else
      match L.Act(m, db.payouts[m], action)
      case Moved(leg) => Step(db.(payouts := db.payouts[m := leg]), Done)
      case Unmoved => Return(db)
      case Refused => Throw(db)
  }

  /** The rows once the payout of member `m` is confirmed, before the run is looked at. */
  function ConfirmRows(db: Db, m: Id, leg: L.Leg): (after: Db)
    requires db.run.Some? && m in db.run.value.entitlements
    ensures after.run.Some?
  {
    var run := db.run.value;
    db.(ledger := Post(db.ledger, PayoutEntry(m, leg)),
        payouts := db.payouts[m := leg],
        run := Some(run.(entitlements :=
          run.entitlements[m := run.entitlements[m].(state := TransferConfirmed)])))
  }

  /** The settled run, and with it the completed Pod. */
  function Settle(db: Db): Db
    requires db.run.Some?
  {
    if !AllResolved(db.run.value) || db.run.value.state != Executing then db
    else
      db.(run := Some(db.run.value.(state := Settled)),
          pod := if db.pod.state == FinalReview then db.pod.(state := Completed) else db.pod)
  }

  /** `confirmPayoutTransfer`. */
  function ConfirmPayout(db: Db, m: Id, attempt: Id): Step {
    if m !in db.payouts then Return(db)
    else
      match L.Confirm(db.payouts[m], attempt)
      case Unmoved => Return(db)
      case Refused => Throw(db)
      case Moved(leg) =>
        if db.run.None? || m !in db.run.value.entitlements
           || db.run.value.entitlements[m].amounts.payout != leg.amount then Throw(db)
        else Step(Settle(ConfirmRows(db, m, leg)), Done)
  }
}
