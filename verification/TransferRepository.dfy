/** The transfer repository as it runs: attempt, leg and event rows updated one after the other, and what a
    confirmation does to ledger, entitlement, run and Pod. */
module TransferRepository {
  import opened Basics
  import opened Ledger
  import opened Rows
  import opened Database
  import opened L = PayoutLegs
  import opened R = Refunds
  import opened P = Payouts
  import I = Invariants
  import T = Transactions

  // ---------------------------------------------------------------------------------------------
  // Row updates.
  // ---------------------------------------------------------------------------------------------

  method UpdateAttempt(database: Database, m: Id, i: nat, state: LegState)
    requires m in database.payouts && i < |database.payouts[m].attempts|
    modifies database`payouts
    ensures database.payouts == old(database.payouts)[m :=
              old(database.payouts[m]).(attempts := old(database.payouts[m].attempts)[i :=
                old(database.payouts[m].attempts[i]).(state := state)])]
  {
    var leg := database.payouts[m];
    database.payouts := database.payouts[m := leg.(attempts := leg.attempts[i := leg.attempts[i].(state := state)])];
  }

  method UpdateLeg(database: Database, m: Id, state: LegState)
    requires m in database.payouts
    modifies database`payouts
    ensures database.payouts == old(database.payouts)[m := old(database.payouts[m]).(state := state)]
  {
    database.payouts := database.payouts[m := database.payouts[m].(state := state)];
  }

  method InsertEvent(database: Database, m: Id, e: Event)
    requires m in database.payouts
    modifies database`payouts
    ensures database.payouts == old(database.payouts)[m :=
              old(database.payouts[m]).(events := old(database.payouts[m].events) + [e])]
  {
    var leg := database.payouts[m];
    database.payouts := database.payouts[m := leg.(events := leg.events + [e])];
  }

  // ---------------------------------------------------------------------------------------------
  // Payouts.
  // ---------------------------------------------------------------------------------------------

  method PersistPayoutTransferAttempt(database: Database, now: Time, m: Id, id: Id, reference: DataReference, hash: Id,
                                      accepted: bool)
    returns (reply: Reply)
    requires database.Valid() && database.clock <= now
    modifies database
    ensures database.Valid()
    ensures Step(database.Rows(), reply)
         == T.PayStep(T.Wait(old(database.Rows()), now), m, DoPrepare(id, reference, hash, accepted))
  {
    hide I.Inv, Find, Latest;
    database.Begin(now);
    T.PayKeeps(database.Rows(), m, DoPrepare(id, reference, hash, accepted));
    if m !in database.payouts {
      return Nothing;
    }
    var leg := database.payouts[m];
    if leg.attempts != [] && leg.state != Queued {
      return Nothing;
    }
    if leg.state != Queued {
      return Thrown;
    }
    var sequence := 1;
    if leg.attempts != [] {
      var existing := leg.attempts[Latest(leg.attempts)];
      if existing.state !in {RetryableFailed, Late} {
        return Thrown;
      }
      sequence := existing.sequence + 1;
    }
    if reference != DataReference(m, sequence) {
      return Thrown;
    }
    if !accepted || Find(leg.attempts, id) < |leg.attempts| {  // the unique indexes on attempts
      return Thrown;
    }
    database.payouts := database.payouts[m := leg.(attempts := leg.attempts + [Attempt(id, sequence, Prepared, hash)])];
    UpdateLeg(database, m, Prepared);
    InsertEvent(database, m, Event(id, AttemptPrepared, Queued, Prepared));
    assert database.payouts == old(database.payouts)[m := WithAttempt(leg, id, sequence, hash)];
    return Done;
  }

  method RequestPayoutRetry(database: Database, now: Time, m: Id, id: Id) returns (reply: Reply)
    requires database.Valid() && database.clock <= now
    modifies database
    ensures database.Valid()
    ensures Step(database.Rows(), reply) == T.PayStep(T.Wait(old(database.Rows()), now), m, DoRetry(id))
  {
    hide I.Inv, Find, Latest;
    database.Begin(now);
    T.PayKeeps(database.Rows(), m, DoRetry(id));
    if m !in database.payouts || database.payouts[m].state !in {RetryableFailed, Late} {
      return Thrown;
    }
    var leg := database.payouts[m];
    var i := Find(leg.attempts, id);
    if i == |leg.attempts| || leg.attempts[i].state != leg.state {
      return Thrown;
    }
    if leg.attempts[Latest(leg.attempts)].id != id {
      return Thrown;
    }
    UpdateLeg(database, m, Queued);
    InsertEvent(database, m, Event(id, RetryRequested, leg.state, Queued));
    assert database.payouts == old(database.payouts)[m := leg.(
      state := Queued, events := leg.events + [Event(id, RetryRequested, leg.state, Queued)])];
    return Done;
  }

  method ClaimPayoutBroadcast(database: Database, now: Time, m: Id, id: Id) returns (reply: Reply)
    requires database.Valid() && database.clock <= now
    modifies database
    ensures database.Valid()
    ensures Step(database.Rows(), reply) == T.PayStep(T.Wait(old(database.Rows()), now), m, DoClaim(id))
  {
    hide I.Inv, Find;
    database.Begin(now);
    T.PayKeeps(database.Rows(), m, DoClaim(id));
    if m !in database.payouts || database.payouts[m].state != Prepared {
      return Nothing;
    }
    var leg := database.payouts[m];
    var i := Find(leg.attempts, id);
    if i == |leg.attempts| || leg.attempts[i].state != Prepared {
      return Nothing;
    }
    UpdateAttempt(database, m, i, Unknown);
    UpdateLeg(database, m, Unknown);
    InsertEvent(database, m, Event(id, BroadcastClaimed, Prepared, Unknown));
    assert database.payouts == old(database.payouts)[m := MoveBoth(leg, i, Unknown, BroadcastClaimed)];
    return Done;
  }

  method MarkPayoutTransferBroadcast(database: Database, now: Time, m: Id, id: Id) returns (reply: Reply)
    requires database.Valid() && database.clock <= now
    modifies database
    ensures database.Valid()
    ensures Step(database.Rows(), reply) == T.PayStep(T.Wait(old(database.Rows()), now), m, DoBroadcast(id))
  {
    hide I.Inv, Find;
    database.Begin(now);
    T.PayKeeps(database.Rows(), m, DoBroadcast(id));
    var before := database.Rows();
    if m !in database.payouts {
      return Nothing;
    }
    var leg := database.payouts[m];
    var i := Find(leg.attempts, id);
    if i == |leg.attempts| || leg.attempts[i].state != Unknown {
      return Nothing;
    }
    UpdateAttempt(database, m, i, Broadcast);
    if leg.state != Unknown {
      database.Rollback(before);
      return Thrown;
    }
    UpdateLeg(database, m, Broadcast);
    InsertEvent(database, m, Event(id, BroadcastSubmitted, Unknown, Broadcast));
    assert database.payouts == old(database.payouts)[m := MoveBoth(leg, i, Broadcast, BroadcastSubmitted)];
    return Done;
  }

  /** The transition behind the unknown, retryable-failed, mismatched and late marks. */
  method TransitionPayoutAttempt(database: Database, now: Time, m: Id, id: Id, to: LegState) returns (reply: Reply)
    requires database.Valid() && database.clock <= now && Reportable(to)
    modifies database
    ensures database.Valid()
    ensures Step(database.Rows(), reply) == T.PayStep(T.Wait(old(database.Rows()), now), m, DoReport(id, to))
  {
    hide I.Inv, Find;
    database.Begin(now);
    T.PayKeeps(database.Rows(), m, DoReport(id, to));
    if m !in database.payouts || database.payouts[m].state !in {Queued, Prepared, Broadcast, Unknown} {
      return Nothing;
    }
    var leg := database.payouts[m];
    var i := Find(leg.attempts, id);
    if i == |leg.attempts| || leg.attempts[i].state !in {Prepared, Broadcast, Unknown} {
      return Nothing;
    }
    UpdateAttempt(database, m, i, to);
    UpdateLeg(database, m, to);
    InsertEvent(database, m, Event(id, WorkerReport, leg.state, to));
    assert database.payouts == old(database.payouts)[m := MoveBoth(leg, i, to, WorkerReport)];
    return Done;
  }

  /** Some entitlement is neither confirmed nor without a transfer. */
  predicate SomeUnresolved(run: Run) {
    exists m :: m in run.entitlements && I.Unresolved(run.entitlements[m])
  }

  method ConfirmPayoutTransfer(database: Database, now: Time, m: Id, id: Id) returns (reply: Reply)
    requires database.Valid() && database.clock <= now
    modifies database
    ensures database.Valid()
    ensures Step(database.Rows(), reply) == T.PayStep(T.Wait(old(database.Rows()), now), m, DoConfirm(id))
  {
    hide I.Inv, Find, I.Unresolved, Keys;
    database.Begin(now);
    T.PayKeeps(database.Rows(), m, DoConfirm(id));
    if m !in database.payouts || database.payouts[m].state == Confirmed {
      return Nothing;
    }
    var leg := database.payouts[m];
    if leg.state !in {Queued, Prepared, Broadcast, Unknown} {
      return Thrown;
    }
    var i := Find(leg.attempts, id);
    if i == |leg.attempts| || leg.attempts[i].state !in {Prepared, Broadcast, Unknown} {
      return Thrown;
    }
    if database.run.None? || m !in database.run.value.entitlements
       || database.run.value.entitlements[m].amounts.payout != leg.amount {
      return Thrown;
    }
    database.InsertEntry(PayoutEntry(m, leg));
    UpdateAttempt(database, m, i, Confirmed);
    var entitlement := database.run.value.entitlements[m];
    database.run := Some(database.run.value.(
      entitlements := database.run.value.entitlements[m := entitlement.(state := TransferConfirmed)]));
    UpdateLeg(database, m, Confirmed);
    InsertEvent(database, m, Event(id, ChainFinalized, leg.state, Confirmed));
    assert database.payouts == old(database.payouts)[m := MoveBoth(leg, i, Confirmed, ChainFinalized)];
    if !SomeUnresolved(database.run.value) {
      if database.run.value.state == Executing {
        database.run := Some(database.run.value.(state := Settled));
        if database.pod.state == FinalReview {
          database.pod := database.pod.(state := Completed);
        }
      }
    }
    return Done;
  }

  // ---------------------------------------------------------------------------------------------
  // Refunds.
  // ---------------------------------------------------------------------------------------------

  method MarkRefundTransferPrepared(database: Database, now: Time, i: Id, bytes: RefundBytes) returns (reply: Reply)
    requires database.Valid() && database.clock <= now
    modifies database
    ensures database.Valid()
    ensures Step(database.Rows(), reply) == PrepareRefund(T.Wait(old(database.Rows()), now), i, bytes)
  {
    hide I.Inv;
    database.Begin(now);
    T.RefundKeeps(database.Rows(), i, T.PrepareRefund(bytes));
    if i !in database.refunds {
      return Nothing;
    }
    var leg := database.refunds[i];
    if leg.state == Prepared {
      if leg.bytes != Some(bytes) {
        return Thrown;
      }
      return Nothing;
    }
    if leg.state != Queued {
      return Thrown;
    }
    database.refunds := database.refunds[i := leg.(state := Prepared, bytes := Some(bytes))];
    return Done;
  }

  method MarkRefundTransferBroadcast(database: Database, now: Time, i: Id) returns (reply: Reply)
    requires database.Valid() && database.clock <= now
    modifies database
    ensures database.Valid()
    ensures Step(database.Rows(), reply) == BroadcastRefund(T.Wait(old(database.Rows()), now), i)
  {
    hide I.Inv;
    database.Begin(now);
    T.RefundKeeps(database.Rows(), i, T.BroadcastRefund);
    if i !in database.refunds || database.refunds[i].state == Broadcast {
      return Nothing;
    }
    if database.refunds[i].state != Prepared {
      return Thrown;
    }
    database.refunds := database.refunds[i := database.refunds[i].(state := Broadcast)];
    return Done;
  }

  /** The unknown, retryable-failed and mismatched marks of a refund. */
  method MarkRefundTransfer(database: Database, now: Time, i: Id, to: LegState) returns (reply: Reply)
    requires database.Valid() && database.clock <= now && RefundReport(to)
    modifies database
    ensures database.Valid()
    ensures Step(database.Rows(), reply) == ReportRefund(T.Wait(old(database.Rows()), now), i, to)
  {
    hide I.Inv;
    database.Begin(now);
    T.RefundKeeps(database.Rows(), i, T.ReportRefund(to));
    if i !in database.refunds || database.refunds[i].state !in {Prepared, Broadcast, Unknown} {
      return Nothing;
    }
    database.refunds := database.refunds[i := database.refunds[i].(state := to)];
    return Done;
  }

  method ConfirmRefundTransfer(database: Database, now: Time, i: Id) returns (reply: Reply)
    requires database.Valid() && database.clock <= now
    modifies database
    ensures database.Valid()
    ensures Step(database.Rows(), reply) == ConfirmRefund(T.Wait(old(database.Rows()), now), i)
  {
    hide I.Inv, Keys, RefundsOpen, Post;
    database.Begin(now);
    T.RefundKeeps(database.Rows(), i, T.ConfirmRefund);
    if i !in database.refunds || database.refunds[i].state == Confirmed {
      return Nothing;
    }
    var leg := database.refunds[i];
    if leg.state !in {Prepared, Broadcast, Unknown} {
      return Thrown;
    }
    database.InsertEntry(RefundConfirmedEntry(i, leg));
    if i in database.intents && database.intents[i].state == RefundPending {
      database.intents := database.intents[i := database.intents[i].(state := Refunded)];
    }
    if leg.membership in database.memberships {
      var membership := database.memberships[leg.membership];
      if membership.state in {MemberRefundPending, ExcludedAtCutoff} {
        membership := membership.(state := MemberRefunded);
      }
      database.memberships := database.memberships[leg.membership := membership];
    }
    database.refunds := database.refunds[i := leg.(state := Confirmed)];
    if !RefundsOpen(database.refunds) && database.pod.state == CancelledRefunding {
      database.pod := database.pod.(state := Cancelled);
    }
    return Done;
  }
}
