/** Where each payout transaction leads: the state it starts from, the state it leaves on leg and attempt alike, and the
    event it logs, without the functions that compute them. */
module PayoutMoves {
  import opened Basics
  import opened PayoutLegs
  import I = Invariants
  import R = Rows
  import Payouts
  import PayoutsKeep

  /** The last attempt, which is the one with this identifier, in the given state. */
  predicate EndsWith(leg: Leg, id: Id, state: LegState) {
    leg.attempts != [] && leg.attempts[|leg.attempts| - 1].id == id && leg.attempts[|leg.attempts| - 1].state == state
  }

  predicate OnTheWay(s: LegState) {
    s == Prepared || s == Broadcast || s == Unknown
  }

  /** When a transaction takes effect on a leg in order. */
  predicate TakesEffect(legId: Id, leg: Leg, action: LegAction) {
    match action
    case DoPrepare(id, reference, hash, accepted) =>
      && leg.state == Queued && accepted && reference == DataReference(legId, |leg.attempts| + 1)
      && (forall i | 0 <= i < |leg.attempts| :: leg.attempts[i].id != id)
    case DoRetry(id) => (leg.state == RetryableFailed || leg.state == Late) && EndsWith(leg, id, leg.state)
    case DoClaim(id) => leg.state == Prepared && EndsWith(leg, id, Prepared)
    case DoBroadcast(id) => leg.state == Unknown && EndsWith(leg, id, Unknown)
    case DoReport(id, _) => OnTheWay(leg.state) && EndsWith(leg, id, leg.state)
    case DoConfirm(id) => OnTheWay(leg.state) && EndsWith(leg, id, leg.state)
  }

  /** What is refused rather than passed over. */
  predicate IsRefused(legId: Id, leg: Leg, action: LegAction) {
    match action
    case DoPrepare(_, _, _, _) => leg.state == Queued && !TakesEffect(legId, leg, action)
    case DoRetry(_) => !TakesEffect(legId, leg, action)
    case DoConfirm(_) => leg.state != Confirmed && !TakesEffect(legId, leg, action)
    case _ => false
  }

  /** The last attempt is now in this state; nothing else about the attempts changed. */
  predicate LastMoved(leg: Leg, after: Leg, to: LegState) {
    leg.attempts != []
    && var last := |leg.attempts| - 1;
       after.attempts == leg.attempts[last := leg.attempts[last].(state := to)]
  }

  predicate Logs(leg: Leg, after: Leg, id: Id, reason: Reason) {
    after.events == leg.events + [Event(id, reason, leg.state, after.state)] && after.amount == leg.amount
  }

  /** What a transaction that takes effect leaves. */
  predicate Leaves(leg: Leg, action: LegAction, after: Leg) {
    match action
    case DoPrepare(id, _, hash, _) =>
      && after.state == Prepared && Logs(leg, after, id, AttemptPrepared)
      && after.attempts == leg.attempts + [Attempt(id, |leg.attempts| + 1, Prepared, hash)]
    case DoRetry(id) => after.state == Queued && after.attempts == leg.attempts && Logs(leg, after, id, RetryRequested)
    case DoClaim(id) =>
      after.state == Unknown && LastMoved(leg, after, Unknown) && Logs(leg, after, id, BroadcastClaimed)
    case DoBroadcast(id) =>
      after.state == Broadcast && LastMoved(leg, after, Broadcast) && Logs(leg, after, id, BroadcastSubmitted)
    case DoReport(id, to) => after.state == to && LastMoved(leg, after, to) && Logs(leg, after, id, WorkerReport)
    case DoConfirm(id) =>
      after.state == Confirmed && LastMoved(leg, after, Confirmed) && Logs(leg, after, id, ChainFinalized)
  }

  /** The row with an identifier, when identifiers differ. */
  lemma FindIs(attempts: seq<Attempt>, id: Id, k: nat)
    requires AttemptsOk(attempts) && k < |attempts| && attempts[k].id == id
    ensures Find(attempts, id) == k
  {
  }

  /** Every action on a leg in order takes effect exactly from these states, is refused exactly otherwise where it says
      so, and leaves exactly this. */
  lemma ActionLeads(legId: Id, leg: Leg, action: LegAction)
    requires LegOk(leg) && (action.DoReport? ==> Reportable(action.to))
    ensures Act(legId, leg, action).Moved? <==> TakesEffect(legId, leg, action)
    ensures Act(legId, leg, action).Refused? <==> IsRefused(legId, leg, action)
    ensures Act(legId, leg, action).Moved? ==> Leaves(leg, action, Act(legId, leg, action).leg)
  {
    hide LegOk, AttemptsOk, ClaimsOk, ConfirmsOk, Replay, Find, Latest, Leaves, IsRefused, TakesEffect;
    match action {
      case DoPrepare(_, _, _, _) => PrepareLeads(legId, leg, action);
      case DoRetry(_) => RetryLeads(legId, leg, action);
      case _ => MoveLeads(legId, leg, action);
    }
  }

  lemma PrepareLeads(legId: Id, leg: Leg, action: LegAction)
    requires LegOk(leg) && action.DoPrepare?
    ensures Act(legId, leg, action).Moved? <==> TakesEffect(legId, leg, action)
    ensures Act(legId, leg, action).Refused? <==> IsRefused(legId, leg, action)
    ensures Act(legId, leg, action).Moved? ==> Leaves(leg, action, Act(legId, leg, action).leg)
  {
    hide AttemptsOk, ClaimsOk, ConfirmsOk, Replay, Find, Latest;
    LastNumber(leg.attempts);
    if i :| 0 <= i < |leg.attempts| && leg.attempts[i].id == action.id { FindIs(leg.attempts, action.id, i); }
  }

  lemma RetryLeads(legId: Id, leg: Leg, action: LegAction)
    requires LegOk(leg) && action.DoRetry?
    ensures Act(legId, leg, action).Moved? <==> TakesEffect(legId, leg, action)
    ensures Act(legId, leg, action).Refused? <==> IsRefused(legId, leg, action)
    ensures Act(legId, leg, action).Moved? ==> Leaves(leg, action, Act(legId, leg, action).leg)
  {
    hide AttemptsOk, ClaimsOk, ConfirmsOk, Replay, Find, Latest;
    LastNumber(leg.attempts);
    if leg.attempts != [] { FindLast(leg, action.id); }
  }

  lemma FindLast(leg: Leg, id: Id)
    requires LegOk(leg) && leg.attempts != []
    ensures leg.attempts[|leg.attempts| - 1].id == id <==> Find(leg.attempts, id) == |leg.attempts| - 1
  {
    hide ClaimsOk, ConfirmsOk, Replay;
    if leg.attempts[|leg.attempts| - 1].id == id { FindIs(leg.attempts, id, |leg.attempts| - 1); }
  }

  /** Only the last attempt is prepared, unknown or broadcast. */
  lemma OpenIsFound(leg: Leg, id: Id)
    requires LegOk(leg) && Find(leg.attempts, id) < |leg.attempts|
    requires OnTheWay(leg.attempts[Find(leg.attempts, id)].state)
    ensures EndsWith(leg, id, leg.state) && Find(leg.attempts, id) == |leg.attempts| - 1
  {
    hide ClaimsOk, ConfirmsOk, Replay;
    OpenIsLast(leg, Find(leg.attempts, id));
  }

  lemma MoveLeads(legId: Id, leg: Leg, action: LegAction)
    requires LegOk(leg) && (action.DoReport? ==> Reportable(action.to)) && !action.DoPrepare? && !action.DoRetry?
    ensures Act(legId, leg, action).Moved? <==> TakesEffect(legId, leg, action)
    ensures Act(legId, leg, action).Refused? <==> IsRefused(legId, leg, action)
    ensures Act(legId, leg, action).Moved? ==> Leaves(leg, action, Act(legId, leg, action).leg)
  {
    hide LegOk, AttemptsOk, ClaimsOk, ConfirmsOk, Replay, Find, Latest;
    var i := Find(leg.attempts, action.id);
    if leg.attempts != [] { FindLast(leg, action.id); }
    if i < |leg.attempts| && OnTheWay(leg.attempts[i].state) { OpenIsFound(leg, action.id); }
  }

  // ---------------------------------------------------------------------------------------------
  // Sequences.
  // ---------------------------------------------------------------------------------------------

  /** On the rows: the leg of this member, and nothing else. */
  lemma ActOnRows(db: R.Db, m: Id, action: LegAction)
    requires I.Inv(db) && m in db.payouts && !action.DoConfirm? && (action.DoReport? ==> Reportable(action.to))
    ensures LegOk(db.payouts[m])
    ensures var step := Payouts.PayoutAct(db, m, action);
            && (step.reply == R.Done <==> TakesEffect(m, db.payouts[m], action))
            && (step.reply == R.Thrown <==> IsRefused(m, db.payouts[m], action))
            && (step.reply != R.Done ==> step.db == db)
            && (step.reply == R.Done ==>
                  && m in step.db.payouts && Leaves(db.payouts[m], action, step.db.payouts[m])
                  && step.db == db.(payouts := db.payouts[m := step.db.payouts[m]]))
  {
    hide I.Inv, LegOk, Act, TakesEffect, IsRefused, Leaves;
    PayoutsKeep.AboutPayout(db, m);
    ActionLeads(m, db.payouts[m], action);
  }

  /** Without a leg a retry request throws, and every other payout transaction is passed over. */
  lemma WithoutLeg(db: R.Db, m: Id, action: LegAction)
    requires m !in db.payouts && (action.DoReport? ==> Reportable(action.to))
    ensures action.DoConfirm? ==> Payouts.ConfirmPayout(db, m, action.id) == R.Return(db)
    ensures action.DoRetry? ==> Payouts.PayoutAct(db, m, action) == R.Throw(db)
    ensures !action.DoConfirm? && !action.DoRetry? ==> Payouts.PayoutAct(db, m, action) == R.Return(db)
  {
  }

  /** After a successful claim leg and attempt are unknown, and the broadcast mark of the same attempt takes effect and
      leaves both broadcast. */
  lemma ClaimThenBroadcast(db: R.Db, m: Id, id: Id)
    requires I.Inv(db) && m in db.payouts && Payouts.PayoutAct(db, m, DoClaim(id)).reply == R.Done
    ensures var claimed := Payouts.PayoutAct(db, m, DoClaim(id)).db;
            var sent := Payouts.PayoutAct(claimed, m, DoBroadcast(id));
            && m in claimed.payouts && claimed.payouts[m].state == Unknown && EndsWith(claimed.payouts[m], id, Unknown)
            && sent.reply == R.Done
            && m in sent.db.payouts && sent.db.payouts[m].state == Broadcast
            && EndsWith(sent.db.payouts[m], id, Broadcast)
  {
    hide I.Inv, LegOk, Payouts.PayoutAct;
    ActOnRows(db, m, DoClaim(id));
    PayoutsKeep.PayoutActKeeps(db, m, DoClaim(id));
    ActOnRows(Payouts.PayoutAct(db, m, DoClaim(id)).db, m, DoBroadcast(id));
  }

  /** A new leg prepared, claimed, broadcast and confirmed ends with one confirmed attempt, four events in that order,
      and the entitlement confirmed. */
  lemma PayoutPath(db: R.Db, m: Id, id: Id, hash: Id)
    requires I.Inv(db) && m in db.payouts && db.payouts[m] == NewLeg(db.payouts[m].amount)
    ensures var prepared := Payouts.PayoutAct(db, m, DoPrepare(id, DataReference(m, 1), hash, true));
            var claimed := Payouts.PayoutAct(prepared.db, m, DoClaim(id));
            var sent := Payouts.PayoutAct(claimed.db, m, DoBroadcast(id));
            var paid := Payouts.ConfirmPayout(sent.db, m, id);
            && prepared.reply == claimed.reply == sent.reply == paid.reply == R.Done
            && m in paid.db.payouts
            && paid.db.payouts[m] == Leg(db.payouts[m].amount, Confirmed, [Attempt(id, 1, Confirmed, hash)], [
                 Event(id, AttemptPrepared, Queued, Prepared),
                 Event(id, BroadcastClaimed, Prepared, Unknown),
                 Event(id, BroadcastSubmitted, Unknown, Broadcast),
                 Event(id, ChainFinalized, Broadcast, Confirmed)])
            && paid.db.run.Some? && m in paid.db.run.value.entitlements
            && paid.db.run.value.entitlements[m].state == R.TransferConfirmed
  {
    hide I.Inv, LegOk, Payouts.PayoutAct, Payouts.ConfirmPayout;
    var prepare := DoPrepare(id, DataReference(m, 1), hash, true);
    var prepared := Payouts.PayoutAct(db, m, prepare).db;
    ActOnRows(db, m, prepare);
    PayoutsKeep.PayoutActKeeps(db, m, prepare);
    var claimed := Payouts.PayoutAct(prepared, m, DoClaim(id)).db;
    ActOnRows(prepared, m, DoClaim(id));
    PayoutsKeep.PayoutActKeeps(prepared, m, DoClaim(id));
    var sent := Payouts.PayoutAct(claimed, m, DoBroadcast(id)).db;
    ActOnRows(claimed, m, DoBroadcast(id));
    PayoutsKeep.PayoutActKeeps(claimed, m, DoBroadcast(id));
    ConfirmOnRows(sent, m, id);
  }

  /** A confirmation that takes effect: the leg confirmed, and with it the entitlement. */
  lemma ConfirmOnRows(db: R.Db, m: Id, id: Id)
    requires I.Inv(db) && m in db.payouts
    ensures LegOk(db.payouts[m])
    ensures var step := Payouts.ConfirmPayout(db, m, id);
            && (step.reply == R.Done <==> TakesEffect(m, db.payouts[m], DoConfirm(id)))
            && (step.reply == R.Thrown <==> IsRefused(m, db.payouts[m], DoConfirm(id)))
            && (step.reply != R.Done ==> step.db == db)
            && (step.reply == R.Done ==>
                  && m in step.db.payouts && Leaves(db.payouts[m], DoConfirm(id), step.db.payouts[m])
                  && step.db.payouts == db.payouts[m := step.db.payouts[m]]
                  && step.db.run.Some? && m in step.db.run.value.entitlements
                  && step.db.run.value.entitlements[m].state == R.TransferConfirmed)
  {
    hide I.Inv, LegOk, Confirm, TakesEffect, IsRefused, Leaves, I.AllResolved;
    PayoutsKeep.AboutPayout(db, m);
    PayoutsKeep.EntitlementAlwaysMatches(db, m, id);
    ActionLeads(m, db.payouts[m], DoConfirm(id));
  }
}
