/** Which payouts can still be made, and which settlement runs can still end. */
module PayoutFailures {
  import opened Basics
  import opened Rows
  import opened Invariants
  import opened Transactions
  import L = PayoutLegs
  import Histories
  import Ledger
  import PayoutsKeep

  predicate NoneMismatched(payouts: map<Id, L.Leg>) {
    forall m | m in payouts :: payouts[m].state != L.Mismatched
  }

  // ---------------------------------------------------------------------------------------------
  // Runs that pay.
  // ---------------------------------------------------------------------------------------------

  /** Only the leg of member `m` differs. */
  predicate MovesOnly(before: map<Id, L.Leg>, after: map<Id, L.Leg>, m: Id) {
    m in before && m in after && after == before[m := after[m]]
  }

  lemma {:induction false} FindUnique(attempts: seq<L.Attempt>, k: nat)
    requires L.AttemptsOk(attempts) && k < |attempts|
    ensures L.Find(attempts, attempts[k].id) == k
  {
  }

  /** An identifier no attempt has. */
  function FreshId(attempts: seq<L.Attempt>): (id: Id)
    ensures forall k | 0 <= k < |attempts| :: attempts[k].id < id
  {
    if attempts == [] then 1
    else
      var id := FreshId(attempts[..|attempts| - 1]);
      var last := attempts[|attempts| - 1].id;
      assert attempts == attempts[..|attempts| - 1] + [attempts[|attempts| - 1]];
      if last < id then id else last + 1
  }

  /** The transaction that brings an open, failed or late leg nearer to its confirmation. */
  function NextStep(m: Id, leg: L.Leg): (step: L.LegAction)
    requires L.LegOk(leg) && leg.state !in {L.Confirmed, L.Mismatched}
    ensures !step.DoReport?
  {
    if leg.state == L.Queued then
      L.DoPrepare(FreshId(leg.attempts), L.DataReference(m, |leg.attempts| + 1), 0, true)
    else if L.Replaceable(leg.state) then L.DoRetry(leg.attempts[|leg.attempts| - 1].id)
    else L.DoConfirm(leg.attempts[|leg.attempts| - 1].id)
  }

  lemma FreshIsNew(attempts: seq<L.Attempt>)
    ensures L.Find(attempts, FreshId(attempts)) == |attempts|
  {
    hide FreshId;
  }

  /** A late or failed leg goes back to the queue, a queued one is prepared, any other confirmed. */
  lemma NextMoves(m: Id, leg: L.Leg)
    requires L.LegOk(leg) && leg.state !in {L.Confirmed, L.Mismatched}
    ensures var step := L.Act(m, leg, NextStep(m, leg));
            && step.Moved?
            && step.leg.state == (if leg.state == L.Queued then L.Prepared
                                  else if L.Replaceable(leg.state) then L.Queued else L.Confirmed)
  {
    hide L.ClaimsOk, L.ConfirmsOk, L.Replay, L.Find, L.Latest, FreshId, L.AttemptsOk;
    FreshIsNew(leg.attempts);
    if leg.attempts != [] {
      L.LastNumber(leg.attempts);
      FindUnique(leg.attempts, |leg.attempts| - 1);
    }
  }

  /** How many transactions a leg is away from its confirmation. */
  function Distance(s: L.LegState): nat {
    if L.Replaceable(s) then 2 else if s == L.Queued then 1 else 0
  }

  lemma MoveStep(db: Db, m: Id)
    requires Inv(db) && m in db.payouts && db.payouts[m].state !in {L.Confirmed, L.Mismatched}
    ensures L.LegOk(db.payouts[m])
    ensures var step := NextStep(m, db.payouts[m]);
            var after := Apply(db, Pay(m, step)).db;
            && L.Act(m, db.payouts[m], step).Moved?
            && after.payouts == db.payouts[m := L.Act(m, db.payouts[m], step).leg]
  {
    hide Inv, L.LegOk, L.Confirm, L.Prepare, L.RequestRetry, AllResolved, Ledger.Post;
    PayoutsKeep.AboutPayout(db, m);
    NextMoves(m, db.payouts[m]);
    var step := NextStep(m, db.payouts[m]);
    if step.DoConfirm? {
      PayoutsKeep.EntitlementAlwaysMatches(db, m, step.id);
    }
  }

  /** A leg that is neither confirmed nor mismatched can be confirmed: retried if need be, prepared, confirmed. */
  lemma PayRun(db: Db, m: Id) returns (paid: Db)
    requires Inv(db) && m in db.payouts && db.payouts[m].state !in {L.Confirmed, L.Mismatched}
    ensures Reaches(db, paid) && MovesOnly(db.payouts, paid.payouts, m) && paid.payouts[m].state == L.Confirmed
    decreases Distance(db.payouts[m].state)
  {
    hide Inv, Apply, Reaches, L.LegOk, L.Act, NextStep;
    MoveStep(db, m);
    NextMoves(m, db.payouts[m]);
    var step := NextStep(m, db.payouts[m]);
    paid := Apply(db, Pay(m, step)).db;
    ReachesNext(db, Pay(m, step));
    if paid.payouts[m].state != L.Confirmed {
      var moved := paid;
      ReachesKeeps(db, moved);
      paid := PayRun(moved, m);
      ReachesTransitively(db, moved, paid);
    }
  }

  function Unpaid(payouts: map<Id, L.Leg>): set<Id> {
    set m | m in payouts && payouts[m].state != L.Confirmed
  }

  lemma FewerUnpaid(before: map<Id, L.Leg>, after: map<Id, L.Leg>, m: Id)
    requires MovesOnly(before, after, m) && before[m].state != L.Confirmed && after[m].state == L.Confirmed
    requires NoneMismatched(before)
    ensures |Unpaid(after)| < |Unpaid(before)| && NoneMismatched(after)
  {
    assert Unpaid(after) == Unpaid(before) - {m};
  }

  /** A run all of whose payouts are confirmed is settled, and its Pod completed. */
  lemma AllPaid(db: Db)
    requires Inv(db) && db.run.Some? && Unpaid(db.payouts) == {}
    ensures db.run.value.state == Settled && db.pod.state == Completed
  {
    hide Inv, Roster;
    PayoutsKeep.HasRun(db);
    forall m | m in db.run.value.entitlements ensures !Unresolved(db.run.value.entitlements[m]) {
      assert EntitlementFits(db.run.value.entitlements[m], PayoutLegOf(db.payouts, m));
      assert m !in Unpaid(db.payouts);
    }
  }

  /** A run without a mismatched payout settles by making its payouts one after the other. */
  lemma SettleRun(db: Db) returns (settled: Db)
    requires Inv(db) && db.run.Some? && NoneMismatched(db.payouts)
    ensures Reaches(db, settled)
    ensures settled.run.Some? && settled.run.value.state == Settled && settled.pod.state == Completed
    decreases |Unpaid(db.payouts)|
  {
    hide Inv, Reaches, MovesOnly, Unpaid;
    settled := db;
    if Unpaid(db.payouts) == {} {
      AllPaid(db);
      ReachesItself(db);
    } else {
      var m := UnpaidLeg(db.payouts);
      var paid := PayRun(db, m);
      AboutMove(db.payouts, paid.payouts, m);
      FewerUnpaid(db.payouts, paid.payouts, m);
      ReachesKeeps(db, paid);
      PayoutsKeep.AboutPayout(paid, m);
      settled := SettleRun(paid);
      ReachesTransitively(db, paid, settled);
    }
  }

  lemma AboutMove(before: map<Id, L.Leg>, after: map<Id, L.Leg>, m: Id)
    requires MovesOnly(before, after, m)
    ensures m in after
  {
  }

  lemma UnpaidLeg(payouts: map<Id, L.Leg>) returns (m: Id)
    requires Unpaid(payouts) != {} && NoneMismatched(payouts)
    ensures m in payouts && payouts[m].state !in {L.Confirmed, L.Mismatched}
  {
    m :| m in Unpaid(payouts);
  }

  // ---------------------------------------------------------------------------------------------
  // Exactly when.
  // ---------------------------------------------------------------------------------------------

  /** A mismatched payout is never retried, confirmed or marked again; its run stays executing and its Pod in final
      review. */
  lemma MismatchedPayoutIsStuck(states: seq<Db>, events: seq<Event>, j: nat, k: nat, m: Id)
    requires History(states, events) && Inv(states[0]) && j <= k < |states|
    requires m in states[j].payouts && states[j].payouts[m].state == L.Mismatched
    ensures m in states[k].payouts && states[k].payouts[m] == states[j].payouts[m]
    ensures states[k].run.Some? && states[k].run.value.state == Executing && states[k].pod.state == FinalReview
  {
    hide Inv, History, Histories.PodLater, Histories.RefundsLater, Histories.RunLater, Histories.SubmissionsLater,
         Histories.DepositsLater, Histories.RosterLater;
    Histories.HistoryIsForward(states, events, j, k);
    HistoryKeeps(states, events, k);
    PayoutsKeep.AboutPayout(states[k], m);
    PayoutsKeep.HasRun(states[k]);
    PayoutsKeep.StillExecuting(states[k], m);
  }

  lemma MismatchedStays(db: Db, later: Db, m: Id)
    requires Inv(db) && Reaches(db, later) && m in db.payouts && db.payouts[m].state == L.Mismatched
    ensures m in later.payouts && later.payouts[m].state == L.Mismatched
    ensures later.run.Some? && later.run.value.state == Executing
  {
    hide Inv, History;
    var states, events :| RunBetween(db, states, events, later);
    HistoryLength(states, events);
    MismatchedPayoutIsStuck(states, events, 0, |states| - 1, m);
  }

  /** In some run from here the payout is confirmed. */
  ghost predicate PaidLater(db: Db, m: Id) {
    exists later :: Reaches(db, later) && m in later.payouts && later.payouts[m].state == L.Confirmed
  }

  /** A payout can still be made, or is, exactly when it is not mismatched. */
  lemma PayoutPaidIff(db: Db, m: Id)
    requires Inv(db) && m in db.payouts
    ensures PaidLater(db, m) <==> db.payouts[m].state != L.Mismatched
  {
    hide Inv, Reaches, MovesOnly;
    if db.payouts[m].state == L.Confirmed {
      ReachesItself(db);
    } else if db.payouts[m].state != L.Mismatched {
      var paid := PayRun(db, m);
      AboutMove(db.payouts, paid.payouts, m);
    } else if PaidLater(db, m) {
      var later :| Reaches(db, later) && m in later.payouts && later.payouts[m].state == L.Confirmed;
      MismatchedStays(db, later, m);
      assert false;
    }
  }

  /** In some run from here the settlement run is settled. */
  ghost predicate SettlesLater(db: Db) {
    exists later :: Reaches(db, later) && later.run.Some? && later.run.value.state == Settled
  }

  /** A settlement run can still settle, or has, exactly when none of its payouts is mismatched. */
  lemma RunSettlesIff(db: Db)
    requires Inv(db) && db.run.Some?
    ensures SettlesLater(db) <==> NoneMismatched(db.payouts)
  {
    hide Inv, Reaches;
    if NoneMismatched(db.payouts) {
      var settled := SettleRun(db);
    } else if SettlesLater(db) {
      var later :| Reaches(db, later) && later.run.Some? && later.run.value.state == Settled;
      var m :| m in db.payouts && db.payouts[m].state == L.Mismatched;
      MismatchedStays(db, later, m);
      assert false;
    }
  }
}
