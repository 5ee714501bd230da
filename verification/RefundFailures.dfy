/** Which refunds can still be paid, and which refunding Pods can still be cancelled. */
module RefundFailures {
  import opened Basics
  import opened Rows
  import opened Invariants
  import opened Transactions
  import L = PayoutLegs
  import Cancellation
  import Guarantees
  import Refunds
  import RefundsKeep

  /** The states no transaction moves a refund out of, but for its confirmation. */
  predicate RefundFailed(s: L.LegState) {
    s in {L.RetryableFailed, L.Mismatched}
  }

  predicate NoneFailed(refunds: map<Id, RefundLeg>) {
    forall i | i in refunds :: !RefundFailed(refunds[i].state)
  }

  // ---------------------------------------------------------------------------------------------
  // Runs that pay.
  // ---------------------------------------------------------------------------------------------

  /** Only the leg of deposit `i` differs, and it is confirmed. */
  predicate PaysOnly(before: map<Id, RefundLeg>, after: map<Id, RefundLeg>, i: Id) {
    && i in before && after.Keys == before.Keys && after[i].state == L.Confirmed
    && (forall j | j in before && j != i :: after[j] == before[j])
  }

  /** The Pod once this leg is confirmed. */
  function PodAfter(pod: Pod, refunds: map<Id, RefundLeg>): Pod {
    if !Refunds.RefundsOpen(refunds) && pod.state == CancelledRefunding then pod.(state := PodState.Cancelled) else pod
  }

  lemma PrepareStep(db: Db, i: Id)
    requires Inv(db) && i in db.refunds && db.refunds[i].state == L.Queued
    ensures var leg := db.refunds[i].(state := L.Prepared, bytes := Some(RefundBytes(0, 0, 0)));
            Apply(db, Refund(i, PrepareRefund(RefundBytes(0, 0, 0)))).db == db.(refunds := db.refunds[i := leg])
  {
    hide Inv;
  }

  lemma ConfirmStep(db: Db, i: Id)
    requires Inv(db) && i in db.refunds && L.OpenAttempt(db.refunds[i].state)
    ensures var after := Apply(db, Refund(i, ConfirmRefund)).db;
            PaysOnly(db.refunds, after.refunds, i) && after.pod == PodAfter(db.pod, after.refunds)
  {
    hide Inv, Refunds.RefundsOpen;
  }

  /** An open leg that has not failed is paid by preparing it, unless that was done, and confirming it. */
  lemma PayRun(db: Db, i: Id) returns (paid: Db)
    requires Inv(db) && i in db.refunds && db.refunds[i].state != L.Confirmed && !RefundFailed(db.refunds[i].state)
    ensures Reaches(db, paid) && PaysOnly(db.refunds, paid.refunds, i) && paid.pod == PodAfter(db.pod, paid.refunds)
  {
    hide Inv, Apply, Reaches, PaysOnly, Refunds.RefundsOpen;
    RefundsKeep.AboutLeg(db, i);
    if db.refunds[i].state == L.Queued {
      var prepare := Refund(i, PrepareRefund(RefundBytes(0, 0, 0)));
      var prepared := Apply(db, prepare).db;
      PrepareStep(db, i);
      ApplyKeeps(db, prepare);
      ReachesNext(db, prepare);
      paid := ConfirmRun(prepared, i);
      ReachesTransitively(db, prepared, paid);
      SameOthers(db.refunds, prepared.refunds, paid.refunds, i);
    } else {
      paid := ConfirmRun(db, i);
    }
  }

  lemma ConfirmRun(db: Db, i: Id) returns (paid: Db)
    requires Inv(db) && i in db.refunds && L.OpenAttempt(db.refunds[i].state)
    ensures Reaches(db, paid) && PaysOnly(db.refunds, paid.refunds, i) && paid.pod == PodAfter(db.pod, paid.refunds)
  {
    hide Inv, Apply, Reaches, PaysOnly, PodAfter;
    ConfirmStep(db, i);
    ReachesNext(db, Refund(i, ConfirmRefund));
    paid := Apply(db, Refund(i, ConfirmRefund)).db;
  }

  lemma SameOthers(a: map<Id, RefundLeg>, b: map<Id, RefundLeg>, c: map<Id, RefundLeg>, i: Id)
    requires i in a && i in b && b == a[i := b[i]] && PaysOnly(b, c, i)
    ensures PaysOnly(a, c, i)
  {
  }

  function OpenLegs(refunds: map<Id, RefundLeg>): set<Id> {
    set i | i in refunds && refunds[i].state != L.Confirmed
  }

  lemma FewerOpen(before: map<Id, RefundLeg>, after: map<Id, RefundLeg>, i: Id)
    requires PaysOnly(before, after, i) && before[i].state != L.Confirmed && NoneFailed(before)
    ensures |OpenLegs(after)| < |OpenLegs(before)| && NoneFailed(after)
  {
    assert OpenLegs(after) == OpenLegs(before) - {i};
  }

  /** A refunding Pod with open legs, none failed, is cancelled by paying them one after the other. */
  lemma CancelRun(db: Db) returns (cancelled: Db)
    requires Inv(db) && db.pod.state == CancelledRefunding && Refunds.RefundsOpen(db.refunds) && NoneFailed(db.refunds)
    ensures Reaches(db, cancelled) && cancelled.pod.state == PodState.Cancelled
    decreases |OpenLegs(db.refunds)|
  {
    hide Inv, Reaches, NoneFailed, PaysOnly, OpenLegs, Refunds.RefundsOpen;
    var i := OpenLeg(db.refunds);
    var paid := PayRun(db, i);
    FewerOpen(db.refunds, paid.refunds, i);
    ReachesKeeps(db, paid);
    cancelled := paid;
    if Refunds.RefundsOpen(paid.refunds) {
      cancelled := CancelRun(paid);
      ReachesTransitively(db, paid, cancelled);
    }
  }

  lemma OpenLeg(refunds: map<Id, RefundLeg>) returns (i: Id)
    requires Refunds.RefundsOpen(refunds) && NoneFailed(refunds)
    ensures i in refunds && refunds[i].state != L.Confirmed && !RefundFailed(refunds[i].state)
  {
    i :| i in refunds && refunds[i].state != L.Confirmed;
  }

  // ---------------------------------------------------------------------------------------------
  // Exactly when.
  // ---------------------------------------------------------------------------------------------

  /** In some run from here the refund is confirmed. */
  ghost predicate PaidLater(db: Db, i: Id) {
    exists later :: Reaches(db, later) && i in later.refunds && later.refunds[i].state == L.Confirmed
  }

  /** A refund can still be paid, or is, exactly when it was not reported as failed or mismatched. */
  lemma RefundPaidIff(db: Db, i: Id)
    requires Inv(db) && i in db.refunds
    ensures PaidLater(db, i) <==> !RefundFailed(db.refunds[i].state)
  {
    hide Inv, Reaches;
    if db.refunds[i].state == L.Confirmed {
      ReachesItself(db);
    } else if !RefundFailed(db.refunds[i].state) {
      var paid := PayRun(db, i);
    } else if PaidLater(db, i) {
      var later :| Reaches(db, later) && i in later.refunds && later.refunds[i].state == L.Confirmed;
      FailedStays(db, later, i);
      assert false;
    }
  }

  lemma FailedStays(db: Db, later: Db, i: Id)
    requires Inv(db) && Reaches(db, later) && i in db.refunds && RefundFailed(db.refunds[i].state)
    ensures i in later.refunds && later.refunds[i] == db.refunds[i]
  {
    hide Inv, History;
    var states, events :| RunBetween(db, states, events, later);
    HistoryLength(states, events);
    Guarantees.FailedRefundIsStuck(states, events, 0, |states| - 1, i);
  }

  /** In some run from here the Pod is cancelled. */
  ghost predicate CancelledLater(db: Db) {
    exists later :: Reaches(db, later) && later.pod.state == PodState.Cancelled
  }

  /** A failed refund keeps its Pod from ever being cancelled. */
  lemma FailedRefundBlocksCancellation(states: seq<Db>, events: seq<Event>, j: nat, k: nat, i: Id)
    requires History(states, events) && Inv(states[0]) && Cancellation.TidyDb(states[0]) && j <= k < |states|
    requires i in states[j].refunds && RefundFailed(states[j].refunds[i].state)
    ensures states[k].pod.state != PodState.Cancelled
  {
    hide Inv, History;
    Guarantees.FailedRefundIsStuck(states, events, j, k, i);
    Cancellation.HistoryIsTidy(states, events, k);
    assert states[k].refunds[i].state != L.Confirmed;
  }

  /** A refunding Pod can still be cancelled exactly when it has a refund leg and none was reported as failed or
      mismatched. */
  lemma PodCancelledIff(db: Db)
    requires Inv(db) && Cancellation.TidyDb(db) && db.pod.state == CancelledRefunding
    ensures CancelledLater(db) <==> db.refunds != map[] && NoneFailed(db.refunds)
  {
    hide Inv, Reaches, Refunds.RefundsOpen;
    if db.refunds != map[] && NoneFailed(db.refunds) {
      var cancelled := CancelRun(db);
    } else if CancelledLater(db) {
      var later :| Reaches(db, later) && later.pod.state == PodState.Cancelled;
      NeverCancelled(db, later);
      assert false;
    }
  }

  lemma NeverCancelled(db: Db, later: Db)
    requires Inv(db) && Cancellation.TidyDb(db) && db.pod.state == CancelledRefunding
    requires Reaches(db, later) && (db.refunds == map[] || !NoneFailed(db.refunds))
    ensures later.pod.state != PodState.Cancelled
  {
    hide Inv, History, Refunds.RefundsOpen;
    var states, events :| RunBetween(db, states, events, later);
    HistoryLength(states, events);
    if db.refunds == map[] {
      Guarantees.StrandedPodStays(states, events, 0, |states| - 1);
    } else {
      var i :| i in db.refunds && RefundFailed(db.refunds[i].state);
      FailedRefundBlocksCancellation(states, events, 0, |states| - 1, i);
    }
  }
}
