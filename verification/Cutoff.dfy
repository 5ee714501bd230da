/** The cutoff: closing enrollment, ranking the credited deposits and locking or refunding them. */
module Cutoff {
  import opened Basics
  import opened Ledger
  import opened Rows
  import L = PayoutLegs

  // ---------------------------------------------------------------------------------------------
  // Chain order.
  // ---------------------------------------------------------------------------------------------

  /** The position a missing column would have; no deposit without its columns is ever ranked. */
  function Position(column: Option<int>): int {
    if column.Some? then column.value else 0
  }

  /** `compareFinalizedDeposits` is negative: earlier block, then earlier index, then smaller hash. */
  predicate Precedes(a: Intent, b: Intent) {
    if Position(a.block) != Position(b.block) then Position(a.block) < Position(b.block)
    else if Position(a.index) != Position(b.index) then Position(a.index) < Position(b.index)
    else Position(a.hash) < Position(b.hash)
  }

  function Elements(list: seq<Id>): set<Id> {
    set i | i in list
  }

  /** `r` lists the deposits `s`, each once, none before one that precedes it. */
  ghost predicate InChainOrder(intents: map<Id, Intent>, s: set<Id>, r: seq<Id>)
    requires s <= intents.Keys
  {
    && (forall i :: i in r <==> i in s)
    && (forall j, k | 0 <= j < k < |r| :: r[j] != r[k] && !Precedes(intents[r[k]], intents[r[j]]))
  }

  lemma {:induction false} FirstExists(intents: map<Id, Intent>, s: set<Id>) returns (first: Id)
    requires s != {} && s <= intents.Keys
    ensures first in s && forall i | i in s :: !Precedes(intents[i], intents[first])
    decreases |s|
  {
    var x :| x in s;
    if s == {x} {
      first := x;
    } else {
      var rest := FirstExists(intents, s - {x});
      first := if Precedes(intents[x], intents[rest]) then x else rest;
      assert forall i | i in s :: i == x || i in s - {x};
    }
  }

  lemma PrependFirst(intents: map<Id, Intent>, s: set<Id>, first: Id, rest: seq<Id>)
    requires s <= intents.Keys && first in s && InChainOrder(intents, s - {first}, rest)
    requires forall i | i in s :: !Precedes(intents[i], intents[first])
    ensures InChainOrder(intents, s, [first] + rest)
  {
    var r := [first] + rest;
    assert forall i | i in rest :: i in s - {first};
    assert forall i | i in r :: i in s;
    forall j, k | 0 <= j < k < |r| ensures r[j] != r[k] && !Precedes(intents[r[k]], intents[r[j]]) {
      assert r[k] == rest[k - 1] && rest[k - 1] in s - {first};
      if j > 0 { assert r[j] == rest[j - 1]; }
    }
  }

  /** The deposits sorted by chain position. */
  ghost function ChainOrder(intents: map<Id, Intent>, s: set<Id>): (r: seq<Id>)
    requires s <= intents.Keys
    ensures InChainOrder(intents, s, r) && |r| == |s|
    decreases |s|
  {
    hide InChainOrder;
    if s == {} then
      assert InChainOrder(intents, s, []) by { EmptyOrder(intents); }
      []
    else
      assert exists first :: first in s && forall i | i in s :: !Precedes(intents[i], intents[first]) by {
        var first := FirstExists(intents, s);
      }
      var first :| first in s && forall i | i in s :: !Precedes(intents[i], intents[first]);
      var rest := ChainOrder(intents, s - {first});
      PrependFirst(intents, s, first, rest);
      [first] + rest
  }

  lemma EmptyOrder(intents: map<Id, Intent>)
    ensures InChainOrder(intents, {}, [])
  {
  }

  predicate HashesDiffer(intents: map<Id, Intent>, s: set<Id>)
    requires s <= intents.Keys
  {
    forall i, j | i in s && j in s && i != j :: Position(intents[i].hash) != Position(intents[j].hash)
  }

  lemma StillDiffer(intents: map<Id, Intent>, s: set<Id>, i: Id)
    requires s <= intents.Keys && HashesDiffer(intents, s)
    ensures HashesDiffer(intents, s - {i})
  {
  }

  /** Deposits with different hashes have only one chain order. */
  lemma {:induction false} ChainOrderIsUnique(intents: map<Id, Intent>, s: set<Id>, a: seq<Id>, b: seq<Id>)
    requires s <= intents.Keys && HashesDiffer(intents, s)
    requires InChainOrder(intents, s, a) && InChainOrder(intents, s, b)
    ensures a == b
    decreases |s|
  {
    hide InChainOrder, HashesDiffer;
    if s == {} {
      FirstIsListed(intents, s, a);
      FirstIsListed(intents, s, b);
    } else {
      SameFirst(intents, s, a, b);
      DropFirst(intents, s, a);
      DropFirst(intents, s, b);
      StillDiffer(intents, s, a[0]);
      ChainOrderIsUnique(intents, s - {a[0]}, a[1..], b[1..]);
      assert a == [a[0]] + a[1..] && b == [b[0]] + b[1..];
    }
  }

  lemma FirstIsListed(intents: map<Id, Intent>, s: set<Id>, a: seq<Id>)
    requires s <= intents.Keys && InChainOrder(intents, s, a)
    ensures a != [] ==> a[0] in s
  {
    assert a != [] ==> a[0] in a;
  }

  lemma SameFirst(intents: map<Id, Intent>, s: set<Id>, a: seq<Id>, b: seq<Id>)
    requires s != {} && s <= intents.Keys
    requires HashesDiffer(intents, s)
    requires InChainOrder(intents, s, a) && InChainOrder(intents, s, b)
    ensures a != [] && b != [] && a[0] == b[0] && a[0] in s
  {
    var x :| x in s;
    assert x in a && x in b;
    assert a[0] in a && b[0] in b;
    assert a[0] in s && b[0] in s;
    var k :| 0 <= k < |b| && b[k] == a[0];
    var j :| 0 <= j < |a| && a[j] == b[0];
  }

  lemma DropFirst(intents: map<Id, Intent>, s: set<Id>, a: seq<Id>)
    requires a != [] && s <= intents.Keys && InChainOrder(intents, s, a)
    ensures InChainOrder(intents, s - {a[0]}, a[1..])
  {
    assert forall i | i in s && i != a[0] :: i in a[1..] by {
      forall i | i in s && i != a[0] ensures i in a[1..] {
        var k :| 0 <= k < |a| && a[k] == i;
        assert a[1..][k - 1] == i;
      }
    }
  }

  // ---------------------------------------------------------------------------------------------
  // The transactions.
  // ---------------------------------------------------------------------------------------------

  /** `closeEntryArtifacts` on one membership row. */
  function CloseRow(r: Membership): Membership {
    if r.state in {Applied, AcceptedUnfunded, FundingFailed} then r.(state := ApplicationExpired)
    else if r.state == DepositPending then r.(state := ExcludedAtCutoff)
    else r
  }

  function CloseEntry(memberships: map<Id, Membership>): map<Id, Membership> {
    map m | m in memberships :: CloseRow(memberships[m])
  }

  /** The credited deposits of the Pod. */
  function Credited(db: Db): set<Id> {
    set i | i in db.intents && db.intents[i].state == CreditedProvisional && db.intents[i].membership in db.memberships
  }

  function NewRefundLeg(d: Intent): RefundLeg {
    RefundLeg(d.membership, d.amount, L.Queued, None)
  }

  /** `queueDepositRefund`; a `state` of none leaves the membership alone. */
  function QueueRefund(db: Db, i: Id, state: Option<MembershipState>): (after: Db)
    requires i in db.intents && db.intents[i].membership in db.memberships
    ensures SameRows(db, after)
  {
    var d := db.intents[i];
    var r := db.memberships[d.membership];
    db.(refunds := if i in db.refunds then db.refunds else db.refunds[i := NewRefundLeg(d)],
        ledger := Post(db.ledger, RefundEntry(i, d)),
        intents := db.intents[i := d.(state := RefundPending)],
        memberships := if state.Some? then db.memberships[d.membership := r.(state := state.value)]
                       else db.memberships)
  }

  /** One turn of the loop over the included deposits. */
  function Include(db: Db, i: Id): (after: Db)
    requires i in db.intents && db.intents[i].membership in db.memberships
    ensures SameRows(db, after)
  {
    var d := db.intents[i];
    var r := db.memberships[d.membership];
    var applied := db.(intents := db.intents[i := d.(state := AppliedToRoster)],
                       memberships := db.memberships[d.membership := r.(state := RosterLocked)]);
    if db.pod.contract.mode == FullRefundAlpha then QueueRefund(applied, i, None) else applied
  }

  /** The rows still hold every listed deposit and its membership. */
  predicate Listed(db: Db, list: seq<Id>) {
    forall i | i in list :: i in db.intents && db.intents[i].membership in db.memberships
  }

  /** The loop over the included deposits. */
  function IncludeAll(db: Db, list: seq<Id>): (after: Db)
    requires Listed(db, list)
    ensures SameRows(db, after)
    decreases |list|
  {
    hide Include;
    if list == [] then db
    else
      assert list[0] in list;
      assert forall i | i in list[1..] :: i in list;
      IncludeAll(Include(db, list[0]), list[1..])
  }

  /** The loop over the excluded deposits. */
  function RefundAll(db: Db, list: seq<Id>, state: MembershipState): (after: Db)
    requires Listed(db, list)
    ensures SameRows(db, after)
    decreases |list|
  {
    hide QueueRefund;
    if list == [] then db
    else
      assert list[0] in list;
      assert forall i | i in list[1..] :: i in list;
      RefundAll(QueueRefund(db, list[0], Some(state)), list[1..], state)
  }

  /** The loops add and remove no deposit or membership, never move a deposit to another membership, only add
      refund legs and entries, and leave everything else alone. */
  predicate SameRows(db: Db, after: Db) {
    && after == db.(intents := after.intents, memberships := after.memberships, refunds := after.refunds,
                    ledger := after.ledger)
    && after.intents.Keys == db.intents.Keys
    && after.memberships.Keys == db.memberships.Keys
    && (forall i | i in db.intents :: after.intents[i].membership == db.intents[i].membership)
    && db.ledger <= after.ledger
  }

  /** Deposits that were credited although they were finalized too late. */
  function LateDeposits(db: Db, opensAt: Time): set<Id> {
    set i | i in Credited(db) && (db.intents[i].finalizedAt.None? || db.intents[i].finalizedAt.value > opensAt)
  }

  function MarkLate(intents: map<Id, Intent>, late: set<Id>): map<Id, Intent> {
    map i | i in intents ::
      if i in late then intents[i].(state := ExceptionReview, exception := Some(FinalizedAfterCutoff))
      else intents[i]
  }

  predicate Unordered(d: Intent) {
    d.block.None? || d.index.None? || d.hash.None?
  }

  /** How many of the ranked deposits the roster takes. */
  function IncludedCount(contract: Contract, valid: nat): (k: nat)
    ensures k <= valid
  {
    if valid >= contract.minParticipants then
      if valid < contract.maxParticipants then valid else contract.maxParticipants
    else 0
  }

  /** The Pod between closing enrollment and the two loops. */
  function BeginCutoff(db: Db): Db
    requires db.occurrences != []
  {
    db.(pod := db.pod.(state := CutoffEvaluating),
        memberships := CloseEntry(db.memberships),
        intents := MarkLate(db.intents, LateDeposits(db, db.occurrences[0].opensAt)))
  }

  predicate CutoffDue(db: Db, now: Time) {
    db.pod.state == EnrollmentOpen && db.occurrences != [] && db.occurrences[0].opensAt <= now
  }

  /** The credited deposits in chain order, as the sort leaves them. */
  ghost function Ranked(db: Db): seq<Id>
    requires db.occurrences != []
  {
    ChainOrder(db.intents, Credited(db) - LateDeposits(db, db.occurrences[0].opensAt))
  }

  /** The two loops and the final Pod state. */
  ghost function Decide(db: Db, ranked: seq<Id>): Db
    requires Listed(db, ranked)
  {
    var k := IncludedCount(db.pod.contract, |ranked|);
    assert forall i | i in ranked[..k] :: i in ranked;
    assert forall i | i in ranked[k..] :: i in ranked;
    var locked := IncludeAll(db, ranked[..k]);
    var refunded := RefundAll(locked, ranked[k..], if k > 0 then ExcludedAtCutoff else MemberRefundPending);
    refunded.(pod := refunded.pod.(state := if k > 0 then LockedScheduled else CancelledRefunding))
  }

  /** `applyPodCutoff`. */
  ghost function ApplyCutoff(db: Db, now: Time): Step {
    if db.pod.state in {LockedScheduled, CancelledRefunding, Cancelled} then Return(db)
    else if !CutoffDue(db, now) then Throw(db)
    else
      var ranked := Ranked(db);
      if exists i :: i in ranked && Unordered(db.intents[i]) then Throw(db)
      else Step(Decide(BeginCutoff(db), ranked), Done)
  }

  /** The deposits behind the locked roster. */
  function LockedDeposits(db: Db): set<Id> {
    set i | i in db.intents && db.intents[i].membership in db.memberships
            && db.memberships[db.intents[i].membership].state == RosterLocked
            && db.memberships[db.intents[i].membership].intent == Some(i) && !Unordered(db.intents[i])
  }

  /** The memberships on the locked roster in chain order, as `currentResult` reads them back. */
  ghost function CurrentRoster(db: Db): seq<Id> {
    MembershipsOf(db.intents, ChainOrder(db.intents, LockedDeposits(db)))
  }

  function MembershipsOf(intents: map<Id, Intent>, list: seq<Id>): seq<Id>
    requires forall i | i in list :: i in intents
  {
    seq(|list|, k requires 0 <= k < |list| => intents[list[k]].membership)
  }

  /** `cancelEnrollmentPod`; `order` is the order in which the database returns the credited deposits. */
  function CancelEnrollment(db: Db, user: Id, order: seq<Id>): Step
    requires Listed(db, order)
  {
    if user != db.pod.creator || db.pod.state != EnrollmentOpen then Return(db)
    else
      var closed := db.(memberships := CloseEntry(db.memberships));
      var refunded := RefundAll(closed, order, MemberRefundPending);
      Step(refunded.(pod := refunded.pod.(state := if order != [] then CancelledRefunding else Cancelled)), Done)
  }
}
