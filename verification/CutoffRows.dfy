/** The cutoff and the cancellation on the rows: who gets a seat by block, index and hash, and what becomes of everybody
    else. */
module CutoffRows {
  import opened Basics
  import opened Rows
  import opened Invariants
  import opened Cutoff
  import L = PayoutLegs
  import Cancellation
  import CutoffFates
  import CutoffKeeps
  import FinalizationGuards
  import FundingKeeps
  import Refunds

  predicate OnChain(d: Intent) {
    d.block.Some? && d.index.Some? && d.hash.Some?
  }

  /** Both are on the chain, and the first has the smaller block, in one block the smaller index, and at one index the
      smaller hash. */
  predicate Earlier(a: Intent, b: Intent) {
    && OnChain(a) && OnChain(b)
    && (a.block.value < b.block.value
        || (a.block.value == b.block.value
            && (a.index.value < b.index.value
                || (a.index.value == b.index.value && a.hash.value < b.hash.value))))
  }

  function FundedDeposits(db: Db): set<Id> {
    set i | i in db.intents && db.intents[i].state == CreditedProvisional
  }

  /** The credited deposits before this one on the chain. */
  function EarlierDeposits(db: Db, i: Id): set<Id>
    requires i in db.intents
  {
    set j | j in FundedDeposits(db) && Earlier(db.intents[j], db.intents[i])
  }

  /** A list in chain order ascends on the columns. */
  lemma OrderAscends(intents: map<Id, Intent>, s: set<Id>, list: seq<Id>, x: nat, y: nat)
    requires s <= intents.Keys && InChainOrder(intents, s, list) && HashesDiffer(intents, s)
    requires forall i | i in s :: !Unordered(intents[i])
    requires x < y < |list|
    ensures list[x] in s && list[y] in s && Earlier(intents[list[x]], intents[list[y]])
  {
    assert list[x] in list && list[y] in list;
  }

  lemma FundedIsCredited(db: Db)
    requires Inv(db)
    ensures FundedDeposits(db) == Credited(db)
    ensures forall i | i in Credited(db) :: !Unordered(db.intents[i])
    ensures HashesDiffer(db.intents, Credited(db))
  {
    hide Inv, LinksOk, HashesDiffer;
    FundingKeeps.HasLinks(db);
    forall i | i in FundedDeposits(db) ensures i in Credited(db) && !Unordered(db.intents[i]) {
      FundingKeeps.AboutDeposit(db, i);
    }
    CutoffFates.OrderedHashesDiffer(db, Credited(db));
  }

  /** The position of a deposit in the list is the number of deposits before it on the chain. */
  lemma PositionIsCount(db: Db, ranked: seq<Id>, x: nat)
    requires Inv(db) && InChainOrder(db.intents, Credited(db), ranked) && x < |ranked|
    ensures ranked[x] in Credited(db) && |EarlierDeposits(db, ranked[x])| == x
  {
    hide Inv, HashesDiffer, InChainOrder;
    FundedIsCredited(db);
    CutoffFates.OrderListsAll(db.intents, Credited(db), ranked);
    AllDifferent(db.intents, Credited(db), ranked);
    forall y | 0 <= y < |ranked| && y != x
      ensures y < x <==> Earlier(db.intents[ranked[y]], db.intents[ranked[x]])
    {
      if y < x {
        OrderAscends(db.intents, Credited(db), ranked, y, x);
      } else {
        OrderAscends(db.intents, Credited(db), ranked, x, y);
      }
    }
    assert EarlierDeposits(db, ranked[x]) == Elements(ranked[..x]) by {
      forall i ensures i in EarlierDeposits(db, ranked[x]) <==> i in Elements(ranked[..x]) {
        if i in ranked {
          var y :| 0 <= y < |ranked| && ranked[y] == i;
          assert y < x ==> ranked[..x][y] == i;
        }
      }
    }
    CountElements(ranked[..x]);
  }

  lemma AllDifferent(intents: map<Id, Intent>, s: set<Id>, list: seq<Id>)
    requires s <= intents.Keys && InChainOrder(intents, s, list)
    ensures forall x, y | 0 <= x < y < |list| :: list[x] != list[y]
  {
  }

  lemma {:induction false} CountElements(list: seq<Id>)
    requires forall x, y | 0 <= x < y < |list| :: list[x] != list[y]
    ensures |Elements(list)| == |list|
  {
    if list != [] {
      var init, last := list[..|list| - 1], list[|list| - 1];
      CountElements(init);
      assert list == init + [last];
      assert Elements(list) == Elements(init) + {last};
    }
  }

  /** What a due cutoff makes of a credited deposit, by its columns: if the minimum is met and fewer deposits than there
      are seats come before it on the chain, its member is locked, and a proportional Pod keeps the deposit; in every
      other case it is to be refunded in full. */
  lemma SeatByChain(db: Db, i: Id)
    requires Inv(db) && Cancellation.TidyDb(db) && CutoffDue(db, db.clock)
    requires i in db.intents && db.intents[i].state == CreditedProvisional
    ensures var after, m := ApplyCutoff(db, db.clock).db, db.intents[i].membership;
            var met := |FundedDeposits(db)| >= db.pod.contract.minParticipants;
            var seated := met && |EarlierDeposits(db, i)| < db.pod.contract.maxParticipants;
            var kept := seated && db.pod.contract.mode == Proportional;
            && m in after.memberships && i in after.intents
            && after.memberships[m] == db.memberships[m].(
                 state := if seated then RosterLocked else if met then ExcludedAtCutoff else MemberRefundPending)
            && after.intents[i] == db.intents[i].(state := if kept then AppliedToRoster else RefundPending)
            && LegOf(after.refunds, i)
                 == (if kept then None else Some(RefundLeg(m, db.intents[i].amount, L.Queued, None)))
  {
    hide Inv, ApplyCutoff, Ranked, InChainOrder, HashesDiffer, CutoffFates.RefundList, CutoffKeeps.EntriesFor,
         EarlierDeposits, CutoffFates.RosterOf, PublishedContract;
    CutoffFates.CutoffDecidesFate(db, db.clock);
    FinalizationGuards.HasContract(db);
    Cancellation.TwoSeats(db.pod.contract);
    FundedIsCredited(db);
    Cancellation.RankedCount(db);
    var ranked := Ranked(db);
    assert i in Elements(ranked);
    var x :| 0 <= x < |ranked| && ranked[x] == i;
    PositionIsCount(db, ranked, x);
    assert CutoffFates.FateAt(db, ApplyCutoff(db, db.clock).db, ranked,
                              IncludedCount(db.pod.contract, |ranked|), x);
  }

  /** Whoever is locked comes before everybody who is excluded. */
  lemma LockedIsEarlier(db: Db, i: Id, j: Id)
    requires Inv(db) && Cancellation.TidyDb(db) && CutoffDue(db, db.clock)
    requires i in FundedDeposits(db) && j in FundedDeposits(db)
    requires var after := ApplyCutoff(db, db.clock).db;
             && db.intents[i].membership in after.memberships && db.intents[j].membership in after.memberships
             && after.memberships[db.intents[i].membership].state == RosterLocked
             && after.memberships[db.intents[j].membership].state == ExcludedAtCutoff
    ensures Earlier(db.intents[i], db.intents[j])
  {
    hide Inv, ApplyCutoff, Earlier, InChainOrder, HashesDiffer;
    SeatByChain(db, i);
    SeatByChain(db, j);
    CutoffFates.RankedIsChainOrder(db);
    Cancellation.RankedCount(db);
    FundedIsCredited(db);
    var ranked := Ranked(db);
    assert i in Elements(ranked) && j in Elements(ranked);
    var x :| 0 <= x < |ranked| && ranked[x] == i;
    var y :| 0 <= y < |ranked| && ranked[y] == j;
    PositionIsCount(db, ranked, x);
    PositionIsCount(db, ranked, y);
    OrderAscends(db.intents, Credited(db), ranked, x, y);
  }

  /** The cutoff runs exactly on an open Pod from its first opening on; on a Pod it has decided already, or a cancelled
      one, it is passed over; at any other time it throws. */
  lemma CutoffByState(db: Db, now: Time)
    requires Inv(db)
    ensures var step := ApplyCutoff(db, now);
            if db.pod.state in {LockedScheduled, CancelledRefunding, PodState.Cancelled} then step == Return(db)
            else if db.pod.state == EnrollmentOpen && db.occurrences != [] && db.occurrences[0].opensAt <= now then
              step.reply == Done
            else step == Throw(db)
  {
    hide Inv, Decide, BeginCutoff, Ranked;
    if CutoffDue(db, now) { CutoffFates.CutoffNeverFails(db, now); }
  }

  // ---------------------------------------------------------------------------------------------
  // The returned roster.
  // ---------------------------------------------------------------------------------------------

  /** The list holds the locked memberships, each once, their deposits ascending on the chain. */
  ghost predicate ListsSeats(db: Db, roster: seq<Id>) {
    && (forall m :: m in roster <==> m in db.memberships && db.memberships[m].state == RosterLocked)
    && (forall m | m in roster :: db.memberships[m].intent.Some? && db.memberships[m].intent.value in db.intents)
    && (forall x, y | 0 <= x < y < |roster| ::
          Earlier(db.intents[db.memberships[roster[x]].intent.value],
                  db.intents[db.memberships[roster[y]].intent.value]))
  }

  /** The deposit of a locked membership is on the chain. */
  lemma SeatHasDeposit(db: Db, m: Id)
    requires Inv(db) && m in db.memberships && db.memberships[m].state == RosterLocked
    ensures db.memberships[m].intent.Some? && db.memberships[m].intent.value in LockedDeposits(db)
    ensures db.intents[db.memberships[m].intent.value].membership == m
  {
    hide Inv, LinksOk;
    FundingKeeps.HasLinks(db);
    FundingKeeps.AboutMembership(db, m);
    FundingKeeps.AboutDeposit(db, db.memberships[m].intent.value);
  }

  /** The roster a cutoff returns, also when replayed, lists the seats in the order of the chain. */
  lemma RosterListsSeats(db: Db)
    requires Inv(db)
    ensures ListsSeats(db, CurrentRoster(db))
  {
    hide Inv, Earlier, InChainOrder, HashesDiffer, LockedDeposits, ChainOrder;
    CutoffFates.LockedAreOrdered(db);
    var s := LockedDeposits(db);
    assert s <= db.intents.Keys;
    CutoffFates.OrderedHashesDiffer(db, s);
    var list, roster := ChainOrder(db.intents, s), CurrentRoster(db);
    CutoffFates.OrderListsAll(db.intents, s, list);
    forall i | i in s ensures PointsTo(db, i) { LockedPointsTo(db, i); }
    assert forall x | 0 <= x < |roster| :: list[x] in s && roster[x] == db.intents[list[x]].membership;
    forall m ensures m in roster <==> m in db.memberships && db.memberships[m].state == RosterLocked {
      if m in db.memberships && db.memberships[m].state == RosterLocked {
        SeatHasDeposit(db, m);
        var x :| 0 <= x < |list| && list[x] == db.memberships[m].intent.value;
        assert roster[x] == m;
      }
    }
    forall x, y | 0 <= x < y < |roster| ensures Earlier(db.intents[list[x]], db.intents[list[y]]) {
      OrderAscends(db.intents, s, list, x, y);
    }
  }

  predicate PointsTo(db: Db, i: Id) {
    && i in db.intents && db.intents[i].membership in db.memberships
    && db.memberships[db.intents[i].membership].state == RosterLocked
    && db.memberships[db.intents[i].membership].intent == Some(i)
  }

  lemma LockedPointsTo(db: Db, i: Id)
    requires i in LockedDeposits(db)
    ensures PointsTo(db, i)
  {
  }

  /** The list a cutoff returns lists the seats, too. */
  lemma CutoffListsSeats(db: Db, now: Time)
    requires Inv(db) && CutoffDue(db, now)
    ensures var ranked := Ranked(db);
            var k := IncludedCount(db.pod.contract, |ranked|);
            && (forall i | i in ranked[..k] :: i in db.intents)
            && ListsSeats(ApplyCutoff(db, now).db, MembershipsOf(db.intents, ranked[..k]))
  {
    hide Inv, ApplyCutoff, Ranked, ListsSeats, CurrentRoster;
    CutoffFates.ReplayReturnsSameRoster(db, now, now);
    CutoffFates.ApplyCutoffKeeps(db, now);
    RosterListsSeats(ApplyCutoff(db, now).db);
  }

  // ---------------------------------------------------------------------------------------------
  // Everybody else.
  // ---------------------------------------------------------------------------------------------

  /** A membership without money once enrollment closes. */
  function ClosedRow(r: Membership): Membership {
    match r.state
    case Applied => r.(state := ApplicationExpired)
    case AcceptedUnfunded => r.(state := ApplicationExpired)
    case FundingFailed => r.(state := ApplicationExpired)
    case DepositPending => r.(state := ExcludedAtCutoff)
    case _ => r
  }

  /** The memberships with a credited deposit are the funded ones. */
  lemma NamedIsFunded(db: Db, list: seq<Id>, m: Id)
    requires Inv(db) && m in db.memberships && Listed(db, list) && Elements(list) == FundedDeposits(db)
    ensures CutoffKeeps.Names(db, list, m) <==> db.memberships[m].state == FundedProvisional
  {
    hide Inv, LinksOk;
    FundingKeeps.HasLinks(db);
    FundingKeeps.AboutMembership(db, m);
    assert forall i :: i in list <==> i in Elements(list);
    if db.memberships[m].state == FundedProvisional {
      FundingKeeps.AboutDeposit(db, db.memberships[m].intent.value);
    }
    if i :| i in list && db.intents[i].membership == m { FundingKeeps.AboutDeposit(db, i); }
  }

  /** A due cutoff closes every membership without a credited deposit, leaves every other deposit alone, and locks the
      Pod exactly when the minimum is met. */
  lemma OthersByRows(db: Db, m: Id, i: Id)
    requires Inv(db) && Cancellation.TidyDb(db) && CutoffDue(db, db.clock)
    ensures var after := ApplyCutoff(db, db.clock).db;
            && ApplyCutoff(db, db.clock).reply == Done
            && after == db.(pod := after.pod, memberships := after.memberships, intents := after.intents,
                            refunds := after.refunds, ledger := after.ledger)
            && after.pod == db.pod.(state := if |FundedDeposits(db)| >= db.pod.contract.minParticipants
                                             then LockedScheduled else CancelledRefunding)
            && after.memberships.Keys == db.memberships.Keys && after.intents.Keys == db.intents.Keys
            && (m in db.memberships && db.memberships[m].state != FundedProvisional ==>
                  after.memberships[m] == ClosedRow(db.memberships[m]))
            && (i in db.intents && db.intents[i].state != CreditedProvisional ==> after.intents[i] == db.intents[i])
  {
    hide Inv, ApplyCutoff, Ranked, InChainOrder, HashesDiffer, CutoffFates.RefundList, CutoffKeeps.EntriesFor,
         CutoffFates.RosterOf, CutoffFates.FateAt, CutoffKeeps.Names;
    CutoffFates.CutoffDecidesFate(db, db.clock);
    FundedIsCredited(db);
    Cancellation.RankedCount(db);
    Cancellation.CutoffOutcome(db);
    CutoffFates.CutoffNeverFails(db, db.clock);
    assert forall i :: i in Ranked(db) <==> i in Elements(Ranked(db));
    if m in db.memberships { NamedIsFunded(db, Ranked(db), m); }
  }

  /** Had a credited deposit been finalized late or not at all, the cutoff would send it to review for that reason. */
  lemma LateByRows(db: Db, i: Id)
    requires db.occurrences != [] && i in db.intents && db.intents[i].membership in db.memberships
    ensures var d := db.intents[i];
            var late := d.finalizedAt.None? || d.finalizedAt.value > db.occurrences[0].opensAt;
            i in BeginCutoff(db).intents
            && BeginCutoff(db).intents[i]
                 == if d.state == CreditedProvisional && late
                    then d.(state := ExceptionReview, exception := Some(FinalizedAfterCutoff)) else d
  {
  }

  /** A membership row after a cancellation. */
  function CancelledRow(r: Membership): Membership {
    if r.state == FundedProvisional then r.(state := MemberRefundPending) else ClosedRow(r)
  }

  /** A deposit and its refund leg after a cancellation. */
  predicate CancelledDeposit(d: Intent, after: Intent, leg: Option<RefundLeg>) {
    if d.state == CreditedProvisional then
      after == d.(state := RefundPending) && leg == Some(RefundLeg(d.membership, d.amount, L.Queued, None))
    else after == d && leg == None
  }

  /** A cancellation takes effect exactly for the creator while enrollment is open: every credited deposit is to be
      refunded in full, its member refund pending; every other membership is closed; and the Pod is refunding, or
      cancelled at once when nothing was credited. */
  lemma CancelByRows(db: Db, user: Id, order: seq<Id>, m: Id, i: Id)
    requires Inv(db) && Cancellation.TidyDb(db) && Listed(db, order) && CutoffFates.Enumerates(order, Credited(db))
    ensures var step := CancelEnrollment(db, user, order);
            if user != db.pod.creator || db.pod.state != EnrollmentOpen then step == Return(db)
            else
              var after := step.db;
              && step.reply == Done
              && after == db.(pod := after.pod, memberships := after.memberships, intents := after.intents,
                              refunds := after.refunds, ledger := after.ledger)
              && after.pod == db.pod.(state := if FundedDeposits(db) == {} then PodState.Cancelled
                                               else CancelledRefunding)
              && after.memberships.Keys == db.memberships.Keys && after.intents.Keys == db.intents.Keys
              && (m in db.memberships ==> after.memberships[m] == CancelledRow(db.memberships[m]))
              && (i in db.intents ==> CancelledDeposit(db.intents[i], after.intents[i], LegOf(after.refunds, i)))
  {
    hide Inv, HashesDiffer, RefundAll, CancelledRow, CancelledDeposit, Credited, FundedDeposits, CutoffKeeps.Fated,
         Refunds.RefundsOpen;
    if user == db.pod.creator && db.pod.state == EnrollmentOpen {
      CutoffFates.CancelRefundsAll(db, order);
      FundedIsCredited(db);
      assert order != [] ==> order[0] in Elements(order);
      var after := CancelEnrollment(db, user, order).db;
      var closed := db.(memberships := CloseEntry(db.memberships));
      FatedFrame(closed, after.(pod := closed.pod), order);
      if m in db.memberships { CancelsMember(db, after, order, m); }
      if i in db.intents { CancelsDeposit(db, after, order, i); }
    }
  }

  lemma FatedFrame(closed: Db, after: Db, order: seq<Id>)
    requires Listed(closed, order) && CutoffKeeps.Fated(closed, after, order, RefundPending, MemberRefundPending, true)
    ensures SameRows(closed, after)
  {
    hide CutoffKeeps.Names, CutoffKeeps.EntriesFor, CutoffKeeps.LegsFor;
  }

  lemma CancelsMember(db: Db, after: Db, order: seq<Id>, m: Id)
    requires Inv(db) && Listed(db, order) && Elements(order) == FundedDeposits(db) && m in db.memberships
    requires var closed := db.(memberships := CloseEntry(db.memberships));
             && Listed(closed, order)
             && CutoffKeeps.Fated(closed, after.(pod := closed.pod), order, RefundPending, MemberRefundPending, true)
    ensures m in after.memberships && after.memberships[m] == CancelledRow(db.memberships[m])
  {
    hide Inv, FundedDeposits, CutoffKeeps.Names, CutoffKeeps.EntriesFor, CutoffKeeps.LegsFor;
    NamedIsFunded(db, order, m);
    SameNames(db, order, m);
  }

  lemma CancelsDeposit(db: Db, after: Db, order: seq<Id>, i: Id)
    requires Listed(db, order) && Elements(order) == FundedDeposits(db) && i in db.intents && db.refunds == map[]
    requires var closed := db.(memberships := CloseEntry(db.memberships));
             && Listed(closed, order)
             && CutoffKeeps.Fated(closed, after.(pod := closed.pod), order, RefundPending, MemberRefundPending, true)
    ensures i in after.intents && CancelledDeposit(db.intents[i], after.intents[i], LegOf(after.refunds, i))
  {
    hide CutoffKeeps.Names, CutoffKeeps.EntriesFor, CloseEntry;
    assert i in order <==> i in Elements(order);
  }

  lemma SameNames(db: Db, list: seq<Id>, m: Id)
    requires Listed(db, list)
    ensures var closed := db.(memberships := CloseEntry(db.memberships));
            Listed(closed, list) && (CutoffKeeps.Names(closed, list, m) <==> CutoffKeeps.Names(db, list, m))
  {
  }
}
