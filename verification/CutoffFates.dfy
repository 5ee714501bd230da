/** The cutoff as a whole: it cannot fail when it is due, it keeps the invariants, it gives every credited
    deposit exactly one fate by chain order, and replaying it changes nothing. */
module CutoffFates {
  import opened Basics
  import opened Ledger
  import opened Rows
  import opened Cutoff
  import opened Invariants
  import opened FundingKeeps
  import opened CutoffKeeps

  // ---------------------------------------------------------------------------------------------
  // Leaving the cutoff.
  // ---------------------------------------------------------------------------------------------

  predicate NobodyPending(memberships: map<Id, Membership>) {
    forall m | m in memberships :: memberships[m].state != DepositPending
  }

  /** The states a Pod may take once no credited deposit is left. */
  predicate Decidable(db: Db, state: PodState) {
    && BeforeLock(db.pod.state)
    && Credited(db) == {}
    && NobodyPending(db.memberships)
    && (if Roster(db.memberships) == {} then state in {CancelledRefunding, Cancelled}
        else && state == LockedScheduled
             && |Roster(db.memberships)| <= db.pod.contract.maxParticipants)
  }

  lemma NobodyFunded(db: Db, m: Id)
    requires LinksOk(db) && Credited(db) == {} && m in db.memberships
    ensures db.memberships[m].state != FundedProvisional
  {
    hide LinksOk;
    AboutMembership(db, m);
    assert db.memberships[m].intent.Some? ==> db.memberships[m].intent.value !in Credited(db);
  }

  lemma DecidedDepositFits(pod: Pod, state: PodState, opensAt: Time, i: Id, d: Intent, r: Membership,
                           leg: Option<RefundLeg>)
    requires DepositFits(pod, opensAt, i, d, r, leg) && d.state != CreditedProvisional
    ensures DepositFits(pod.(state := state), opensAt, i, d, r, leg)
  {
  }

  lemma DecidedMembershipFits(pod: Pod, state: PodState, m: Id, r: Membership, d: Option<Intent>)
    requires MembershipFits(pod, m, r, d) && BeforeLock(pod.state)
    requires r.state !in {DepositPending, FundedProvisional}
    requires OnRoster(r.state) ==> state == LockedScheduled
    ensures MembershipFits(pod.(state := state), m, r, d)
  {
  }

  lemma DecideKeepsLinks(db: Db, state: PodState)
    requires LinksOk(db) && Decidable(db, state)
    ensures LinksOk(WithState(db, state))
  {
    assert db.occurrences != [];
    hide LinksOk, DepositFits, MembershipFits;
    var after := WithState(db, state);
    forall i | i in after.intents
      ensures after.intents[i].membership in after.memberships
      ensures DepositFits(after.pod, after.occurrences[0].opensAt, i, after.intents[i],
                          after.memberships[after.intents[i].membership], LegOf(after.refunds, i))
    {
      AboutDeposit(db, i);
      assert i !in Credited(db);
      DecidedDepositFits(db.pod, state, db.occurrences[0].opensAt, i, db.intents[i],
                         db.memberships[db.intents[i].membership], LegOf(db.refunds, i));
    }
    forall m | m in after.memberships
      ensures MembershipFits(after.pod, m, after.memberships[m],
                             IntentOf(after.intents, after.memberships[m].intent))
    {
      AboutMembership(db, m);
      NobodyFunded(db, m);
      assert OnRoster(db.memberships[m].state) ==> m in Roster(db.memberships);
      DecidedMembershipFits(db.pod, state, m, db.memberships[m], IntentOf(db.intents, db.memberships[m].intent));
    }
    LinksFromRows(db, after);
  }

  lemma DecideKeeps(db: Db, state: PodState)
    requires Inv(db) && Decidable(db, state)
    ensures Inv(WithState(db, state))
  {
    hide LinksOk, BalancesOk, KeysOk, EntriesOk, DistinctKeys, LegsOk, FrozenOk, SubmissionsOk, CalendarOk;
    NoRunYet(db);
    DecideKeepsLinks(db, state);
    SameBalances(db, WithState(db, state));
  }

  // ---------------------------------------------------------------------------------------------
  // Who is on the roster.
  // ---------------------------------------------------------------------------------------------

  function Named(db: Db, list: seq<Id>): set<Id>
    requires Listed(db, list)
  {
    set i | i in list :: db.intents[i].membership
  }

  lemma {:induction false} NamedCount(db: Db, list: seq<Id>)
    requires Listed(db, list) && Apart(db, list)
    ensures |Named(db, list)| == |list|
  {
    if list != [] {
      hide Apart, Named, Listed;
      LastNamed(db, list);
      NamedCount(db, list[..|list| - 1]);
    }
  }

  lemma LastNamed(db: Db, list: seq<Id>)
    requires list != [] && Listed(db, list) && Apart(db, list)
    ensures var init, last := list[..|list| - 1], list[|list| - 1];
            && Listed(db, init) && Apart(db, init) && last in db.intents
            && Named(db, list) == Named(db, init) + {db.intents[last].membership}
            && db.intents[last].membership !in Named(db, init)
  {
    var init, last := list[..|list| - 1], list[|list| - 1];
    assert list == init + [last];
    assert last in list && forall i | i in init :: i in list;
  }

  lemma EmptyRoster(db: Db)
    requires Inv(db) && db.pod.state == EnrollmentOpen
    ensures Roster(db.memberships) == {}
  {
    hide Inv, LinksOk;
    HasLinks(db);
    forall m | m in db.memberships ensures !OnRoster(db.memberships[m].state) {
      AboutMembership(db, m);
    }
  }

  lemma RosterAfterInclude(db: Db, after: Db, list: seq<Id>, d: DepositState, refunded: bool)
    requires Listed(db, list) && Fated(db, after, list, d, RosterLocked, refunded)
    requires Roster(db.memberships) == {}
    ensures Roster(after.memberships) == Named(db, list)
  {
    forall n ensures n in Roster(after.memberships) <==> n in Named(db, list) {
      if n in db.memberships && !Names(db, list, n) {
        assert n !in Roster(db.memberships);
      }
    }
  }

  lemma RosterAfterRefund(db: Db, after: Db, list: seq<Id>, state: MembershipState)
    requires Listed(db, list) && Fated(db, after, list, RefundPending, state, true) && !OnRoster(state)
    requires Named(db, list) !! Roster(db.memberships)
    ensures Roster(after.memberships) == Roster(db.memberships)
  {
    forall n | n in db.memberships && Names(db, list, n) ensures n !in Roster(db.memberships) {
      var i :| i in list && db.intents[i].membership == n;
      assert n in Named(db, list);
    }
  }

  // ---------------------------------------------------------------------------------------------
  // The whole cutoff.
  // ---------------------------------------------------------------------------------------------

  /** What the two loops start from. */
  lemma Beginning(db: Db, now: Time)
    requires Inv(db) && CutoffDue(db, now)
    ensures var begin := BeginCutoff(db);
            && Inv(begin)
            && begin == Closed(db, CutoffEvaluating)
            && Roster(begin.memberships) == {}
            && NobodyPending(begin.memberships)
            && Credited(begin) == Credited(db)
            && begin.intents == db.intents
            && begin.refunds == db.refunds
    ensures forall i :: i in Ranked(db) <==> i in Credited(db)
    ensures forall i | i in Ranked(db) :: !Unordered(db.intents[i])
    ensures Listed(BeginCutoff(db), Ranked(db))
    ensures forall j, k | 0 <= j < k < |Ranked(db)| :: Ranked(db)[j] != Ranked(db)[k]
  {
    hide Inv;
    NoLateDeposits(db);
    BeginIsClose(db);
    CloseKeeps(db, CutoffEvaluating);
    CreditedAfterClose(db, CutoffEvaluating);
    EmptyRoster(db);
    SameRoster(db.memberships, CloseEntry(db.memberships));
  }

  /** A cutoff that is due never throws: no credited deposit lacks its chain position, and none is late. */
  lemma CutoffNeverFails(db: Db, now: Time)
    requires Inv(db) && CutoffDue(db, now)
    ensures ApplyCutoff(db, now).reply == Done
    ensures LateDeposits(db, db.occurrences[0].opensAt) == {}
  {
    hide Inv;
    NoLateDeposits(db);
    Beginning(db, now);
  }

  /** The two loops from an open cutoff with these credited deposits in chain order. */
  predicate LoopsReady(begin: Db, ranked: seq<Id>) {
    && begin.pod.state == CutoffEvaluating
    && Roster(begin.memberships) == {}
    && NobodyPending(begin.memberships)
    && (forall i | i in Credited(begin) :: i in ranked)
    && (forall i | i in ranked :: i in Credited(begin))
    && (forall j, k | 0 <= j < k < |ranked| :: ranked[j] != ranked[k])
  }

  lemma FirstLoop(begin: Db, ranked: seq<Id>, k: nat)
    requires Inv(begin) && LoopsReady(begin, ranked) && k <= |ranked|
    ensures Listed(begin, ranked[..k]) && Apart(begin, ranked[..k])
    ensures var locked := IncludeAll(begin, ranked[..k]);
            var alpha := begin.pod.contract.mode == FullRefundAlpha;
            && Inv(locked)
            && Fated(begin, locked, ranked[..k], if alpha then RefundPending else AppliedToRoster, RosterLocked, alpha)
            && Roster(locked.memberships) == Named(begin, ranked[..k])
            && NobodyPending(locked.memberships)
            && (forall i :: i in Credited(locked) <==> i in ranked[k..])
            && locked.pod == begin.pod
  {
    hide Inv;
    var list := ranked[..k];
    assert forall i | i in list :: i in ranked;
    CreditedApart(begin, list);
    IncludeAllKeeps(begin, list);
    var locked := IncludeAll(begin, list);
    var alpha := begin.pod.contract.mode == FullRefundAlpha;
    RosterAfterInclude(begin, locked, list, if alpha then RefundPending else AppliedToRoster, alpha);
    FirstLoopPending(begin, locked, list, if alpha then RefundPending else AppliedToRoster, alpha);
    FirstLoopCredited(begin, locked, ranked, k, if alpha then RefundPending else AppliedToRoster, alpha);
  }

  lemma FirstLoopPending(begin: Db, locked: Db, list: seq<Id>, d: DepositState, refunded: bool)
    requires Listed(begin, list) && Fated(begin, locked, list, d, RosterLocked, refunded)
    requires NobodyPending(begin.memberships)
    ensures NobodyPending(locked.memberships)
  {
    hide Names;
  }

  lemma FirstLoopCredited(begin: Db, locked: Db, ranked: seq<Id>, k: nat, d: DepositState, refunded: bool)
    requires LoopsReady(begin, ranked) && k <= |ranked| && d != CreditedProvisional
    requires Listed(begin, ranked[..k]) && Fated(begin, locked, ranked[..k], d, RosterLocked, refunded)
    ensures forall i :: i in Credited(locked) <==> i in ranked[k..]
  {
    hide Names, LegsFor;
    Halves(ranked, k);
    forall i | i in Credited(locked) ensures i in ranked[k..] {
      assert i !in ranked[..k];
      assert i in Credited(begin);
    }
    forall i | i in ranked[k..] ensures i in Credited(locked) {
      assert i in ranked && i in Credited(begin);
    }
  }

  /** A list without repetition splits into two disjoint halves. */
  lemma Halves(list: seq<Id>, k: nat)
    requires k <= |list| && forall a, b | 0 <= a < b < |list| :: list[a] != list[b]
    ensures forall i :: i in list <==> i in list[..k] || i in list[k..]
    ensures forall i | i in list[k..] :: i !in list[..k]
  {
    assert list == list[..k] + list[k..];
    forall i | i in list[k..] ensures i !in list[..k] {
      var a :| 0 <= a < |list[k..]| && list[k..][a] == i;
      assert list[k + a] == i;
    }
  }

  lemma SecondLoop(locked: Db, rest: seq<Id>, state: MembershipState)
    requires Inv(locked) && locked.pod.state == CutoffEvaluating && NobodyPending(locked.memberships)
    requires state in {ExcludedAtCutoff, MemberRefundPending}
    requires forall i :: i in Credited(locked) <==> i in rest
    requires forall j, k | 0 <= j < k < |rest| :: rest[j] != rest[k]
    ensures Listed(locked, rest)
    ensures var refunded := RefundAll(locked, rest, state);
            && Inv(refunded)
            && Fated(locked, refunded, rest, RefundPending, state, true)
            && Roster(refunded.memberships) == Roster(locked.memberships)
            && NobodyPending(refunded.memberships)
            && Credited(refunded) == {}
            && refunded.pod == locked.pod
  {
    hide Inv, Fated, Credited, Named, NobodyPending, Roster, Listed, RefundAll;
    RefundAllKeeps(locked, rest, state);
    var refunded := RefundAll(locked, rest, state);
    FatedPod(locked, refunded, rest, RefundPending, state, true);
    CreditedIsOffRoster(locked, rest);
    RosterAfterRefund(locked, refunded, rest, state);
    SecondLoopRows(locked, refunded, rest, state);
  }

  /** No credited deposit belongs to a member of the roster. */
  lemma CreditedIsOffRoster(db: Db, list: seq<Id>)
    requires Inv(db) && Listed(db, list) && forall i | i in list :: i in Credited(db)
    ensures Named(db, list) !! Roster(db.memberships)
  {
    hide Inv;
    forall n | n in Named(db, list) ensures n !in Roster(db.memberships) {
      var i :| i in list && db.intents[i].membership == n;
      CreditedMember(db, i);
    }
  }

  lemma SecondLoopRows(locked: Db, refunded: Db, rest: seq<Id>, state: MembershipState)
    requires NobodyPending(locked.memberships) && state in {ExcludedAtCutoff, MemberRefundPending}
    requires forall i :: i in Credited(locked) <==> i in rest
    requires Listed(locked, rest) && Fated(locked, refunded, rest, RefundPending, state, true)
    ensures NobodyPending(refunded.memberships) && Credited(refunded) == {}
  {
    hide Names, LegsFor;
  }

  /** The fate of the deposit at position `j` of the chain order when the roster takes the first `k`. */
  predicate FateAt(db: Db, after: Db, ranked: seq<Id>, k: nat, j: nat)
    requires j < |ranked| && Listed(db, ranked) && SameKeys(db, after)
  {
    var i := ranked[j];
    assert i in ranked;
    var seated := j < k;
    var alpha := db.pod.contract.mode == FullRefundAlpha;
    && after.intents[i] == db.intents[i].(state := if seated && !alpha then AppliedToRoster else RefundPending)
    && after.memberships[db.intents[i].membership] == db.memberships[db.intents[i].membership].(
         state := if seated then RosterLocked else if k > 0 then ExcludedAtCutoff else MemberRefundPending)
    && LegOf(after.refunds, i) == (if seated && !alpha then None else Some(NewRefundLeg(db.intents[i])))
  }

  /** The deposits the cutoff refunds, in order: an alpha Pod refunds its roster, too. */
  function RefundList(db: Db, ranked: seq<Id>, k: nat): (list: seq<Id>)
    requires k <= |ranked|
    ensures forall i | i in list :: i in ranked
  {
    if db.pod.contract.mode == FullRefundAlpha then ranked else ranked[k..]
  }

  /** What the cutoff decided: the first `k` deposits in chain order are on the roster, the others refunded. */
  ghost predicate Decided(db: Db, after: Db, ranked: seq<Id>, k: nat)
    requires k <= |ranked| && Listed(db, ranked)
  {
    && SameKeys(db, after)
    && (forall j | 0 <= j < |ranked| :: FateAt(db, after, ranked, k, j))
    && (forall i | i in db.intents && i !in ranked ::
          after.intents[i] == db.intents[i] && LegOf(after.refunds, i) == LegOf(db.refunds, i))
    && (forall n | n in db.memberships && !Names(db, ranked, n) ::
          after.memberships[n] == CloseRow(db.memberships[n]))
    && after.ledger == db.ledger + EntriesFor(db.intents, RefundList(db, ranked, k))
    && after == db.(pod := after.pod, intents := after.intents, memberships := after.memberships,
                    refunds := after.refunds, ledger := after.ledger)
    && Roster(after.memberships) == RosterOf(db, ranked, k)
    && |Roster(after.memberships)| == k
    && after.pod == db.pod.(state := if k > 0 then LockedScheduled else CancelledRefunding)
  }

  /** The memberships of the first `k` deposits. */
  function RosterOf(db: Db, ranked: seq<Id>, k: nat): set<Id>
    requires k <= |ranked| && Listed(db, ranked)
  {
    assert forall j | 0 <= j < k :: ranked[j] in ranked;
    set j | 0 <= j < k :: db.intents[ranked[j]].membership
  }

  predicate SameKeys(db: Db, after: Db) {
    after.intents.Keys == db.intents.Keys && after.memberships.Keys == db.memberships.Keys
  }

  lemma LoopsReadyAtCutoff(db: Db, now: Time)
    requires Inv(db) && CutoffDue(db, now)
    ensures Inv(BeginCutoff(db)) && LoopsReady(BeginCutoff(db), Ranked(db)) && Listed(BeginCutoff(db), Ranked(db))
    ensures BeginCutoff(db) == Closed(db, CutoffEvaluating)
  {
    hide Inv;
    Beginning(db, now);
  }

  /** The state after both loops, before the Pod's own state is written. */
  lemma BothLoops(begin: Db, ranked: seq<Id>) returns (k: nat, locked: Db, refunded: Db, state: MembershipState)
    requires Inv(begin) && LoopsReady(begin, ranked) && Listed(begin, ranked)
    ensures k == IncludedCount(begin.pod.contract, |ranked|)
    ensures state == if k > 0 then ExcludedAtCutoff else MemberRefundPending
    ensures Listed(begin, ranked[..k]) && Listed(locked, ranked[k..])
    ensures var alpha := begin.pod.contract.mode == FullRefundAlpha;
            && Fated(begin, locked, ranked[..k], if alpha then RefundPending else AppliedToRoster, RosterLocked, alpha)
            && Fated(locked, refunded, ranked[k..], RefundPending, state, true)
    ensures Inv(refunded) && refunded.pod == begin.pod
    ensures Credited(refunded) == {} && NobodyPending(refunded.memberships)
    ensures Roster(refunded.memberships) == Named(begin, ranked[..k]) && |Named(begin, ranked[..k])| == k
    ensures Decide(begin, ranked) == WithState(refunded, if k > 0 then LockedScheduled else CancelledRefunding)
  {
    hide Inv, Fated, Named, Apart, Credited, NobodyPending, Roster, RefundAll, IncludeAll, IncludedCount;
    k := IncludedCount(begin.pod.contract, |ranked|);
    state := if k > 0 then ExcludedAtCutoff else MemberRefundPending;
    FirstLoop(begin, ranked, k);
    locked := IncludeAll(begin, ranked[..k]);
    SuffixIsDistinct(ranked, k);
    SecondLoop(locked, ranked[k..], state);
    refunded := RefundAll(locked, ranked[k..], state);
    NamedCount(begin, ranked[..k]);
  }

  lemma SuffixIsDistinct(list: seq<Id>, k: nat)
    requires k <= |list| && forall a, b | 0 <= a < b < |list| :: list[a] != list[b]
    ensures forall a, b | 0 <= a < b < |list[k..]| :: list[k..][a] != list[k..][b]
  {
  }

  lemma CutoffIsDecide(db: Db, now: Time)
    requires Inv(db) && CutoffDue(db, now)
    ensures Listed(BeginCutoff(db), Ranked(db))
    ensures ApplyCutoff(db, now) == Step(Decide(BeginCutoff(db), Ranked(db)), Done)
  {
    hide Inv, Decide;
    Beginning(db, now);
  }

  lemma ApplyCutoffKeeps(db: Db, now: Time)
    requires Inv(db)
    ensures Inv(ApplyCutoff(db, now).db)
  {
    hide Inv, BeginCutoff, Decide, Ranked, LoopsReady, Fated;
    if db.pod.state == EnrollmentOpen && CutoffDue(db, now) {
      HasLinks(db);
      LoopsReadyAtCutoff(db, now);
      CutoffIsDecide(db, now);
      var begin := BeginCutoff(db);
      var k, locked, refunded, state := BothLoops(begin, Ranked(db));
      DecideKeeps(refunded, if k > 0 then LockedScheduled else CancelledRefunding);
    }
  }

  lemma DecideFates(db: Db, begin: Db, ranked: seq<Id>)
    requires Inv(db) && Inv(begin) && begin == Closed(db, CutoffEvaluating)
    requires LoopsReady(begin, ranked) && Listed(begin, ranked) && Listed(db, ranked)
    requires forall i | i in ranked :: i in Credited(db)
    ensures Decided(db, Decide(begin, ranked), ranked, IncludedCount(db.pod.contract, |ranked|))
  {
    hide Inv, Decide, Fated, Decided, Apart;
    var k, locked, refunded, state := BothLoops(begin, ranked);
    ListedIsApart(db, ranked);
    forall i | i in ranked ensures i !in db.refunds { CreditedMember(db, i); }
    FatesCombine(db, begin, locked, refunded, ranked, k, state);
  }

  lemma RankedIsChainOrder(db: Db)
    requires Inv(db)
    ensures InChainOrder(db.intents, Credited(db), Ranked(db)) && Listed(db, Ranked(db))
    ensures forall i | i in Ranked(db) :: i in Credited(db)
  {
    HasLinks(db);
    hide Inv, LinksOk, InChainOrder;
    NoLateDeposits(db);
    assert Credited(db) - {} == Credited(db);
    OrderListsAll(db.intents, Credited(db), Ranked(db));
  }

  lemma OrderListsAll(intents: map<Id, Intent>, s: set<Id>, r: seq<Id>)
    requires s <= intents.Keys && InChainOrder(intents, s, r)
    ensures forall i :: i in r <==> i in s
  {
  }

  /** Every credited deposit gets one fate: the roster takes the first `k` in chain order, where `k` is the
      number of deposits up to the maximum if that reaches the minimum and otherwise none; every other
      deposit is refunded in full; nothing else changes. */
  lemma CutoffDecidesFate(db: Db, now: Time)
    requires Inv(db) && CutoffDue(db, now)
    ensures var ranked := Ranked(db);
            && InChainOrder(db.intents, Credited(db), ranked)
            && Listed(db, ranked)
            && Decided(db, ApplyCutoff(db, now).db, ranked, IncludedCount(db.pod.contract, |ranked|))
  {
    hide Inv, Decide, Decided, BeginCutoff, Ranked, InChainOrder, LoopsReady;
    RankedIsChainOrder(db);
    LoopsReadyAtCutoff(db, now);
    CutoffIsDecide(db, now);
    DecideFates(db, BeginCutoff(db), Ranked(db));
  }

  lemma ListedIsApart(db: Db, ranked: seq<Id>)
    requires Inv(db) && (forall i | i in ranked :: i in Credited(db))
    requires forall j, k | 0 <= j < k < |ranked| :: ranked[j] != ranked[k]
    ensures Listed(db, ranked) && Apart(db, ranked)
  {
    CreditedApart(db, ranked);
  }

  lemma FatesCombine(db: Db, begin: Db, locked: Db, refunded: Db, ranked: seq<Id>, k: nat, state: MembershipState)
    requires begin == Closed(db, CutoffEvaluating) && k <= |ranked|
    requires Listed(db, ranked) && Apart(db, ranked) && Listed(begin, ranked[..k]) && Listed(locked, ranked[k..])
    requires state == if k > 0 then ExcludedAtCutoff else MemberRefundPending
    requires forall i | i in ranked :: i !in db.refunds
    requires var alpha := begin.pod.contract.mode == FullRefundAlpha;
             && Fated(begin, locked, ranked[..k], if alpha then RefundPending else AppliedToRoster, RosterLocked, alpha)
             && Fated(locked, refunded, ranked[k..], RefundPending, state, true)
    requires Roster(refunded.memberships) == Named(begin, ranked[..k]) && |Named(begin, ranked[..k])| == k
    ensures Decided(db, WithState(refunded, if k > 0 then LockedScheduled else CancelledRefunding), ranked, k)
  {
    hide Fated, FateAt, Names, EntriesFor, CloseRow;
    var after := WithState(refunded, if k > 0 then LockedScheduled else CancelledRefunding);
    var alpha := begin.pod.contract.mode == FullRefundAlpha;
    FatedPod(begin, locked, ranked[..k], if alpha then RefundPending else AppliedToRoster, RosterLocked, alpha);
    FatedPod(locked, refunded, ranked[k..], RefundPending, state, true);
    forall j | 0 <= j < |ranked| ensures FateAt(db, after, ranked, k, j) {
      assert ranked[j] in ranked;
      CombineAt(db, begin, locked, refunded, ranked, k, state, j);
      SameFate(db, refunded, after, ranked, k, j);
    }
    forall i | i in db.intents && i !in ranked
      ensures after.intents[i] == db.intents[i] && LegOf(after.refunds, i) == LegOf(db.refunds, i)
    {
      CombineElsewhere(db, begin, locked, refunded, ranked, k, state, i);
    }
    forall n | n in db.memberships && !Names(db, ranked, n)
      ensures after.memberships[n] == CloseRow(db.memberships[n])
    {
      CombineOthers(db, begin, locked, refunded, ranked, k, state, n);
    }
    CombineLedger(db, begin, locked, refunded, ranked, k, state);
    RosterOfNamed(db, begin, ranked, k);
  }

  lemma SameFate(db: Db, after: Db, after': Db, ranked: seq<Id>, k: nat, j: nat)
    requires j < |ranked| && Listed(db, ranked) && SameKeys(db, after) && FateAt(db, after, ranked, k, j)
    requires after'.intents == after.intents && after'.memberships == after.memberships
    requires after'.refunds == after.refunds
    ensures FateAt(db, after', ranked, k, j)
  {
  }

  lemma RosterOfNamed(db: Db, begin: Db, ranked: seq<Id>, k: nat)
    requires k <= |ranked| && Listed(db, ranked) && Listed(begin, ranked[..k]) && begin.intents == db.intents
    ensures Named(begin, ranked[..k]) == RosterOf(db, ranked, k)
  {
    assert forall j | 0 <= j < k :: ranked[..k][j] == ranked[j] && ranked[j] in ranked[..k];
  }

  predicate Combined(db: Db, begin: Db, locked: Db, refunded: Db, ranked: seq<Id>, k: nat, state: MembershipState) {
    && begin == Closed(db, CutoffEvaluating) && k <= |ranked|
    && Listed(db, ranked) && Listed(begin, ranked[..k]) && Listed(locked, ranked[k..])
    && (var alpha := begin.pod.contract.mode == FullRefundAlpha;
        && Fated(begin, locked, ranked[..k], if alpha then RefundPending else AppliedToRoster, RosterLocked, alpha)
        && Fated(locked, refunded, ranked[k..], RefundPending, state, true))
  }

  lemma InOneHalf(list: seq<Id>, k: nat, j: nat)
    requires k <= |list| && j < |list| && forall a, b | 0 <= a < b < |list| :: list[a] != list[b]
    ensures j < k ==> list[j] in list[..k] && list[j] !in list[k..]
    ensures k <= j ==> list[j] in list[k..] && list[j] !in list[..k]
  {
    Halves(list, k);
    if j < k {
      assert list[..k][j] == list[j];
    } else {
      assert list[k..][j - k] == list[j];
    }
  }

  lemma CombineIntent(db: Db, begin: Db, locked: Db, refunded: Db, ranked: seq<Id>, k: nat, state: MembershipState,
                      i: Id)
    requires Combined(db, begin, locked, refunded, ranked, k, state) && i in db.intents
    requires !(i in ranked[..k] && i in ranked[k..])
    ensures i in refunded.intents
    ensures var alpha := db.pod.contract.mode == FullRefundAlpha;
            && refunded.intents[i] ==
                 (if i in ranked[..k] then db.intents[i].(state := if alpha then RefundPending else AppliedToRoster)
                  else if i in ranked[k..] then db.intents[i].(state := RefundPending)
                  else db.intents[i])
            && LegOf(refunded.refunds, i) ==
                 (if i in ranked[k..] || (alpha && i in ranked[..k]) then Some(NewRefundLeg(db.intents[i]))
                  else LegOf(db.refunds, i))
  {
    hide Names;
  }

  lemma CombineElsewhere(db: Db, begin: Db, locked: Db, refunded: Db, ranked: seq<Id>, k: nat,
                         state: MembershipState, i: Id)
    requires Combined(db, begin, locked, refunded, ranked, k, state)
    requires i in db.intents && i !in ranked
    ensures i in refunded.intents
    ensures refunded.intents[i] == db.intents[i] && LegOf(refunded.refunds, i) == LegOf(db.refunds, i)
  {
    hide Fated;
    assert ranked == ranked[..k] + ranked[k..];
    CombineIntent(db, begin, locked, refunded, ranked, k, state, i);
  }

  lemma CombineAt(db: Db, begin: Db, locked: Db, refunded: Db, ranked: seq<Id>, k: nat, state: MembershipState, j: nat)
    requires Combined(db, begin, locked, refunded, ranked, k, state) && j < |ranked| && Apart(db, ranked)
    requires state == if k > 0 then ExcludedAtCutoff else MemberRefundPending
    requires ranked[j] in ranked && ranked[j] !in db.refunds
    requires SameKeys(db, refunded)
    ensures FateAt(db, refunded, ranked, k, j)
  {
    hide Fated, Names;
    InOneHalf(ranked, k, j);
    CombineIntent(db, begin, locked, refunded, ranked, k, state, ranked[j]);
    CombineMember(db, begin, locked, refunded, ranked, k, state, j);
  }

  lemma CombineMember(db: Db, begin: Db, locked: Db, refunded: Db, ranked: seq<Id>, k: nat, state: MembershipState,
                      j: nat)
    requires Combined(db, begin, locked, refunded, ranked, k, state) && j < |ranked| && Apart(db, ranked)
    requires ranked[j] in ranked && SameKeys(db, refunded)
    ensures refunded.memberships[db.intents[ranked[j]].membership]
         == db.memberships[db.intents[ranked[j]].membership].(state := if j < k then RosterLocked else state)
  {
    hide LegsFor, EntriesFor;
    var n := db.intents[ranked[j]].membership;
    InOneHalf(ranked, k, j);
    if j < k {
      assert Names(begin, ranked[..k], n);
    } else {
      assert locked.intents[ranked[j]].membership == n;
      assert Names(locked, ranked[k..], n);
    }
  }

  /** A membership without a ranked deposit is only closed. */
  lemma CombineOthers(db: Db, begin: Db, locked: Db, refunded: Db, ranked: seq<Id>, k: nat, state: MembershipState,
                      n: Id)
    requires Combined(db, begin, locked, refunded, ranked, k, state) && n in db.memberships && !Names(db, ranked, n)
    ensures n in refunded.memberships && refunded.memberships[n] == CloseRow(db.memberships[n])
  {
    hide LegsFor, EntriesFor, CloseRow;
    NamesOfPart(db, begin, ranked, ranked[..k], n);
    NamesOfPart(db, locked, ranked, ranked[k..], n);
  }

  /** Whoever a part of the list names, the list names. */
  lemma NamesOfPart(db: Db, other: Db, list: seq<Id>, part: seq<Id>, n: Id)
    requires Listed(db, list) && Listed(other, part) && (forall i | i in part :: i in list)
    requires forall i | i in part :: other.intents[i].membership == db.intents[i].membership
    ensures Names(other, part, n) ==> Names(db, list, n)
  {
  }

  lemma CombineLedger(db: Db, begin: Db, locked: Db, refunded: Db, ranked: seq<Id>, k: nat, state: MembershipState)
    requires Combined(db, begin, locked, refunded, ranked, k, state)
    ensures refunded.ledger == db.ledger + EntriesFor(db.intents, RefundList(db, ranked, k))
  {
    hide Fated, EntriesFor, Names;
    var alpha := db.pod.contract.mode == FullRefundAlpha;
    FatedBook(begin, locked, ranked[..k], if alpha then RefundPending else AppliedToRoster, RosterLocked, alpha);
    FatedBook(locked, refunded, ranked[k..], RefundPending, state, true);
    FatedOwners(begin, locked, ranked[..k], if alpha then RefundPending else AppliedToRoster, RosterLocked, alpha);
    assert forall i | i in ranked[k..] :: i in ranked;
    EntriesSplit(db.intents, locked.intents, ranked, k);
    if alpha {
      var first, rest := EntriesFor(db.intents, ranked[..k]), EntriesFor(locked.intents, ranked[k..]);
      assert (db.ledger + first) + rest == db.ledger + (first + rest);
    } else {
      assert ranked[k..][..0] == [] && ranked[k..][0..] == ranked[k..];
      EntriesSplit(db.intents, locked.intents, ranked[k..], 0);
      NoEntries(db.intents);
    }
  }

  lemma NoEntries(intents: map<Id, Intent>)
    ensures EntriesFor(intents, []) == []
  {
  }

  lemma FatedOwners(db: Db, after: Db, list: seq<Id>, d: DepositState, r: MembershipState, refunded: bool)
    requires Listed(db, list) && Fated(db, after, list, d, r, refunded)
    ensures forall i | i in db.intents ::
              && i in after.intents && after.intents[i].membership == db.intents[i].membership
              && after.intents[i].amount == db.intents[i].amount
  {
    hide Names, LegsFor, EntriesFor;
  }

  // ---------------------------------------------------------------------------------------------
  // Replays.
  // ---------------------------------------------------------------------------------------------

  /** Same chain position. */
  predicate SamePosition(a: Intent, b: Intent) {
    a.block == b.block && a.index == b.index && a.hash == b.hash
  }

  /** The seated deposit at position `j` after the cutoff. */
  lemma SeatedDeposit(db: Db, after: Db, ranked: seq<Id>, k: nat, j: nat)
    requires Inv(after) && k <= |ranked| && j < |ranked| && Listed(db, ranked) && Decided(db, after, ranked, k)
    ensures ranked[j] in ranked && ranked[j] in after.intents
    ensures after.intents[ranked[j]].membership == db.intents[ranked[j]].membership
    ensures SamePosition(db.intents[ranked[j]], after.intents[ranked[j]])
    ensures after.intents[ranked[j]].membership in after.memberships
    ensures after.memberships[after.intents[ranked[j]].membership].intent == Some(ranked[j])
    ensures j < k ==> after.memberships[after.intents[ranked[j]].membership].state == RosterLocked
  {
    hide Inv;
    assert ranked[j] in ranked;
    assert FateAt(db, after, ranked, k, j);
    HasLinks(after);
    hide LinksOk;
    AboutDeposit(after, ranked[j]);
  }

  lemma SeatedAreLocked(db: Db, after: Db, ranked: seq<Id>, k: nat)
    requires Inv(after) && k <= |ranked| && Listed(db, ranked) && Decided(db, after, ranked, k)
    requires forall i | i in ranked :: !Unordered(db.intents[i])
    ensures LockedDeposits(after) == Elements(ranked[..k])
  {
    hide Inv, Decided;
    forall i | i in ranked[..k] ensures i in LockedDeposits(after) {
      var j :| 0 <= j < k && ranked[j] == i;
      SeatedDeposit(db, after, ranked, k, j);
    }
    forall i | i in LockedDeposits(after) ensures i in ranked[..k] {
      var m := after.intents[i].membership;
      SeatOf(db, after, ranked, k, m);
      var j :| 0 <= j < k && ranked[j] in ranked && db.intents[ranked[j]].membership == m;
      SeatedDeposit(db, after, ranked, k, j);
      assert ranked[..k][j] == ranked[j];
    }
  }

  lemma SeatOf(db: Db, after: Db, ranked: seq<Id>, k: nat, m: Id)
    requires k <= |ranked| && Listed(db, ranked) && Decided(db, after, ranked, k)
    requires m in after.memberships && after.memberships[m].state == RosterLocked
    ensures exists j :: 0 <= j < k && ranked[j] in ranked && db.intents[ranked[j]].membership == m
  {
    assert m in Roster(after.memberships);
    assert m in RosterOf(db, ranked, k);
    var j :| 0 <= j < k && db.intents[ranked[j]].membership == m;
    assert ranked[j] in ranked;
  }

  lemma PrefixInOrder(intents: map<Id, Intent>, intents': map<Id, Intent>, s: set<Id>, ranked: seq<Id>, k: nat)
    requires k <= |ranked| && s <= intents.Keys && InChainOrder(intents, s, ranked)
    requires forall i | i in s :: i in intents' && SamePosition(intents[i], intents'[i])
    ensures Elements(ranked[..k]) <= intents'.Keys
    ensures InChainOrder(intents', Elements(ranked[..k]), ranked[..k])
  {
    assert forall j | 0 <= j < |ranked| :: ranked[j] in s;
  }

  /** Deposits with a chain position have different hashes. */
  lemma OrderedHashesDiffer(db: Db, s: set<Id>)
    requires Inv(db) && s <= db.intents.Keys && forall i | i in s :: !Unordered(db.intents[i])
    ensures HashesDiffer(db.intents, s)
  {
    hide Inv, DepositsOk, MembershipsOk;
    HasLinks(db);
  }

  lemma LockedAreOrdered(db: Db)
    ensures forall i | i in LockedDeposits(db) :: i in db.intents && !Unordered(db.intents[i])
  {
  }

  lemma SameMemberships(db: Db, after: Db, ranked: seq<Id>, k: nat)
    requires Inv(after) && k <= |ranked| && Listed(db, ranked) && Decided(db, after, ranked, k)
    ensures forall i | i in ranked[..k] :: i in db.intents && i in after.intents
    ensures MembershipsOf(after.intents, ranked[..k]) == MembershipsOf(db.intents, ranked[..k])
  {
    hide Inv, Decided;
    forall j | 0 <= j < k
      ensures ranked[..k][j] in db.intents && ranked[..k][j] in after.intents
      ensures after.intents[ranked[..k][j]].membership == db.intents[ranked[..k][j]].membership
    {
      assert ranked[j] in ranked;
      SeatedDeposit(db, after, ranked, k, j);
    }
  }

  lemma RosterReadBack(db: Db, after: Db, ranked: seq<Id>, k: nat)
    requires Inv(after) && k <= |ranked| && Listed(db, ranked) && Decided(db, after, ranked, k)
    requires Credited(db) <= db.intents.Keys && InChainOrder(db.intents, Credited(db), ranked)
    requires forall i | i in Credited(db) :: i in ranked && !Unordered(db.intents[i])
    requires forall i | i in ranked :: i in Credited(db)
    ensures forall i | i in ranked[..k] :: i in db.intents
    ensures CurrentRoster(after) == MembershipsOf(db.intents, ranked[..k])
  {
    hide Inv, Decided, InChainOrder, Credited, LockedDeposits, Listed, HashesDiffer;
    SeatedAreLocked(db, after, ranked, k);
    assert forall i | i in LockedDeposits(after) :: i in after.intents && !Unordered(after.intents[i]) by {
      LockedAreOrdered(after);
    }
    OrderedHashesDiffer(after, LockedDeposits(after));
    forall i | i in Credited(db) ensures i in after.intents && SamePosition(db.intents[i], after.intents[i]) {
      var j :| 0 <= j < |ranked| && ranked[j] == i;
      SeatedDeposit(db, after, ranked, k, j);
    }
    PrefixInOrder(db.intents, after.intents, Credited(db), ranked, k);
    ChainOrderIsUnique(after.intents, LockedDeposits(after), ChainOrder(after.intents, LockedDeposits(after)),
                       ranked[..k]);
    SameMemberships(db, after, ranked, k);
  }

  /** The roster read back is the locked deposits in their only chain order; so a replay of the cutoff writes
      nothing and returns the list the cutoff returned. */
  lemma ReplayReturnsSameRoster(db: Db, now: Time, later: Time)
    requires Inv(db) && CutoffDue(db, now)
    ensures var after, ranked := ApplyCutoff(db, now).db, Ranked(db);
            && ApplyCutoff(after, later) == Return(after)
            && (forall i | i in ranked :: i in db.intents)
            && (forall i | i in ranked[..IncludedCount(db.pod.contract, |ranked|)] :: i in db.intents)
            && CurrentRoster(after) == MembershipsOf(db.intents, ranked[..IncludedCount(db.pod.contract, |ranked|)])
  {
    hide Inv, Decide, BeginCutoff, Ranked, InChainOrder, LoopsReady, CurrentRoster, FateAt;
    CutoffDecidesFate(db, now);
    ApplyCutoffKeeps(db, now);
    RankedIsChainOrder(db);
    NoLateDeposits(db);
    OrderListsAll(db.intents, Credited(db), Ranked(db));
    RosterReadBack(db, ApplyCutoff(db, now).db, Ranked(db), IncludedCount(db.pod.contract, |Ranked(db)|));
  }

  // ---------------------------------------------------------------------------------------------
  // Cancelling.
  // ---------------------------------------------------------------------------------------------

  /** The order in which the database returns the credited deposits: each once. */
  predicate Enumerates(order: seq<Id>, s: set<Id>) {
    && Elements(order) == s
    && (forall j, k | 0 <= j < k < |order| :: order[j] != order[k])
  }

  /** A cancellation refunds every credited deposit in full, whatever the order, and leaves nobody funded. */
  lemma CancelRefundsAll(db: Db, order: seq<Id>)
    requires Inv(db) && Enumerates(order, Credited(db)) && Listed(db, order) && db.pod.state == EnrollmentOpen
    ensures var closed := db.(memberships := CloseEntry(db.memberships));
            var after := CancelEnrollment(db, db.pod.creator, order).db;
            && Inv(after)
            && Listed(closed, order)
            && Fated(closed, after.(pod := closed.pod), order, RefundPending, MemberRefundPending, true)
            && Credited(after) == {}
            && after.pod.state == if order != [] then CancelledRefunding else Cancelled
  {
    hide Inv, Fated, Credited, NobodyPending, Roster, Named, RefundAll, Listed, Enumerates;
    var closed := Closed(db, EnrollmentOpen);
    assert closed == db.(memberships := CloseEntry(db.memberships));
    CancelStarts(db, order);
    RefundAllKeeps(closed, order, MemberRefundPending);
    var refunded := RefundAll(closed, order, MemberRefundPending);
    FatedPod(closed, refunded, order, RefundPending, MemberRefundPending, true);
    CreditedIsOffRoster(closed, order);
    RosterAfterRefund(closed, refunded, order, MemberRefundPending);
    CancelRows(closed, refunded, order);
    DecideKeeps(refunded, if order != [] then CancelledRefunding else Cancelled);
    CreditedIgnoresPod(refunded, if order != [] then CancelledRefunding else Cancelled);
    assert WithState(refunded, if order != [] then CancelledRefunding else Cancelled).(pod := closed.pod) == refunded;
  }

  lemma CreditedIgnoresPod(db: Db, state: PodState)
    ensures Credited(WithState(db, state)) == Credited(db)
  {
  }

  /** What the refund loop of a cancellation starts from. */
  lemma CancelStarts(db: Db, order: seq<Id>)
    requires Inv(db) && Enumerates(order, Credited(db)) && db.pod.state == EnrollmentOpen
    ensures var closed := Closed(db, EnrollmentOpen);
            && Inv(closed) && Roster(closed.memberships) == {} && NobodyPending(closed.memberships)
            && Enumerates(order, Credited(closed))
            && (forall i | i in order :: i in Credited(closed))
            && (forall j, k | 0 <= j < k < |order| :: order[j] != order[k])
  {
    hide Inv;
    CloseKeeps(db, EnrollmentOpen);
    CreditedAfterClose(db, EnrollmentOpen);
    EmptyRoster(db);
    SameRoster(db.memberships, CloseEntry(db.memberships));
  }

  lemma CancelEnrollmentKeeps(db: Db, user: Id, order: seq<Id>)
    requires Inv(db) && Enumerates(order, Credited(db)) && Listed(db, order)
    ensures Inv(CancelEnrollment(db, user, order).db)
  {
    hide Inv, Fated, Listed, Enumerates;
    if user == db.pod.creator && db.pod.state == EnrollmentOpen {
      CancelRefundsAll(db, order);
    }
  }

  lemma CancelRows(closed: Db, refunded: Db, order: seq<Id>)
    requires NobodyPending(closed.memberships) && Enumerates(order, Credited(closed))
    requires Listed(closed, order) && Fated(closed, refunded, order, RefundPending, MemberRefundPending, true)
    ensures NobodyPending(refunded.memberships) && Credited(refunded) == {}
  {
    hide Names, LegsFor;
    forall i ensures i !in Credited(refunded) {
      assert i in Credited(closed) ==> i in order;
    }
  }
}
