/** The cutoff and the cancellation keep the invariants, and give every credited deposit one fate. */
module CutoffKeeps {
  import opened Basics
  import opened Ledger
  import opened Rows
  import opened Cutoff
  import opened Invariants
  import opened FundingKeeps

  // ---------------------------------------------------------------------------------------------
  // Closing enrollment.
  // ---------------------------------------------------------------------------------------------

  /** No deposit was credited after the first opening. */
  lemma NoLateDeposits(db: Db)
    requires Inv(db)
    ensures LateDeposits(db, db.occurrences[0].opensAt) == {}
    ensures forall i | i in Credited(db) :: !Unordered(db.intents[i])
  {
    hide Inv, LinksOk;
    HasLinks(db);
    forall i | i in Credited(db)
      ensures !Unordered(db.intents[i])
      ensures db.intents[i].finalizedAt.Some? && db.intents[i].finalizedAt.value <= db.occurrences[0].opensAt
    {
      AboutDeposit(db, i);
    }
  }

  /** The Pod with enrollment closed. */
  function Closed(db: Db, state: PodState): Db {
    db.(pod := db.pod.(state := state), memberships := CloseEntry(db.memberships))
  }

  lemma ClosedDepositFits(pod: Pod, state: PodState, opensAt: Time, i: Id, d: Intent, r: Membership,
                          leg: Option<RefundLeg>)
    requires DepositFits(pod, opensAt, i, d, r, leg) && pod.state == EnrollmentOpen && BeforeLock(state)
    ensures DepositFits(pod.(state := state), opensAt, i, d, CloseRow(r), leg)
  {
  }

  lemma ClosedMembershipFits(pod: Pod, state: PodState, m: Id, r: Membership, d: Option<Intent>)
    requires MembershipFits(pod, m, r, d) && pod.state == EnrollmentOpen && BeforeLock(state)
    ensures MembershipFits(pod.(state := state), m, CloseRow(r), d)
  {
  }

  lemma CloseKeepsLinks(db: Db, state: PodState)
    requires LinksOk(db) && db.pod.state == EnrollmentOpen && BeforeLock(state)
    ensures LinksOk(Closed(db, state))
  {
    assert db.occurrences != [];
    hide LinksOk, DepositFits, MembershipFits, CloseRow;
    var after := Closed(db, state);
    forall i | i in after.intents
      ensures after.intents[i].membership in after.memberships
      ensures DepositFits(after.pod, after.occurrences[0].opensAt, i, after.intents[i],
                          after.memberships[after.intents[i].membership], LegOf(after.refunds, i))
    {
      AboutDeposit(db, i);
      ClosedDepositFits(db.pod, state, db.occurrences[0].opensAt, i, db.intents[i],
                        db.memberships[db.intents[i].membership], LegOf(db.refunds, i));
    }
    forall m | m in after.memberships
      ensures MembershipFits(after.pod, m, after.memberships[m],
                             IntentOf(after.intents, after.memberships[m].intent))
    {
      AboutMembership(db, m);
      ClosedMembershipFits(db.pod, state, m, db.memberships[m], IntentOf(db.intents, db.memberships[m].intent));
      SameIntent(db.memberships[m]);
    }
    LinksFromRows(db, after);
  }

  lemma SameIntent(r: Membership)
    ensures CloseRow(r).intent == r.intent
  {
  }

  lemma CloseKeepsBalances(db: Db, state: PodState)
    requires BalancesOk(db)
    ensures BalancesOk(Closed(db, state))
  {
    var after := Closed(db, state);
    forall a | a != Treasury ensures Net(after.ledger, a) == Owed(after, a) {
      assert Net(db.ledger, a) == Owed(db, a);
    }
  }

  lemma CloseKeepsSubmissions(occurrences: seq<Occurrence>, memberships: map<Id, Membership>,
                              submissions: map<SubmissionId, Submission>)
    requires SubmissionsOk(occurrences, memberships, submissions)
    ensures SubmissionsOk(occurrences, CloseEntry(memberships), submissions)
  {
  }

  lemma CloseKeeps(db: Db, state: PodState)
    requires Inv(db) && db.pod.state == EnrollmentOpen && BeforeLock(state)
    ensures Inv(Closed(db, state))
  {
    hide LinksOk, BalancesOk, KeysOk, EntriesOk, DistinctKeys, LegsOk, FrozenOk, SubmissionsOk, CalendarOk;
    CloseKeepsLinks(db, state);
    CloseKeepsBalances(db, state);
    CloseKeepsSubmissions(db.occurrences, db.memberships, db.submissions);
    SameRoster(db.memberships, CloseEntry(db.memberships));
  }

  lemma CreditedAfterClose(db: Db, state: PodState)
    ensures Credited(Closed(db, state)) == Credited(db)
  {
  }

  lemma BeginIsClose(db: Db)
    requires Inv(db)
    ensures BeginCutoff(db) == Closed(db, CutoffEvaluating)
  {
    hide Inv;
    HasLinks(db);
    NoLateDeposits(db);
    assert MarkLate(db.intents, {}) == db.intents;
  }

  // ---------------------------------------------------------------------------------------------
  // One deposit is refunded.
  // ---------------------------------------------------------------------------------------------

  /** Deposit `i` refunded in full, with its membership in `state`. */
  function Refund(db: Db, i: Id, state: MembershipState): Db
    requires i in db.intents && db.intents[i].membership in db.memberships
  {
    var d := db.intents[i];
    var r := db.memberships[d.membership];
    Rewrite(db, i, d.(state := RefundPending), r.(state := state)).(
      refunds := db.refunds[i := NewRefundLeg(d)], ledger := db.ledger + [RefundEntry(i, d)])
  }

  /** Which membership state goes with a refund: an alpha Pod keeps refunded members on its roster. */
  predicate RefundState(pod: Pod, state: MembershipState) {
    || state in {ExcludedAtCutoff, MemberRefundPending}
    || (state == RosterLocked && pod.contract.mode == FullRefundAlpha && pod.state == CutoffEvaluating)
  }

  predicate Refundable(db: Db, i: Id, state: MembershipState) {
    && BeforeLock(db.pod.state)
    && i in Credited(db)
    && RefundState(db.pod, state)
  }

  lemma RefundKeepsLinks(db: Db, i: Id, state: MembershipState)
    requires LinksOk(db) && Refundable(db, i, state)
    ensures LinksOk(Refund(db, i, state)) && i !in db.refunds
    ensures db.memberships[db.intents[i].membership].intent == Some(i)
    ensures db.memberships[db.intents[i].membership].state == FundedProvisional
  {
    hide LinksOk;
    var d := db.intents[i];
    AboutDeposit(db, i);
    AboutMembership(db, d.membership);
    var d', r' := d.(state := RefundPending), db.memberships[d.membership].(state := state);
    RewriteLinksAndLeg(db, i, d', r', NewRefundLeg(d));
    SameLinks(Rewrite(db, i, d', r').(refunds := db.refunds[i := NewRefundLeg(d)]), Refund(db, i, state));
  }

  lemma RefundKeepsKeys(db: Db, i: Id, state: MembershipState)
    requires i in Credited(db) && i !in db.refunds
    requires KeysOk(db.ledger, db.intents, db.refunds, db.payouts, db.run.Some?) && DistinctKeys(db.ledger)
    ensures var after := Refund(db, i, state);
            && Post(db.ledger, RefundEntry(i, db.intents[i])) == after.ledger
            && KeysOk(after.ledger, after.intents, after.refunds, after.payouts, after.run.Some?)
            && DistinctKeys(after.ledger)
  {
    hide KeysOk, DistinctKeys;
    var after := Refund(db, i, state);
    PostKeepsKeys(db.ledger, RefundEntry(i, db.intents[i]), db.intents, db.refunds, db.payouts, db.run.Some?,
                  after.intents, after.refunds, after.payouts);
  }

  lemma RefundOwedAfter(db: Db, i: Id, state: MembershipState, a: Account)
    requires LinksOk(db) && Refundable(db, i, state) && db.run.None? && a != Treasury && i !in db.refunds
    requires db.memberships[db.intents[i].membership].intent == Some(i)
    ensures Owed(Refund(db, i, state), a) == Owed(db, a) + Effect(RefundEntry(i, db.intents[i]), a)
  {
    hide LinksOk;
    if a.Participant? && a.membership in db.memberships {
      AboutMembership(db, a.membership);
    }
  }

  lemma RefundKeepsBalances(db: Db, i: Id, state: MembershipState)
    requires LinksOk(db) && BalancesOk(db) && Refundable(db, i, state) && db.run.None? && i !in db.refunds
    requires db.memberships[db.intents[i].membership].intent == Some(i)
    ensures BalancesOk(Refund(db, i, state))
  {
    hide LinksOk, Owed, Net, Effect, RefundEntry;
    var after := Refund(db, i, state);
    forall a | a != Treasury ensures Net(after.ledger, a) == Owed(after, a) {
      NetOfOne(db.ledger, RefundEntry(i, db.intents[i]), a);
      assert Net(db.ledger, a) == Owed(db, a);
      RefundOwedAfter(db, i, state, a);
    }
  }

  lemma RefundKeepsRest(db: Db, i: Id, state: MembershipState)
    requires Refundable(db, i, state) && db.run.None?
    requires db.memberships[db.intents[i].membership].state == FundedProvisional
    requires RunOk(db.pod, Roster(db.memberships), db.refunds, db.payouts, db.run)
    requires LifeOk(db.pod, Roster(db.memberships), db.occurrences, db.clock)
    requires SubmissionsOk(db.occurrences, db.memberships, db.submissions)
    ensures var after := Refund(db, i, state);
            && RunOk(after.pod, Roster(after.memberships), after.refunds, after.payouts, after.run)
            && LifeOk(after.pod, Roster(after.memberships), after.occurrences, after.clock)
            && SubmissionsOk(after.occurrences, after.memberships, after.submissions)
  {
    hide CalendarOk;
  }

  lemma RefundKeeps(db: Db, i: Id, state: MembershipState)
    requires Inv(db) && Refundable(db, i, state)
    ensures Inv(Refund(db, i, state))
    ensures i !in db.refunds && Post(db.ledger, RefundEntry(i, db.intents[i])) == Refund(db, i, state).ledger
  {
    hide LinksOk, BalancesOk, KeysOk, EntriesOk, DistinctKeys, RunOk, LifeOk, LegsOk, FrozenOk, SubmissionsOk;
    NoRunYet(db);
    RefundKeepsLinks(db, i, state);
    RefundKeepsKeys(db, i, state);
    EntriesStay(db, Refund(db, i, state), RefundEntry(i, db.intents[i]));
    RefundKeepsBalances(db, i, state);
    RefundKeepsRest(db, i, state);
  }

  lemma QueueIsRefund(db: Db, i: Id, state: MembershipState)
    requires Inv(db) && Refundable(db, i, state)
    ensures QueueRefund(db, i, Some(state)) == Refund(db, i, state)
  {
    hide Inv;
    RefundKeeps(db, i, state);
  }

  // ---------------------------------------------------------------------------------------------
  // One deposit is put on the roster.
  // ---------------------------------------------------------------------------------------------

  /** Deposit `i` applied to the roster of a proportional Pod. */
  function Lock(db: Db, i: Id): Db
    requires i in db.intents && db.intents[i].membership in db.memberships
  {
    var d := db.intents[i];
    Rewrite(db, i, d.(state := AppliedToRoster), db.memberships[d.membership].(state := RosterLocked))
  }

  predicate Lockable(db: Db, i: Id) {
    && db.pod.state == CutoffEvaluating
    && i in Credited(db)
  }

  lemma LockKeepsLinks(db: Db, i: Id)
    requires LinksOk(db) && Lockable(db, i) && db.pod.contract.mode == Proportional
    ensures LinksOk(Lock(db, i)) && i !in db.refunds
    ensures db.memberships[db.intents[i].membership].intent == Some(i)
    ensures db.memberships[db.intents[i].membership].state == FundedProvisional
  {
    hide LinksOk;
    var d := db.intents[i];
    AboutDeposit(db, i);
    AboutMembership(db, d.membership);
    RewriteLinks(db, i, d.(state := AppliedToRoster), db.memberships[d.membership].(state := RosterLocked));
  }

  lemma LockKeepsBook(db: Db, i: Id)
    requires BookOk(db) && Lockable(db, i) && i !in db.refunds
    requires db.memberships[db.intents[i].membership].intent == Some(i)
    ensures BookOk(Lock(db, i))
  {
    var after := Lock(db, i);
    forall a | a != Treasury ensures Net(after.ledger, a) == Owed(after, a) {
      assert Net(db.ledger, a) == Owed(db, a);
    }
    assert KeysOk(after.ledger, after.intents, after.refunds, after.payouts, after.run.Some?);
  }

  lemma LockKeepsRest(db: Db, i: Id)
    requires Lockable(db, i) && db.run.None?
    requires db.memberships[db.intents[i].membership].state == FundedProvisional
    requires RunOk(db.pod, Roster(db.memberships), db.refunds, db.payouts, db.run)
    requires LifeOk(db.pod, Roster(db.memberships), db.occurrences, db.clock)
    requires SubmissionsOk(db.occurrences, db.memberships, db.submissions)
    ensures var after := Lock(db, i);
            && RunOk(after.pod, Roster(after.memberships), after.refunds, after.payouts, after.run)
            && LifeOk(after.pod, Roster(after.memberships), after.occurrences, after.clock)
            && SubmissionsOk(after.occurrences, after.memberships, after.submissions)
  {
    hide CalendarOk;
  }

  lemma LockKeeps(db: Db, i: Id)
    requires Inv(db) && Lockable(db, i) && db.pod.contract.mode == Proportional
    ensures Inv(Lock(db, i))
  {
    hide LinksOk, BookOk, RunOk, LifeOk, LegsOk, FrozenOk, SubmissionsOk;
    NoRunYet(db);
    LockKeepsLinks(db, i);
    LockKeepsBook(db, i);
    LockKeepsRest(db, i);
  }

  /** The membership of a credited deposit points to it and waits as funded. */
  lemma CreditedMember(db: Db, i: Id)
    requires Inv(db) && i in Credited(db)
    ensures db.memberships[db.intents[i].membership].intent == Some(i)
    ensures db.memberships[db.intents[i].membership].state == FundedProvisional
    ensures i !in db.refunds && BeforeLock(db.pod.state)
  {
    hide Inv, LinksOk;
    HasLinks(db);
    AboutDeposit(db, i);
  }

  /** One turn of the first loop is a lock in a proportional Pod, a refund with a roster seat in an alpha Pod. */
  lemma IncludeKeeps(db: Db, i: Id)
    requires Inv(db) && Lockable(db, i)
    ensures Include(db, i) == if db.pod.contract.mode == Proportional then Lock(db, i) else Refund(db, i, RosterLocked)
    ensures Inv(Include(db, i))
  {
    hide Inv;
    if db.pod.contract.mode == Proportional {
      LockKeeps(db, i);
    } else {
      RefundKeeps(db, i, RosterLocked);
      CreditedMember(db, i);
      IncludeIsRefund(db, i);
    }
  }

  lemma IncludeIsRefund(db: Db, i: Id)
    requires i in Credited(db) && db.pod.contract.mode == FullRefundAlpha && i !in db.refunds
    requires Post(db.ledger, RefundEntry(i, db.intents[i])) == Refund(db, i, RosterLocked).ledger
    ensures Include(db, i) == Refund(db, i, RosterLocked)
  {
    var d := db.intents[i];
    assert RefundEntry(i, d.(state := AppliedToRoster)) == RefundEntry(i, d);
    assert NewRefundLeg(d.(state := AppliedToRoster)) == NewRefundLeg(d);
    assert db.intents[i := d.(state := AppliedToRoster)][i := d.(state := RefundPending)]
        == db.intents[i := d.(state := RefundPending)];
  }

  // ---------------------------------------------------------------------------------------------
  // The loops, and the fate of every deposit.
  // ---------------------------------------------------------------------------------------------

  predicate Names(db: Db, list: seq<Id>, n: Id)
    requires Listed(db, list)
  {
    exists i :: i in list && db.intents[i].membership == n
  }

  /** A list of deposits of different memberships. */
  predicate Apart(db: Db, list: seq<Id>)
    requires Listed(db, list)
  {
    forall j, k | 0 <= j < k < |list| ::
      list[j] != list[k] && db.intents[list[j]].membership != db.intents[list[k]].membership
  }

  /** Exactly the listed deposits and their memberships moved, to these states; with `refunded` each gained a
      queued refund leg for its full amount. */
  predicate Fated(db: Db, after: Db, list: seq<Id>, d: DepositState, r: MembershipState, refunded: bool)
    requires Listed(db, list)
  {
    && SameRows(db, after)
    && (forall i | i in db.intents ::
          after.intents[i] == if i in list then db.intents[i].(state := d) else db.intents[i])
    && (forall n | n in db.memberships ::
          after.memberships[n] == if Names(db, list, n) then db.memberships[n].(state := r) else db.memberships[n])
    && after.refunds == (if refunded then db.refunds + LegsFor(db.intents, list) else db.refunds)
    && after.ledger == (if refunded then db.ledger + EntriesFor(db.intents, list) else db.ledger)
  }

  /** The entries of the refunds, in order. */
  function EntriesFor(intents: map<Id, Intent>, list: seq<Id>): Book
    requires forall i | i in list :: i in intents
  {
    seq(|list|, j requires 0 <= j < |list| =>
      assert list[j] in list;
      RefundEntry(list[j], intents[list[j]]))
  }

  function LegsFor(intents: map<Id, Intent>, list: seq<Id>): map<Id, RefundLeg>
    requires forall i | i in list :: i in intents
  {
    map i | i in list :: NewRefundLeg(intents[i])
  }

  lemma FatedStep(db: Db, mid: Db, after: Db, list: seq<Id>, d: DepositState, r: MembershipState, refunded: bool)
    requires list != [] && Listed(db, list) && Apart(db, list)
    requires list[0] in list && Listed(db, [list[0]]) && Fated(db, mid, [list[0]], d, r, refunded)
    requires Listed(mid, list[1..]) && Fated(mid, after, list[1..], d, r, refunded)
    ensures Fated(db, after, list, d, r, refunded)
  {
    hide Fated;
    FatedIntents(db, mid, after, list, d, r, refunded);
    FatedMemberships(db, mid, after, list, d, r, refunded);
    FatedRefunds(db, mid, after, list, d, r, refunded);
    FatedLedger(db, mid, after, list, d, r, refunded);
    FatedIs(db, mid, after, list, d, r, refunded);
  }

  lemma FatedIs(db: Db, mid: Db, after: Db, list: seq<Id>, d: DepositState, r: MembershipState, refunded: bool)
    requires list != [] && Listed(db, list) && Listed(db, [list[0]]) && Listed(mid, list[1..])
    requires Fated(db, mid, [list[0]], d, r, refunded) && Fated(mid, after, list[1..], d, r, refunded)
    requires forall i | i in db.intents ::
               after.intents[i] == if i in list then db.intents[i].(state := d) else db.intents[i]
    requires forall n | n in db.memberships ::
               after.memberships[n] == if Names(db, list, n) then db.memberships[n].(state := r) else db.memberships[n]
    requires after.refunds == if refunded then db.refunds + LegsFor(db.intents, list) else db.refunds
    requires after.ledger == if refunded then db.ledger + EntriesFor(db.intents, list) else db.ledger
    ensures Fated(db, after, list, d, r, refunded)
  {
    hide Names, LegsFor, EntriesFor;
  }

  lemma FatedLedger(db: Db, mid: Db, after: Db, list: seq<Id>, d: DepositState, r: MembershipState, refunded: bool)
    requires list != [] && Listed(db, list) && Apart(db, list) && Listed(db, [list[0]]) && Listed(mid, list[1..])
    requires Fated(db, mid, [list[0]], d, r, refunded) && Fated(mid, after, list[1..], d, r, refunded)
    ensures after.ledger == if refunded then db.ledger + EntriesFor(db.intents, list) else db.ledger
  {
    hide Apart, Fated, EntriesFor;
    FirstIsApart(db, list);
    FatedLegs(db, mid, [list[0]], d, r, refunded);
    FatedBook(db, mid, [list[0]], d, r, refunded);
    FatedBook(mid, after, list[1..], d, r, refunded);
    if refunded {
      var first, rest := EntriesFor(db.intents, [list[0]]), EntriesFor(mid.intents, list[1..]);
      assert list[..1] == [list[0]];
      EntriesSplit(db.intents, mid.intents, list, 1);
      assert (db.ledger + first) + rest == db.ledger + (first + rest);
    }
  }

  lemma FatedBook(db: Db, after: Db, list: seq<Id>, d: DepositState, r: MembershipState, refunded: bool)
    requires Listed(db, list) && Fated(db, after, list, d, r, refunded)
    ensures after.ledger == if refunded then db.ledger + EntriesFor(db.intents, list) else db.ledger
  {
    hide Names, LegsFor, EntriesFor;
  }

  /** The entries of a list are those of its two parts; only owner and amount of a deposit matter. */
  lemma EntriesSplit(intents: map<Id, Intent>, mid: map<Id, Intent>, list: seq<Id>, k: nat)
    requires k <= |list| && (forall i | i in list :: i in intents) && (forall i | i in list[k..] :: i in mid)
    requires forall i | i in list[k..] ::
               i in intents && mid[i].membership == intents[i].membership && mid[i].amount == intents[i].amount
    ensures forall i | i in list[..k] :: i in intents
    ensures EntriesFor(intents, list[..k]) + EntriesFor(mid, list[k..]) == EntriesFor(intents, list)
  {
    assert forall j | 0 <= j < k :: list[..k][j] == list[j] && list[j] in list;
    assert forall j | k <= j < |list| :: list[k..][j - k] == list[j] && list[j] in list[k..];
    assert forall i | i in list[..k] :: i in list;
  }

  /** Distinct deposits: the first is not among the rest. */
  lemma FirstIsApart(db: Db, list: seq<Id>)
    requires list != [] && Listed(db, list) && Apart(db, list)
    ensures list[0] !in list[1..]
    ensures forall i :: i in list <==> i == list[0] || i in list[1..]
  {
    assert list == [list[0]] + list[1..];
    forall k | 0 <= k < |list| - 1 ensures list[1..][k] != list[0] {
      assert list[1..][k] == list[k + 1];
    }
  }

  lemma FatedIntents(db: Db, mid: Db, after: Db, list: seq<Id>, d: DepositState, r: MembershipState, refunded: bool)
    requires list != [] && Listed(db, list) && Apart(db, list) && Listed(db, [list[0]]) && Listed(mid, list[1..])
    requires Fated(db, mid, [list[0]], d, r, refunded) && Fated(mid, after, list[1..], d, r, refunded)
    ensures after.intents.Keys == db.intents.Keys
    ensures forall i | i in db.intents ::
              after.intents[i] == if i in list then db.intents[i].(state := d) else db.intents[i]
  {
    hide Apart, Names, LegsFor;
    FirstIsApart(db, list);
  }

  lemma FatedMemberships(db: Db, mid: Db, after: Db, list: seq<Id>, d: DepositState, r: MembershipState,
                         refunded: bool)
    requires list != [] && Listed(db, list) && Apart(db, list) && Listed(db, [list[0]]) && Listed(mid, list[1..])
    requires Fated(db, mid, [list[0]], d, r, refunded) && Fated(mid, after, list[1..], d, r, refunded)
    ensures after.memberships.Keys == db.memberships.Keys
    ensures forall n | n in db.memberships ::
              after.memberships[n] == if Names(db, list, n) then db.memberships[n].(state := r) else db.memberships[n]
  {
    hide Apart, Names, LegsFor;
    assert list[0] in list;
    forall n | n in db.memberships
      ensures after.memberships[n] == if Names(db, list, n) then db.memberships[n].(state := r) else db.memberships[n]
    {
      FatedMember(db, mid, list, n);
    }
  }

  lemma FatedRefunds(db: Db, mid: Db, after: Db, list: seq<Id>, d: DepositState, r: MembershipState, refunded: bool)
    requires list != [] && Listed(db, list) && Apart(db, list) && Listed(db, [list[0]]) && Listed(mid, list[1..])
    requires Fated(db, mid, [list[0]], d, r, refunded) && Fated(mid, after, list[1..], d, r, refunded)
    ensures after.refunds == if refunded then db.refunds + LegsFor(db.intents, list) else db.refunds
  {
    hide Apart, Names, LegsFor, Fated;
    FirstIsApart(db, list);
    FatedLegs(db, mid, [list[0]], d, r, refunded);
    FatedLegs(mid, after, list[1..], d, r, refunded);
    if refunded {
      LegsSplit(db.intents, mid.intents, list);
      var first, rest := LegsFor(db.intents, [list[0]]), LegsFor(mid.intents, list[1..]);
      assert (db.refunds + first) + rest == db.refunds + (first + rest);
    }
  }

  lemma FatedLegs(db: Db, after: Db, list: seq<Id>, d: DepositState, r: MembershipState, refunded: bool)
    requires Listed(db, list) && Fated(db, after, list, d, r, refunded)
    ensures after.refunds == if refunded then db.refunds + LegsFor(db.intents, list) else db.refunds
    ensures forall i | i in db.intents && i !in list :: i in after.intents && after.intents[i] == db.intents[i]
  {
  }

  lemma LegsSplit(intents: map<Id, Intent>, mid: map<Id, Intent>, list: seq<Id>)
    requires list != [] && (forall i | i in list :: i in intents) && (forall i | i in list[1..] :: i in mid)
    requires forall i :: i in list <==> i == list[0] || i in list[1..]
    requires forall i | i in list[1..] :: i in intents && mid[i] == intents[i] && i != list[0]
    ensures LegsFor(intents, [list[0]]) + LegsFor(mid, list[1..]) == LegsFor(intents, list)
  {
  }

  lemma FatedMember(db: Db, mid: Db, list: seq<Id>, n: Id)
    requires list != [] && Listed(db, list) && Apart(db, list) && SameRows(db, mid)
    requires list[0] in list && Listed(db, [list[0]]) && Listed(mid, list[1..])
    ensures Names(db, list, n) <==> Names(db, [list[0]], n) || Names(mid, list[1..], n)
    ensures !(Names(db, [list[0]], n) && Names(mid, list[1..], n))
  {
    assert list == [list[0]] + list[1..];
    if Names(db, list, n) {
      var i :| i in list && db.intents[i].membership == n;
      assert i == list[0] || i in list[1..];
    }
    if Names(mid, list[1..], n) {
      var i :| i in list[1..] && mid.intents[i].membership == n;
      var k :| 0 <= k < |list[1..]| && list[1..][k] == i;
      assert list[k + 1] == i;
    }
    if Names(db, [list[0]], n) {
      assert db.intents[list[0]].membership == n;
    }
  }

  lemma RefundFates(db: Db, i: Id, state: MembershipState)
    requires i in Credited(db) && i !in db.refunds
    ensures Listed(db, [i]) && Fated(db, Refund(db, i, state), [i], RefundPending, state, true)
  {
    hide Names, RefundEntry;
    NamesOne(db, i);
    assert LegsFor(db.intents, [i]) == map[i := NewRefundLeg(db.intents[i])];
    assert EntriesFor(db.intents, [i]) == [RefundEntry(i, db.intents[i])];
  }

  lemma NamesOne(db: Db, i: Id)
    requires Listed(db, [i])
    ensures i in db.intents && forall n :: Names(db, [i], n) <==> n == db.intents[i].membership
  {
    assert i in [i];
  }

  lemma LockFates(db: Db, i: Id)
    requires i in Credited(db)
    ensures Listed(db, [i]) && Fated(db, Lock(db, i), [i], AppliedToRoster, RosterLocked, false)
  {
    hide Names;
    NamesOne(db, i);
  }

  /** Credited deposits belong to different memberships. */
  lemma CreditedApart(db: Db, list: seq<Id>)
    requires Inv(db) && forall i | i in list :: i in Credited(db)
    requires forall j, k | 0 <= j < k < |list| :: list[j] != list[k]
    ensures Listed(db, list) && Apart(db, list)
  {
    hide Inv;
    assert forall j | 0 <= j < |list| :: list[j] in list;
    forall j, k | 0 <= j < k < |list|
      ensures db.intents[list[j]].membership != db.intents[list[k]].membership
    {
      CreditedMember(db, list[j]);
      CreditedMember(db, list[k]);
    }
  }

  /** Deposits the first turn did not touch are still credited. */
  lemma StillCredited(db: Db, mid: Db, list: seq<Id>, d: DepositState, r: MembershipState, refunded: bool)
    requires list != [] && (forall i | i in list :: i in Credited(db))
    requires forall j, k | 0 <= j < k < |list| :: list[j] != list[k]
    requires Listed(db, [list[0]]) && Fated(db, mid, [list[0]], d, r, refunded)
    ensures forall i | i in list[1..] :: i in Credited(mid)
    ensures forall j, k | 0 <= j < k < |list[1..]| :: list[1..][j] != list[1..][k]
  {
    forall i | i in list[1..] ensures i in Credited(mid) {
      var k :| 0 <= k < |list[1..]| && list[1..][k] == i;
      assert list[k + 1] == i && i in list;
    }
  }

  lemma {:induction false} RefundAllKeeps(db: Db, list: seq<Id>, state: MembershipState)
    requires Inv(db) && BeforeLock(db.pod.state) && RefundState(db.pod, state) && state != RosterLocked
    requires forall i | i in list :: i in Credited(db)
    requires forall j, k | 0 <= j < k < |list| :: list[j] != list[k]
    ensures Listed(db, list) && Inv(RefundAll(db, list, state))
    ensures Fated(db, RefundAll(db, list, state), list, RefundPending, state, true)
    decreases |list|
  {
    hide Inv, Fated, QueueRefund, Refund;
    CreditedApart(db, list);
    if list == [] {
      NothingFated(db, RefundPending, state);
    } else {
      var i, rest := list[0], list[1..];
      assert i in list;
      var mid := Refund(db, i, state);
      RefundKeeps(db, i, state);
      QueueIsRefund(db, i, state);
      RefundFates(db, i, state);
      StillCredited(db, mid, list, RefundPending, state, true);
      FatedPod(db, mid, [i], RefundPending, state, true);
      RefundAllKeeps(mid, rest, state);
      FatedStep(db, mid, RefundAll(mid, rest, state), list, RefundPending, state, true);
    }
  }

  lemma NothingFated(db: Db, d: DepositState, r: MembershipState)
    ensures Fated(db, db, [], d, r, true) && Fated(db, db, [], d, r, false)
  {
    assert db.refunds + LegsFor(db.intents, []) == db.refunds;
    assert db.ledger + EntriesFor(db.intents, []) == db.ledger;
  }

  lemma FatedPod(db: Db, after: Db, list: seq<Id>, d: DepositState, r: MembershipState, refunded: bool)
    requires Listed(db, list) && Fated(db, after, list, d, r, refunded)
    ensures SameRows(db, after)
  {
  }

  lemma {:induction false} IncludeAllKeeps(db: Db, list: seq<Id>)
    requires Inv(db) && db.pod.state == CutoffEvaluating
    requires forall i | i in list :: i in Credited(db)
    requires forall j, k | 0 <= j < k < |list| :: list[j] != list[k]
    ensures Listed(db, list) && Inv(IncludeAll(db, list))
    ensures var alpha := db.pod.contract.mode == FullRefundAlpha;
            Fated(db, IncludeAll(db, list), list, if alpha then RefundPending else AppliedToRoster, RosterLocked, alpha)
    decreases |list|
  {
    hide Inv, Fated, Include, Refund, Lock;
    CreditedApart(db, list);
    var alpha := db.pod.contract.mode == FullRefundAlpha;
    var d := if alpha then RefundPending else AppliedToRoster;
    if list == [] {
      NothingFated(db, d, RosterLocked);
    } else {
      var i, rest := list[0], list[1..];
      assert i in list;
      var mid := Include(db, i);
      CreditedMember(db, i);
      IncludeKeeps(db, i);
      RefundFates(db, i, RosterLocked);
      LockFates(db, i);
      StillCredited(db, mid, list, d, RosterLocked, alpha);
      FatedPod(db, mid, [i], d, RosterLocked, alpha);
      IncludeAllKeeps(mid, rest);
      FatedStep(db, mid, IncludeAll(mid, rest), list, d, RosterLocked, alpha);
    }
  }
}
