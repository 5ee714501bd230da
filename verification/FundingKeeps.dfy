/** The funding transactions keep the invariants. */
module FundingKeeps {
  import opened Basics
  import opened Ledger
  import opened Rows
  import opened Funding
  import opened Invariants
  import L = PayoutLegs

  /** A roster only depends on who is on it. */
  lemma SameRoster(before: map<Id, Membership>, after: map<Id, Membership>)
    requires before.Keys <= after.Keys
    requires forall m | m in before :: OnRoster(before[m].state) <==> OnRoster(after[m].state)
    requires forall m | m in after && m !in before :: !OnRoster(after[m].state)
    ensures Roster(before) == Roster(after)
  {
  }

  /** A step that changes a deposit whose money has not arrived, and possibly its membership. */
  predicate Unfunded(before: Db, after: Db) {
    && after == before.(intents := after.intents, memberships := after.memberships)
    && before.intents.Keys <= after.intents.Keys
    && before.memberships.Keys <= after.memberships.Keys
    && (forall i | i in before.intents && after.intents[i] != before.intents[i] ::
          !Funded(before.intents[i].state) && !Funded(after.intents[i].state))
    && (forall i | i in after.intents && i !in before.intents :: !Funded(after.intents[i].state))
    && (forall m | m in before.memberships && after.memberships[m] != before.memberships[m] ::
          NotYetFunded(before, m) && NotYetFunded(after, m))
    && (forall m | m in after.memberships && m !in before.memberships :: NotYetFunded(after, m))
  }

  /** A membership with no money behind it. */
  predicate NotYetFunded(db: Db, m: Id)
    requires m in db.memberships
  {
    && db.memberships[m].state !in {FundedProvisional, RosterLocked, MemberActive}
    && HeldFor(db.memberships, db.intents, false, m) == 0
  }

  lemma UnfundedKeepsKeys(before: Db, after: Db)
    requires KeysOk(before.ledger, before.intents, before.refunds, before.payouts, before.run.Some?)
    requires Unfunded(before, after)
    ensures KeysOk(after.ledger, after.intents, after.refunds, after.payouts, after.run.Some?)
  {
    forall k | !SettlementKey(k)
      ensures Due(k, before.intents, before.refunds, before.payouts)
         <==> Due(k, after.intents, after.refunds, after.payouts)
    {
    }
  }

  lemma UnfundedKeepsEntries(before: Db, after: Db)
    requires KeysOk(before.ledger, before.intents, before.refunds, before.payouts, before.run.Some?)
    requires EntriesOk(before.ledger, before.intents, before.refunds, before.payouts) && Unfunded(before, after)
    ensures EntriesOk(after.ledger, after.intents, after.refunds, after.payouts)
  {
    hide NotYetFunded;
    forall e | e in after.ledger ensures EntryOk(e, after.intents, after.refunds, after.payouts) {
      assert EntryOk(e, before.intents, before.refunds, before.payouts);
      if e.key.DepositCredit? {
        assert e.key in Keys(before.ledger);
        assert Due(e.key, before.intents, before.refunds, before.payouts);
      }
    }
  }

  lemma UnfundedKeepsBalances(before: Db, after: Db)
    requires LinksOk(before) && BalancesOk(before) && Unfunded(before, after)
    ensures BalancesOk(after)
  {
    forall a | a != Treasury ensures Net(after.ledger, a) == Owed(after, a) {
      assert Net(before.ledger, a) == Owed(before, a);
      if a.Participant? && a.membership in before.memberships {
        UnfundedKeepsHeld(before, after, a.membership);
      }
    }
  }

  lemma UnfundedKeepsHeld(before: Db, after: Db, m: Id)
    requires LinksOk(before) && Unfunded(before, after) && m in before.memberships
    ensures HeldFor(after.memberships, after.intents, after.run.Some?, m)
         == HeldFor(before.memberships, before.intents, before.run.Some?, m)
  {
    hide LinksOk;
    AboutMembership(before, m);
    if after.memberships[m] == before.memberships[m] && before.memberships[m].intent.Some? {
      var i := before.memberships[m].intent.value;
      assert i in before.intents;
    }
  }

  lemma UnfundedKeepsRest(before: Db, after: Db)
    requires RunOk(before.pod, Roster(before.memberships), before.refunds, before.payouts, before.run)
    requires LifeOk(before.pod, Roster(before.memberships), before.occurrences, before.clock)
    requires SubmissionsOk(before.occurrences, before.memberships, before.submissions)
    requires Unfunded(before, after)
    ensures RunOk(after.pod, Roster(after.memberships), after.refunds, after.payouts, after.run)
    ensures LifeOk(after.pod, Roster(after.memberships), after.occurrences, after.clock)
    ensures SubmissionsOk(after.occurrences, after.memberships, after.submissions)
  {
    hide RunOk, LifeOk;
    SameRoster(before.memberships, after.memberships);
  }

  lemma UnfundedKeeps(before: Db, after: Db)
    requires Inv(before) && Unfunded(before, after) && LinksOk(after)
    ensures Inv(after)
  {
    hide LinksOk, BalancesOk, KeysOk, EntriesOk, DistinctKeys, RunOk, LifeOk, SubmissionsOk, LegsOk, FrozenOk;
    UnfundedKeepsKeys(before, after);
    UnfundedKeepsEntries(before, after);
    UnfundedKeepsBalances(before, after);
    UnfundedKeepsRest(before, after);
  }

  // ---------------------------------------------------------------------------------------------
  // One deposit row and its membership row change together.
  // ---------------------------------------------------------------------------------------------

  /** A rejected deposit does not care what its membership does next. */
  lemma RejectedFits(pod: Pod, opensAt: Time, j: Id, d: Intent, r: Membership, r': Membership, leg: Option<RefundLeg>)
    requires d.state == WalletRejected && r.user == r'.user
    requires DepositFits(pod, opensAt, j, d, r, leg)
    ensures DepositFits(pod, opensAt, j, d, r', leg)
  {
  }

  lemma MoveKeepsDeposits(pod: Pod, opensAt: Time, memberships: map<Id, Membership>, intents: map<Id, Intent>,
                          refunds: map<Id, RefundLeg>, i: Id, d: Intent, r: Membership, refunds': map<Id, RefundLeg>)
    requires DepositsOk(pod, opensAt, memberships, intents, refunds)
    requires d.membership in memberships && r.user == memberships[d.membership].user
    requires memberships[d.membership].intent in {None, Some(i)}
    requires forall j | j != i :: LegOf(refunds', j) == LegOf(refunds, j)
    requires DepositFits(pod, opensAt, i, d, r, LegOf(refunds', i))
    ensures DepositsOk(pod, opensAt, memberships[d.membership := r], intents[i := d], refunds')
  {
    forall j | j in intents && j != i && intents[j].membership == d.membership
      ensures DepositFits(pod, opensAt, j, intents[j], r, LegOf(refunds', j))
    {
      RejectedFits(pod, opensAt, j, intents[j], memberships[d.membership], r, LegOf(refunds, j));
    }
  }

  lemma MoveKeepsMemberships(pod: Pod, memberships: map<Id, Membership>, intents: map<Id, Intent>,
                             i: Id, d: Intent, r: Membership)
    requires MembershipsOk(pod, memberships, intents)
    requires i in intents ==> intents[i].membership == d.membership
    requires MembershipFits(pod, d.membership, r, IntentOf(intents[i := d], r.intent))
    ensures MembershipsOk(pod, memberships[d.membership := r], intents[i := d])
  {
    forall n | n in memberships && n != d.membership
      ensures MembershipFits(pod, n, memberships[n], IntentOf(intents[i := d], memberships[n].intent))
    {
      assert MembershipFits(pod, n, memberships[n], IntentOf(intents, memberships[n].intent));
      assert memberships[n].intent != Some(i);
    }
  }

  lemma MoveKeepsHashes(db: Db, i: Id, d: Intent)
    requires HashesOk(db.intents)
    requires d.hash.None? || !HashTaken(db, i, d.hash.value)
    ensures HashesOk(db.intents[i := d])
  {
  }

  /** The rows after deposit `i` and the membership it belongs to were written. */
  function Rewrite(db: Db, i: Id, d: Intent, r: Membership): Db {
    db.(intents := db.intents[i := d], memberships := db.memberships[d.membership := r])
  }

  lemma RewriteLinks(db: Db, i: Id, d: Intent, r: Membership)
    requires LinksOk(db) && d.membership in db.memberships
    requires i in db.intents ==> db.intents[i].membership == d.membership
    requires r.user == db.memberships[d.membership].user
    requires db.memberships[d.membership].intent in {None, Some(i)}
    requires DepositFits(db.pod, db.occurrences[0].opensAt, i, d, r, LegOf(db.refunds, i))
    requires MembershipFits(db.pod, d.membership, r, IntentOf(db.intents[i := d], r.intent))
    requires d.hash.None? || !HashTaken(db, i, d.hash.value)
    ensures LinksOk(Rewrite(db, i, d, r))
  {
    MoveKeepsDeposits(db.pod, db.occurrences[0].opensAt, db.memberships, db.intents, db.refunds, i, d, r, db.refunds);
    MoveKeepsMemberships(db.pod, db.memberships, db.intents, i, d, r);
    MoveKeepsHashes(db, i, d);
  }

  /** The same when the deposit's refund leg is written, too. */
  lemma RewriteLinksAndLeg(db: Db, i: Id, d: Intent, r: Membership, leg: RefundLeg)
    requires LinksOk(db) && i in db.intents && d.membership in db.memberships
    requires db.intents[i].membership == d.membership
    requires r.user == db.memberships[d.membership].user
    requires db.memberships[d.membership].intent in {None, Some(i)}
    requires DepositFits(db.pod, db.occurrences[0].opensAt, i, d, r, Some(leg))
    requires MembershipFits(db.pod, d.membership, r, IntentOf(db.intents[i := d], r.intent))
    requires d.hash.None? || !HashTaken(db, i, d.hash.value)
    ensures LinksOk(Rewrite(db, i, d, r).(refunds := db.refunds[i := leg]))
  {
    MoveKeepsDeposits(db.pod, db.occurrences[0].opensAt, db.memberships, db.intents, db.refunds, i, d, r,
                      db.refunds[i := leg]);
    MoveKeepsMemberships(db.pod, db.memberships, db.intents, i, d, r);
    MoveKeepsHashes(db, i, d);
  }

  /** What the rows say about one deposit. */
  lemma AboutDeposit(db: Db, i: Id)
    requires LinksOk(db) && i in db.intents
    ensures db.intents[i].membership in db.memberships
    ensures DepositFits(db.pod, db.occurrences[0].opensAt, i, db.intents[i],
                        db.memberships[db.intents[i].membership], LegOf(db.refunds, i))
    ensures db.intents[i].hash.None? || !HashTaken(db, i, db.intents[i].hash.value)
  {
  }

  /** What the rows say about one membership. */
  lemma AboutMembership(db: Db, m: Id)
    requires LinksOk(db) && m in db.memberships
    ensures MembershipFits(db.pod, m, db.memberships[m], IntentOf(db.intents, db.memberships[m].intent))
  {
  }

  lemma NewDepositHasNoLeg(db: Db, i: Id)
    requires LinksOk(db) && i !in db.intents
    ensures i !in db.refunds
  {
  }

  /** Links only concern these rows. */
  lemma SameLinks(before: Db, after: Db)
    requires LinksOk(before)
    requires after.pod == before.pod && after.occurrences == before.occurrences
    requires after.memberships == before.memberships && after.intents == before.intents
    requires after.refunds == before.refunds
    ensures LinksOk(after)
  {
  }

  lemma HasLinks(db: Db)
    requires Inv(db)
    ensures LinksOk(db) && db.occurrences != []
  {
    hide BookOk, RunOk, LifeOk, SubmissionsOk, LegsOk, FrozenOk;
  }

  /** Every account holds what the rows say it should. */
  lemma AboutBalance(db: Db, a: Account)
    requires Inv(db) && a != Treasury
    ensures Net(db.ledger, a) == Owed(db, a)
  {
    hide LinksOk, KeysOk, EntriesOk, DistinctKeys, RunOk, LifeOk, SubmissionsOk, LegsOk, FrozenOk, Owed, Net;
  }

  /** A membership outside the funded states has no money behind it. */
  lemma OwnsNothing(db: Db, m: Id)
    requires LinksOk(db) && m in db.memberships
    requires db.memberships[m].state !in {FundedProvisional, RosterLocked, MemberActive}
    ensures NotYetFunded(db, m)
  {
    hide LinksOk;
    AboutMembership(db, m);
    if db.memberships[m].intent.Some? {
      AboutDeposit(db, db.memberships[m].intent.value);
    }
  }

  /** A rewrite of a deposit whose money has not arrived. */
  lemma RewriteKeeps(db: Db, i: Id, d: Intent, r: Membership)
    requires Inv(db) && LinksOk(db) && LinksOk(Rewrite(db, i, d, r)) && d.membership in db.memberships
    requires i in db.intents ==> !Funded(db.intents[i].state)
    requires !Funded(d.state)
    requires r == db.memberships[d.membership]
             || (&& r.state !in {FundedProvisional, RosterLocked, MemberActive}
                 && db.memberships[d.membership].state !in {FundedProvisional, RosterLocked, MemberActive})
    ensures Inv(Rewrite(db, i, d, r))
  {
    hide Inv, LinksOk;
    var after := Rewrite(db, i, d, r);
    if r != db.memberships[d.membership] {
      OwnsNothing(db, d.membership);
      OwnsNothing(after, d.membership);
    }
    UnfundedKeeps(db, after);
  }

  /** A deposit whose money has not arrived moves on; its membership stays. */
  lemma MoveIntentKeeps(db: Db, i: Id, d: Intent)
    requires Inv(db) && i in db.intents
    requires !Funded(db.intents[i].state) && !Funded(d.state)
    requires db.intents[i].state != WalletRejected && d.state != WalletRejected
    requires d == db.intents[i].(state := d.state, hash := d.hash, block := d.block, index := d.index,
                                 finalizedAt := d.finalizedAt, exception := d.exception)
    requires d.state in {Observed, Finalized} ==> d.hash.Some? && d.block.Some? && d.index.Some?
    requires d.state == Finalized ==> d.finalizedAt.Some?
    requires d.hash == db.intents[i].hash || (d.hash.Some? && !HashTaken(db, i, d.hash.value))
    ensures Inv(MoveIntent(db, i, d))
  {
    hide Inv, LinksOk;
    HasLinks(db);
    AboutDeposit(db, i);
    AboutMembership(db, d.membership);
    var r := db.memberships[d.membership];
    RewriteLinks(db, i, d, r);
    RewriteKeeps(db, i, d, r);
    assert db.memberships[d.membership := r] == db.memberships;
  }

  /** An observed or finalized deposit carries its chain position. */
  lemma ChainData(db: Db, i: Id)
    requires Inv(db) && i in db.intents && db.intents[i].state in {Observed, Finalized}
    ensures db.intents[i].hash.Some? && db.intents[i].block.Some? && db.intents[i].index.Some?
  {
    hide Inv, LinksOk;
    HasLinks(db);
    AboutDeposit(db, i);
  }

  /** A membership row of somebody without money is written; its deposit pointer stays. */
  lemma MemberRowKeepsLinks(db: Db, m: Id, r: Membership)
    requires LinksOk(db) && m != EMPTY_ID && r.user != db.pod.creator
    requires r.state in {Applied, AcceptedUnfunded, ApplicationRejected}
    requires if m in db.memberships then r == db.memberships[m].(state := r.state) && db.memberships[m].state == Applied
             else r.intent.None?
    ensures LinksOk(db.(memberships := db.memberships[m := r]))
  {
    hide LinksOk;
    var after := db.(memberships := db.memberships[m := r]);
    HasFirst(db);
    forall i | i in after.intents
      ensures after.intents[i].membership in after.memberships
      ensures DepositFits(after.pod, after.occurrences[0].opensAt, i, after.intents[i],
                          after.memberships[after.intents[i].membership], LegOf(after.refunds, i))
    {
      AboutDeposit(db, i);
    }
    forall n | n in after.memberships
      ensures MembershipFits(after.pod, n, after.memberships[n],
                             IntentOf(after.intents, after.memberships[n].intent))
    {
      if n in db.memberships { AboutMembership(db, n); }
    }
    LinksFromRows(db, after);
  }

  lemma MemberRowKeeps(db: Db, m: Id, r: Membership)
    requires Inv(db) && m != EMPTY_ID && r.user != db.pod.creator
    requires r.state in {Applied, AcceptedUnfunded, ApplicationRejected}
    requires if m in db.memberships then r == db.memberships[m].(state := r.state) && db.memberships[m].state == Applied
             else r.intent.None?
    ensures Inv(db.(memberships := db.memberships[m := r]))
  {
    hide Inv, LinksOk, NotYetFunded;
    HasLinks(db);
    MemberRowKeepsLinks(db, m, r);
    var after := db.(memberships := db.memberships[m := r]);
    if m in db.memberships { OwnsNothing(db, m); }
    OwnsNothing(after, m);
    UnfundedKeeps(db, after);
  }

  lemma JoinKeeps(db: Db, now: Time, m: Id, user: Id, invited: bool)
    requires Inv(db)
    ensures Inv(Join(db, now, m, user, invited).db)
  {
    hide Inv, EnrollmentRuns;
    var after := Join(db, now, m, user, invited).db;
    if after != db {
      MemberRowKeeps(db, m, after.memberships[m]);
    }
  }

  lemma DecideApplicationKeeps(db: Db, m: Id, accept: bool)
    requires Inv(db)
    ensures Inv(DecideApplication(db, m, accept).db)
  {
    hide Inv, LinksOk;
    var after := DecideApplication(db, m, accept).db;
    if after != db {
      HasLinks(db);
      AboutMembership(db, m);
      MemberRowKeeps(db, m, after.memberships[m]);
    }
  }

  lemma CreateIntentKeeps(db: Db, now: Time, m: Id, i: Id, hash: Option<Id>, disclosed: bool, accepted: bool)
    requires Inv(db)
    ensures Inv(CreateIntent(db, now, m, i, hash, disclosed, accepted).db)
  {
    var after := CreateIntent(db, now, m, i, hash, disclosed, accepted).db;
    hide Inv, LinksOk;
    HasLinks(db);
    if after != db {
      AboutMembership(db, m);
      NewDepositHasNoLeg(db, i);
      RewriteLinks(db, i, after.intents[i], after.memberships[m]);
      RewriteKeeps(db, i, after.intents[i], after.memberships[m]);
    }
  }

  lemma WalletRejectKeeps(db: Db, i: Id)
    requires Inv(db) && i in db.intents && db.intents[i].state == WalletApprovalPending
    ensures Inv(WalletAttempt(db, i, false).db)
  {
    hide Inv, LinksOk;
    HasLinks(db);
    var d := db.intents[i];
    AboutDeposit(db, i);
    AboutMembership(db, d.membership);
    var d' := d.(state := WalletRejected);
    var r' := db.memberships[d.membership].(intent := None, state := FundingFailed);
    RewriteLinks(db, i, d', r');
    RewriteKeeps(db, i, d', r');
  }

  lemma WalletAttemptKeeps(db: Db, i: Id, open: bool)
    requires Inv(db)
    ensures Inv(WalletAttempt(db, i, open).db)
  {
    hide Inv;
    if i in db.intents {
      if open && db.intents[i].state == IntentCreated {
        MoveIntentKeeps(db, i, db.intents[i].(state := WalletApprovalPending));
      } else if !open && db.intents[i].state == WalletApprovalPending {
        WalletRejectKeeps(db, i);
      }
    }
  }

  lemma TransactionHintKeeps(db: Db, i: Id, hash: Id)
    requires Inv(db)
    ensures Inv(TransactionHint(db, i, hash).db)
  {
    hide Inv;
    var after := TransactionHint(db, i, hash).db;
    if after != db { MoveIntentKeeps(db, i, after.intents[i]); }
  }

  lemma FlagDepositKeeps(db: Db, i: Id, code: ExceptionCode)
    requires Inv(db)
    ensures Inv(FlagDeposit(db, i, code).db)
  {
    hide Inv;
    var after := FlagDeposit(db, i, code).db;
    if after != db { MoveIntentKeeps(db, i, after.intents[i]); }
  }

  lemma ObserveDepositKeeps(db: Db, i: Id, hash: Id, block: int, index: int)
    requires Inv(db)
    ensures Inv(ObserveDeposit(db, i, hash, block, index).db)
  {
    hide Inv;
    var after := ObserveDeposit(db, i, hash, block, index).db;
    if after != db { MoveIntentKeeps(db, i, after.intents[i]); }
  }

  lemma FinalizeDepositKeeps(db: Db, now: Time, i: Id)
    requires Inv(db)
    ensures Inv(FinalizeDeposit(db, now, i).db)
  {
    hide Inv;
    var after := FinalizeDeposit(db, now, i).db;
    if after != db {
      ChainData(db, i);
      MoveIntentKeeps(db, i, after.intents[i]);
    }
  }

  // ---------------------------------------------------------------------------------------------
  // The credit moves money.
  // ---------------------------------------------------------------------------------------------

  /** The guards under which `creditFinalizedDeposit` posts to the ledger. */
  predicate Credits(db: Db, i: Id) {
    && i in db.intents
    && db.intents[i].state == Finalized
    && db.intents[i].finalizedAt.Some?
    && db.intents[i].finalizedAt.value <= db.intents[i].expiresAt
    && db.intents[i].membership in db.memberships
    && db.memberships[db.intents[i].membership].intent == Some(i)
    && db.memberships[db.intents[i].membership].state == DepositPending
  }

  lemma CreditLinks(db: Db, i: Id)
    requires LinksOk(db) && Credits(db, i)
    ensures LinksOk(CreditDeposit(db, i).db)
    ensures db.pod.state == EnrollmentOpen && i !in db.refunds
  {
    hide LinksOk;
    var d := db.intents[i];
    AboutDeposit(db, i);
    AboutMembership(db, d.membership);
    var d' := d.(state := CreditedProvisional);
    var r' := db.memberships[d.membership].(state := FundedProvisional);
    RewriteLinks(db, i, d', r');
    SameLinks(Rewrite(db, i, d', r'), CreditDeposit(db, i).db);
  }

  /** Posting an entry whose key is new and now due keeps the key discipline. */
  lemma PostKeepsKeys(ledger: Book, e: Entry, intents: map<Id, Intent>, refunds: map<Id, RefundLeg>,
                      payouts: map<Id, L.Leg>, settled: bool,
                      intents': map<Id, Intent>, refunds': map<Id, RefundLeg>, payouts': map<Id, L.Leg>)
    requires KeysOk(ledger, intents, refunds, payouts, settled) && DistinctKeys(ledger)
    requires !SettlementKey(e.key) && !Due(e.key, intents, refunds, payouts)
    requires forall k | !SettlementKey(k) ::
               Due(k, intents', refunds', payouts') <==> Due(k, intents, refunds, payouts) || k == e.key
    ensures Post(ledger, e) == ledger + [e]
    ensures KeysOk(ledger + [e], intents', refunds', payouts', settled)
    ensures DistinctKeys(ledger + [e])
  {
    KeysOfOne(ledger, e);
    forall j | 0 <= j < |ledger| ensures ledger[j].key != e.key {
      assert ledger[j].key in Keys(ledger);
    }
  }

  lemma CreditKeys(db: Db, i: Id)
    requires Credits(db, i) && i !in db.refunds
    requires KeysOk(db.ledger, db.intents, db.refunds, db.payouts, db.run.Some?) && DistinctKeys(db.ledger)
    ensures var after := CreditDeposit(db, i).db;
            && after.ledger == db.ledger + [CreditEntry(i, db.intents[i])]
            && KeysOk(after.ledger, after.intents, after.refunds, after.payouts, after.run.Some?)
            && DistinctKeys(after.ledger)
  {
    hide KeysOk, DistinctKeys;
    var after := CreditDeposit(db, i).db;
    PostKeepsKeys(db.ledger, CreditEntry(i, db.intents[i]), db.intents, db.refunds, db.payouts, db.run.Some?,
                  after.intents, after.refunds, after.payouts);
  }

  lemma CreditBalances(db: Db, i: Id)
    requires LinksOk(db) && BalancesOk(db) && Credits(db, i) && db.run.None?
    requires CreditDeposit(db, i).db.ledger == db.ledger + [CreditEntry(i, db.intents[i])]
    ensures BalancesOk(CreditDeposit(db, i).db)
  {
    hide LinksOk;
    var after := CreditDeposit(db, i).db;
    forall a | a != Treasury ensures Net(after.ledger, a) == Owed(after, a) {
      NetOfOne(db.ledger, CreditEntry(i, db.intents[i]), a);
      assert Net(db.ledger, a) == Owed(db, a);
      CreditOwed(db, i, a);
    }
  }

  /** Later rows that keep owner and amount of deposits, refund legs and payout legs. */
  predicate SameAmounts(before: Db, after: Db) {
    && before.intents.Keys <= after.intents.Keys && before.refunds.Keys <= after.refunds.Keys
    && before.payouts.Keys <= after.payouts.Keys
    && (forall i | i in before.intents ::
          after.intents[i].membership == before.intents[i].membership
          && after.intents[i].amount == before.intents[i].amount)
    && (forall i | i in before.refunds ::
          after.refunds[i].membership == before.refunds[i].membership
          && after.refunds[i].amount == before.refunds[i].amount)
    && (forall m | m in before.payouts :: after.payouts[m].amount == before.payouts[m].amount)
  }

  /** Entries stay right, and one more right entry joins them. */
  lemma EntriesStay(before: Db, after: Db, e: Entry)
    requires EntriesOk(before.ledger, before.intents, before.refunds, before.payouts) && SameAmounts(before, after)
    requires EntryOk(e, after.intents, after.refunds, after.payouts)
    ensures EntriesOk(before.ledger + [e], after.intents, after.refunds, after.payouts)
  {
    forall old' | old' in before.ledger ensures EntryOk(old', after.intents, after.refunds, after.payouts) {
      assert EntryOk(old', before.intents, before.refunds, before.payouts);
    }
  }

  lemma CreditOwed(db: Db, i: Id, a: Account)
    requires LinksOk(db) && Credits(db, i) && db.run.None? && a != Treasury
    ensures Owed(CreditDeposit(db, i).db, a) == Owed(db, a) + Effect(CreditEntry(i, db.intents[i]), a)
  {
    hide LinksOk;
    if a.Participant? && a.membership in db.memberships {
      AboutMembership(db, a.membership);
    }
  }

  /** No settlement run exists while deposits may still be credited. */
  lemma NoRunYet(db: Db)
    requires Inv(db) && BeforeLock(db.pod.state)
    ensures db.run.None?
  {
    hide LinksOk, BookOk, LifeOk, SubmissionsOk, LegsOk, FrozenOk;
  }

  lemma CreditEntries(db: Db, i: Id)
    requires Credits(db, i) && EntriesOk(db.ledger, db.intents, db.refunds, db.payouts)
    ensures var after := CreditDeposit(db, i).db;
            EntriesOk(db.ledger + [CreditEntry(i, db.intents[i])], after.intents, after.refunds, after.payouts)
  {
    hide EntriesOk;
    EntriesStay(db, CreditDeposit(db, i).db, CreditEntry(i, db.intents[i]));
  }

  lemma CreditKeepsRest(db: Db, i: Id)
    requires Credits(db, i)
    requires RunOk(db.pod, Roster(db.memberships), db.refunds, db.payouts, db.run)
    requires LifeOk(db.pod, Roster(db.memberships), db.occurrences, db.clock)
    requires SubmissionsOk(db.occurrences, db.memberships, db.submissions)
    ensures var after := CreditDeposit(db, i).db;
            && RunOk(after.pod, Roster(after.memberships), after.refunds, after.payouts, after.run)
            && LifeOk(after.pod, Roster(after.memberships), after.occurrences, after.clock)
            && SubmissionsOk(after.occurrences, after.memberships, after.submissions)
            && after.submissions == db.submissions && after.run == db.run && after.payouts == db.payouts
  {
    hide RunOk, LifeOk, Roster, Post, HasOccurrence;
    var after := CreditDeposit(db, i).db;
    SameRoster(db.memberships, after.memberships);
  }

  lemma CreditKeeps(db: Db, i: Id)
    requires Inv(db) && Credits(db, i)
    ensures Inv(CreditDeposit(db, i).db)
  {
    hide LinksOk, BalancesOk, KeysOk, EntriesOk, DistinctKeys, RunOk, LifeOk, LegsOk, FrozenOk, SubmissionsOk, Roster,
         CreditDeposit;
    CreditLinks(db, i);
    NoRunYet(db);
    CreditKeys(db, i);
    CreditEntries(db, i);
    CreditBalances(db, i);
    CreditKeepsRest(db, i);
  }

  lemma CreditDepositKeeps(db: Db, i: Id)
    requires Inv(db)
    ensures Inv(CreditDeposit(db, i).db)
  {
    hide Inv;
    if Credits(db, i) {
      CreditKeeps(db, i);
    } else if i in db.intents && db.intents[i].state == Finalized {
      ChainData(db, i);
      FinalizedAtIsKnown(db, i);
      var after := CreditDeposit(db, i).db;
      if after != db { MoveIntentKeeps(db, i, after.intents[i]); }
    }
  }

  lemma FinalizedAtIsKnown(db: Db, i: Id)
    requires Inv(db) && i in db.intents && db.intents[i].state == Finalized
    ensures db.intents[i].finalizedAt.Some?
  {
    hide Inv, LinksOk;
    HasLinks(db);
    AboutDeposit(db, i);
  }

  // ---------------------------------------------------------------------------------------------
  // The Pod's own state changes.
  // ---------------------------------------------------------------------------------------------

  function WithState(db: Db, state: PodState): Db {
    db.(pod := db.pod.(state := state))
  }

  lemma LinksFromRows(db: Db, after: Db)
    requires LinksOk(db)
    requires after.occurrences == db.occurrences && after.pod.contract == db.pod.contract
    requires after.intents == db.intents && after.refunds == db.refunds
    requires DepositsOk(after.pod, db.occurrences[0].opensAt, after.memberships, after.intents, after.refunds)
    requires MembershipsOk(after.pod, after.memberships, after.intents)
    ensures LinksOk(after)
  {
  }

  /** Balances do not depend on the Pod's state. */
  lemma SameBalances(db: Db, after: Db)
    requires BalancesOk(db)
    requires after.ledger == db.ledger && after.memberships == db.memberships && after.intents == db.intents
    requires after.refunds == db.refunds && after.run == db.run
    ensures BalancesOk(after)
  {
    forall a | a != Treasury ensures Net(after.ledger, a) == Owed(after, a) {
      assert Net(db.ledger, a) == Owed(db, a);
    }
  }

  /** The state changes that need nothing of the rows. */
  predicate Advances(before: PodState, after: PodState) {
    (before, after) in {(CancelledRefunding, Cancelled), (PodActive, FinalReview), (FinalReview, Completed)}
  }

  lemma AdvanceKeepsLinks(db: Db, state: PodState)
    requires LinksOk(db) && Advances(db.pod.state, state)
    ensures LinksOk(WithState(db, state))
  {
    hide LinksOk;
    var after := WithState(db, state);
    HasFirst(db);
    forall i | i in after.intents
      ensures after.intents[i].membership in after.memberships
      ensures DepositFits(after.pod, after.occurrences[0].opensAt, i, after.intents[i],
                          after.memberships[after.intents[i].membership], LegOf(after.refunds, i))
    {
      AboutDeposit(db, i);
    }
    forall m | m in after.memberships
      ensures MembershipFits(after.pod, m, after.memberships[m],
                             IntentOf(after.intents, after.memberships[m].intent))
    {
      AboutMembership(db, m);
    }
    LinksFromRows(db, after);
  }

  lemma HasFirst(db: Db)
    requires LinksOk(db)
    ensures db.occurrences != []
  {
  }
}
