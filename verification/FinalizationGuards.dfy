/** Which guards of the finalization can fail: in final review only a pending review and a refund leg can stop
    it. Every other throw, the arithmetic guards of the calculation included, is unreachable. */
module FinalizationGuards {
  import opened Basics
  import opened Ledger
  import opened Rows
  import opened Invariants
  import opened FundingKeeps
  import opened S = SettlementRules
  import opened Finalization
  import C = SettlementCalculator

  /** A proportional Pod in final review without a run. */
  ghost predicate ReadyPod(db: Db) {
    Inv(db) && db.run.None? && db.pod.state == FinalReview && db.pod.contract.mode == Proportional
  }

  // ---------------------------------------------------------------------------------------------
  // The roster and its deposits.
  // ---------------------------------------------------------------------------------------------

  lemma RosterMember(db: Db, m: Id)
    requires ReadyPod(db) && m in Roster(db.memberships)
    ensures m != EMPTY_ID && MatchesContract(db, m) && db.memberships[m].user != db.pod.creator
    ensures DepositOf(db, m) == db.pod.contract.totalLuna
  {
    hide Inv, LinksOk;
    HasLinks(db);
    AboutMembership(db, m);
    AboutDeposit(db, db.memberships[m].intent.value);
  }

  lemma AppliedDeposit(db: Db, i: Id)
    requires ReadyPod(db) && i in AppliedDeposits(db.intents)
    ensures db.intents[i].membership in Roster(db.memberships)
    ensures db.memberships[db.intents[i].membership].intent == Some(i)
  {
    hide Inv, LinksOk;
    HasLinks(db);
    AboutDeposit(db, i);
  }

  function Owner(intents: map<Id, Intent>, i: Id): Id {
    if i in intents then intents[i].membership else EMPTY_ID
  }

  lemma OwnersDiffer(db: Db, i: Id, j: Id)
    requires ReadyPod(db) && i in AppliedDeposits(db.intents) && j in AppliedDeposits(db.intents) && i != j
    ensures Owner(db.intents, i) != Owner(db.intents, j)
  {
    hide ReadyPod;
    AppliedDeposit(db, i);
    AppliedDeposit(db, j);
  }

  /** Applied deposits and roster members correspond one to one. */
  lemma OneDepositEach(db: Db)
    requires ReadyPod(db)
    ensures |AppliedDeposits(db.intents)| == |Roster(db.memberships)|
  {
    hide ReadyPod, Roster, Owner, AppliedDeposits;
    var applied, roster := AppliedDeposits(db.intents), Roster(db.memberships);
    var owner := i => Owner(db.intents, i);
    forall i | i in applied ensures owner(i) in roster { OwnerIsSeated(db, i); }
    forall m | m in roster ensures exists i :: i in applied && owner(i) == m {
      OwnsDeposit(db, m);
      assert owner(db.memberships[m].intent.value) == m;
    }
    assert roster == Image(applied, owner);
    forall i, j | i in applied && j in applied && i != j ensures owner(i) != owner(j) { OwnersDiffer(db, i, j); }
    ImageSize(applied, owner);
  }

  lemma OwnerIsSeated(db: Db, i: Id)
    requires ReadyPod(db) && i in AppliedDeposits(db.intents)
    ensures Owner(db.intents, i) in Roster(db.memberships)
  {
    hide ReadyPod;
    AppliedDeposit(db, i);
  }

  lemma OwnsDeposit(db: Db, m: Id)
    requires ReadyPod(db) && m in Roster(db.memberships)
    ensures m in db.memberships && db.memberships[m].intent.Some?
    ensures db.memberships[m].intent.value in AppliedDeposits(db.intents)
    ensures Owner(db.intents, db.memberships[m].intent.value) == m
  {
    hide ReadyPod;
    RosterPointer(db, m);
  }

  lemma RosterPointer(db: Db, m: Id)
    requires ReadyPod(db) && m in Roster(db.memberships)
    ensures m in db.memberships && db.memberships[m].intent.Some?
    ensures db.memberships[m].intent.value in AppliedDeposits(db.intents)
    ensures db.memberships[m].intent.value in db.intents
    ensures db.intents[db.memberships[m].intent.value].membership == m
  {
    hide ReadyPod;
    RosterMember(db, m);
  }

  lemma HasLife(db: Db)
    requires Inv(db)
    ensures LifeOk(db.pod, Roster(db.memberships), db.occurrences, db.clock)
  {
    hide LinksOk, BookOk, RunOk, LifeOk, SubmissionsOk, FrozenOk, LegsOk, Roster;
  }

  lemma RosterIsFunded(db: Db)
    requires ReadyPod(db)
    ensures FundedRoster(db)
  {
    hide Inv, MatchesContract, Roster, AppliedDeposits, CalendarOk, AllClosed;
    HasLife(db);
    OneDepositEach(db);
    forall m | m in Roster(db.memberships)
      ensures m in db.memberships && MatchesContract(db, m) && db.memberships[m].user != db.pod.creator
    {
      RosterPointer(db, m);
      RosterMember(db, m);
    }
  }

  // ---------------------------------------------------------------------------------------------
  // The deposit credits.
  // ---------------------------------------------------------------------------------------------

  function CreditedIds(ledger: Book): set<Id> {
    set e | e in ledger && e.key.DepositCredit? :: e.key.deposit
  }

  lemma LastEntry(ledger: Book)
    requires ledger != [] && DistinctKeys(ledger)
    ensures var k := |ledger| - 1;
            && DistinctKeys(ledger[..k])
            && ledger == ledger[..k] + [ledger[k]]
            && (forall e | e in ledger[..k] :: e.key != ledger[k].key)
  {
  }

  lemma {:induction false} CountIsDistinct(ledger: Book)
    requires DistinctKeys(ledger)
    ensures CountCredits(ledger) == |CreditedIds(ledger)|
  {
    if ledger != [] {
      hide DistinctKeys;
      var init, last := ledger[..|ledger| - 1], ledger[|ledger| - 1];
      LastEntry(ledger);
      CountIsDistinct(init);
      if last.key.DepositCredit? {
        assert CreditedIds(ledger) == CreditedIds(init) + {last.key.deposit};
        assert last.key.deposit !in CreditedIds(init);
      } else {
        assert CreditedIds(ledger) == CreditedIds(init);
      }
    }
  }

  lemma {:induction false} NoCredit(ledger: Book, i: Id, d: Intent)
    requires forall e | e in ledger :: e.key != DepositCredit(i)
    ensures CountCreditsOf(ledger, i, d) == 0
  {
    if ledger != [] {
      assert forall e | e in ledger[..|ledger| - 1] :: e in ledger;
      NoCredit(ledger[..|ledger| - 1], i, d);
    }
  }

  lemma {:induction false} OneCredit(ledger: Book, i: Id, d: Intent, e: Entry)
    requires DistinctKeys(ledger) && e in ledger && IsCreditOf(e, i, d)
    ensures CountCreditsOf(ledger, i, d) == 1
  {
    hide DistinctKeys;
    var init, last := ledger[..|ledger| - 1], ledger[|ledger| - 1];
    LastEntry(ledger);
    if last.key == DepositCredit(i) {
      NoCredit(init, i, d);
      assert e !in init;
    } else {
      OneCredit(init, i, d, e);
    }
  }

  /** The credits in the ledger are those of the applied and of the refunded deposits. */
  lemma CreditsAreFunded(db: Db)
    requires ReadyPod(db)
    ensures CreditedIds(db.ledger) == AppliedDeposits(db.intents) + db.refunds.Keys
    ensures AppliedDeposits(db.intents) !! db.refunds.Keys
  {
    hide Inv, LinksOk, Roster;
    HasLinks(db);
    forall i ensures i in CreditedIds(db.ledger) <==> i in db.intents && Funded(db.intents[i].state) {
      CreditIsDue(db, i);
    }
    forall i | i in db.intents
      ensures Funded(db.intents[i].state) <==> i in AppliedDeposits(db.intents) || i in db.refunds
    {
      AboutDeposit(db, i);
    }
    RefundsHaveDeposits(db);
    forall i | i in db.refunds ensures i !in AppliedDeposits(db.intents) { AboutDeposit(db, i); }
  }

  lemma RefundsHaveDeposits(db: Db)
    requires LinksOk(db)
    ensures db.refunds.Keys <= db.intents.Keys
  {
    hide DepositsOk, MembershipsOk, HashesOk;
  }

  lemma HasKeys(db: Db)
    requires Inv(db)
    ensures KeysOk(db.ledger, db.intents, db.refunds, db.payouts, db.run.Some?)
    ensures DistinctKeys(db.ledger) && EntriesOk(db.ledger, db.intents, db.refunds, db.payouts)
  {
    hide LinksOk, KeysOk, DistinctKeys, EntriesOk, BalancesOk, RunOk, LifeOk, SubmissionsOk, FrozenOk, LegsOk, Roster;
  }

  lemma CreditIsDue(db: Db, i: Id)
    requires Inv(db)
    ensures i in CreditedIds(db.ledger) <==> i in db.intents && Funded(db.intents[i].state)
  {
    hide Inv, DistinctKeys, EntriesOk;
    HasKeys(db);
    assert DepositCredit(i) in Keys(db.ledger) <==> Due(DepositCredit(i), db.intents, db.refunds, db.payouts);
    if i in CreditedIds(db.ledger) {
      var e :| e in db.ledger && e.key == DepositCredit(i);
    }
  }

  lemma CreditOnce(db: Db, i: Id)
    requires Inv(db) && i in db.intents && Funded(db.intents[i].state)
    ensures CountCreditsOf(db.ledger, i, db.intents[i]) == 1
  {
    hide Inv, DistinctKeys, KeysOk;
    HasKeys(db);
    CreditIsDue(db, i);
    var e :| e in db.ledger && e.key == DepositCredit(i);
    OneCredit(db.ledger, i, db.intents[i], e);
  }

  /** The credit guard passes exactly when the Pod has no refund leg. */
  lemma CreditsMatchIff(db: Db)
    requires ReadyPod(db)
    ensures CreditsMatch(db) <==> db.refunds == map[]
  {
    hide Inv, CountCreditsOf;
    HasKeys(db);
    hide KeysOk, DistinctKeys, EntriesOk;
    CountIsDistinct(db.ledger);
    CreditsAreFunded(db);
    assert |AppliedDeposits(db.intents) + db.refunds.Keys| == |AppliedDeposits(db.intents)| + |db.refunds.Keys|;
    assert |db.refunds.Keys| == 0 <==> db.refunds == map[];
    forall i | i in AppliedDeposits(db.intents) ensures CountCreditsOf(db.ledger, i, db.intents[i]) == 1 {
      CreditOnce(db, i);
    }
  }

  // ---------------------------------------------------------------------------------------------
  // The reviews.
  // ---------------------------------------------------------------------------------------------

  predicate NoPendingReview(db: Db) {
    forall s | s in db.submissions :: db.submissions[s].state != Reviewing
  }

  lemma ReviewsDoneIff(db: Db)
    requires Inv(db)
    ensures ReviewsDone(db) <==> NoPendingReview(db)
  {
    hide LinksOk, BookOk, RunOk, LifeOk, FrozenOk, LegsOk;
  }

  // ---------------------------------------------------------------------------------------------
  // The input of the calculation.
  // ---------------------------------------------------------------------------------------------

  lemma SortedIsDistinct(s: set<Id>, i: nat, j: nat)
    requires i < j < |s|
    ensures |C.Sorted(s)| == |s| && C.Sorted(s)[i] != C.Sorted(s)[j]
  {
    assert Rank(s, C.Sorted(s)[i]) != Rank(s, C.Sorted(s)[j]);
  }

  /** The members of the frozen input are the roster, each with the contract's total. */
  lemma FrozenMembers(db: Db)
    requires ReadyPod(db)
    ensures var members := FrozenInput(db).members;
            && DistinctMembers(members)
            && MemberIds(members) == Roster(db.memberships)
            && |members| == |Roster(db.memberships)|
            && forall member | member in members :: member.deposit == db.pod.contract.totalLuna
  {
    hide ReadyPod, Roster, DepositOf;
    var roster, list, members := Roster(db.memberships), RosterInOrder(db), FrozenInput(db).members;
    forall j | 0 <= j < |list| ensures members[j].id != EMPTY_ID && members[j].deposit == db.pod.contract.totalLuna {
      assert list[j] in roster;
      RosterMember(db, list[j]);
    }
    forall i, j | 0 <= i < j < |list| ensures members[i].id != members[j].id { SortedIsDistinct(roster, i, j); }
    MembersAreListed(members, list);
  }

  lemma MembersAreListed(members: seq<MemberInput>, list: seq<Id>)
    requires |members| == |list| && forall j | 0 <= j < |list| :: members[j].id == list[j]
    ensures forall m :: m in MemberIds(members) <==> m in list
  {
    forall m | m in list ensures m in MemberIds(members) {
      var j :| 0 <= j < |list| && list[j] == m;
      assert members[j] in members;
    }
  }

  lemma OutcomesAreComplete(submissions: map<SubmissionId, Submission>, o: Id, list: seq<Id>, ids: set<Id>)
    requires forall i, j | 0 <= i < j < |list| :: list[i] != list[j]
    requires forall m :: m in ids <==> m in list
    ensures CompleteOutcomes(OutcomesOf(submissions, o, list), ids)
  {
    var outcomes := OutcomesOf(submissions, o, list);
    forall m | m in ids ensures m in OutcomeIds(outcomes) {
      var j :| 0 <= j < |list| && list[j] == m;
      assert outcomes[j] in outcomes;
    }
  }

  lemma FrozenOccurrences(db: Db)
    requires ReadyPod(db)
    ensures var input := FrozenInput(db);
            && |input.occurrences| == db.pod.contract.occurrenceCount
            && DistinctOccurrences(input.occurrences)
            && forall o | o in input.occurrences :: CompleteOutcomes(o.outcomes, MemberIds(input.members))
  {
    hide Inv, Roster, OutcomesOf, CompleteOutcomes, MemberIds;
    HasLife(db);
    FrozenMembers(db);
    var roster, list, occurrences := Roster(db.memberships), RosterInOrder(db), FrozenInput(db).occurrences;
    forall i, j | 0 <= i < j < |list| ensures list[i] != list[j] { SortedIsDistinct(roster, i, j); }
    forall k | 0 <= k < |occurrences| ensures CompleteOutcomes(occurrences[k].outcomes, roster) {
      OutcomesAreComplete(db.submissions, db.occurrences[k].id, list, roster);
    }
  }

  /** The pool of a published contract is safe whatever the size of the roster. */
  lemma PoolIsSafe(c: Contract, members: nat)
    requires PublishedContract(c) && members <= c.maxParticipants
    ensures members * (c.slice * c.occurrenceCount) <= MAX_SAFE_INTEGER
  {
    MultiplyMonotone(1, c.occurrenceCount, c.slice);
    MultiplyMonotone(members, c.maxParticipants, c.totalLuna);
  }

  /** The calculation accepts the frozen input: no guard of it can fail, the safe-integer checks included. */
  lemma InputIsAccepted(db: Db)
    requires ReadyPod(db)
    ensures Accepts(FrozenInput(db))
  {
    hide Inv, Roster, FrozenInput, CompleteOutcomes, DistinctMembers, DistinctOccurrences, CalendarOk, AllClosed;
    HasLife(db);
    FrozenMembers(db);
    FrozenOccurrences(db);
    HasContract(db);
    FrozenSlice(db);
    PoolIsSafe(db.pod.contract, |FrozenInput(db).members|);
  }

  lemma FrozenSlice(db: Db)
    ensures FrozenInput(db).slice == db.pod.contract.slice
  {
  }

  lemma HasContract(db: Db)
    requires Inv(db)
    ensures PublishedContract(db.pod.contract)
  {
    hide Inv, DepositsOk, MembershipsOk, HashesOk;
    HasLinks(db);
  }

  // ---------------------------------------------------------------------------------------------
  // The exact condition.
  // ---------------------------------------------------------------------------------------------

  lemma CalendarIsClosed(db: Db, now: Time)
    requires ReadyPod(db) && db.clock <= now
    ensures CalendarClosed(db, now)
  {
    hide Inv, Roster;
    HasLife(db);
  }

  /** A proportional Pod in final review can be settled exactly when no review is pending and the Pod has no
      refund leg. The second half is not what the promise to settle every locked Pod would need: a Pod with a
      capacity-excluded depositor has a refund leg and fails the deposit credit guard for ever. */
  lemma FinalizeSucceedsIff(db: Db, now: Time)
    requires ReadyPod(db) && db.clock <= now
    ensures Finalize(db, now).reply == Done <==> NoPendingReview(db) && db.refunds == map[]
    ensures Finalize(db, now).reply in {Done, Thrown}
  {
    hide Inv, CalendarClosed, FundedRoster, CreditsMatch, ReviewsDone, Accepts, NoPendingReview, FrozenInput;
    CalendarIsClosed(db, now);
    RosterIsFunded(db);
    CreditsMatchIff(db);
    ReviewsDoneIff(db);
    InputIsAccepted(db);
  }
}
