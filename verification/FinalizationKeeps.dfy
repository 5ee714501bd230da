/** Recording a settlement keeps the invariants, and so closes the books of the Pod. */
module FinalizationKeeps {
  import opened Basics
  import opened Ledger
  import opened Rows
  import opened Invariants
  import opened FundingKeeps
  import opened S = SettlementRules
  import opened Finalization
  import opened SettlementPostings
  import opened FinalizationGuards
  import L = PayoutLegs

  /** The state in which the finalization succeeds. */
  ghost predicate Ready(db: Db) {
    ReadyPod(db) && NoPendingReview(db) && db.refunds == map[]
  }

  function VerdictsFrozen(db: Db): seq<Verdicts> {
    AllVerdicts(FrozenInput(db).occurrences)
  }

  function ResultOf(db: Db): Settlement
    requires WellFormed(FrozenInput(db))
  {
    SettlementOf(FrozenInput(db))
  }

  // ---------------------------------------------------------------------------------------------
  // The result of the calculation.
  // ---------------------------------------------------------------------------------------------

  /** The occurrence results follow the rules and name the members in order. */
  lemma ResultsFollowRules(input: Input)
    requires WellFormed(input)
    ensures AllByRule(AllVerdicts(input.occurrences), input.slice, input.members, SettlementOf(input).occurrences)
    ensures ResultsInOrder(SettlementOf(input).occurrences, input.members)
  {
    hide WellFormed, MemberIds, VerdictsOf, OccurrenceResultFor, ByRule, NamesMembers, TotalOf;
    var vs, results := AllVerdicts(input.occurrences), SettlementOf(input).occurrences;
    forall k | 0 <= k < |vs|
      ensures vs[k].Keys == MemberIds(input.members)
      ensures ByRule(vs[k], input.slice, input.members, results[k].outcomes)
      ensures NamesMembers(results[k].outcomes, input.members)
    {
      NamesAt(input, k);
      ResultFollowsRules(input.occurrences[k], input.slice, input.members);
      SettlementAt(input, k);
    }
    ResultsDiffer(input);
  }

  lemma NamesAt(input: Input, k: nat)
    requires WellFormed(input) && k < |input.occurrences|
    ensures VerdictsOf(input.occurrences[k].outcomes).Keys == MemberIds(input.members)
    ensures MemberIds(input.members) <= OutcomeIds(input.occurrences[k].outcomes)
  {
    OutcomesAt(input, k);
    VerdictsCoverOutcomes(input.occurrences[k].outcomes);
  }

  lemma SettlementAt(input: Input, k: nat)
    requires WellFormed(input) && k < |input.occurrences|
    requires MemberIds(input.members) <= OutcomeIds(input.occurrences[k].outcomes)
    ensures SettlementOf(input).occurrences[k]
         == OccurrenceResultFor(input.occurrences[k], input.slice, input.members)
  {
    hide OccurrenceResultFor, WellFormed, TotalOf;
  }

  lemma ResultsDiffer(input: Input)
    requires WellFormed(input)
    ensures forall i, j | 0 <= i < j < |SettlementOf(input).occurrences| ::
              SettlementOf(input).occurrences[i].id != SettlementOf(input).occurrences[j].id
  {
    hide TotalOf, CompleteOutcomes, AmountsOf;
    forall k | 0 <= k < |input.occurrences| ensures SettlementOf(input).occurrences[k].id == input.occurrences[k].id {
      NamesAt(input, k);
      SettlementAt(input, k);
    }
  }

  lemma ResultFollowsRules(o: OccurrenceInput, slice: int, members: seq<MemberInput>)
    requires MemberIds(members) <= VerdictsOf(o.outcomes).Keys && MemberIds(members) <= OutcomeIds(o.outcomes)
    ensures var outcomes := OccurrenceResultFor(o, slice, members).outcomes;
            ByRule(VerdictsOf(o.outcomes), slice, members, outcomes) && NamesMembers(outcomes, members)
  {
    hide AmountsOf;
    forall j | 0 <= j < |members| ensures members[j].id in MemberIds(members) {
      assert members[j] in members;
    }
  }

  /** Results listed like their members. */
  predicate Parallel(members: seq<MemberInput>, results: seq<MemberResult>) {
    && |results| == |members|
    && (forall j | 0 <= j < |members| :: results[j].id == members[j].id)
  }

  lemma {:induction false} EntitlementRows(members: seq<MemberInput>, results: seq<MemberResult>)
    requires DistinctMembers(members) && Parallel(members, results)
    ensures Entitlements(results).Keys == MemberIds(members)
    ensures forall j | 0 <= j < |members| ::
              members[j].id in Entitlements(results)
              && Entitlements(results)[members[j].id] == EntitlementFor(results[j])
    decreases |members|
  {
    if members != [] {
      hide EntitlementFor;
      var k := |members| - 1;
      LastMember(members);
      EntitlementRows(members[..k], results[..k]);
      forall j | 0 <= j < k ensures members[j].id in MemberIds(members[..k]) { assert members[..k][j] == members[j]; }
    }
  }

  lemma {:induction false} LegRows(members: seq<MemberInput>, results: seq<MemberResult>)
    requires DistinctMembers(members) && Parallel(members, results)
    ensures QueuedLegs(map[], results).Keys <= MemberIds(members)
    ensures forall j | 0 <= j < |members| ::
              PayoutLegOf(QueuedLegs(map[], results), members[j].id) ==
                if results[j].amounts.payout > 0 then Some(L.NewLeg(results[j].amounts.payout)) else None
    decreases |members|
  {
    if members != [] {
      hide L.NewLeg;
      var k := |members| - 1;
      LastMember(members);
      LegRows(members[..k], results[..k]);
      forall j | 0 <= j < k ensures members[j].id in MemberIds(members[..k]) { assert members[..k][j] == members[j]; }
    }
  }

  lemma {:induction false} LegsAreNew(results: seq<MemberResult>)
    ensures forall m | m in QueuedLegs(map[], results) ::
              exists amount :: QueuedLegs(map[], results)[m] == L.NewLeg(amount)
  {
    if results != [] {
      LegsAreNew(results[..|results| - 1]);
    }
  }

  lemma NewLegIsOk(amount: int)
    ensures L.LegOk(L.NewLeg(amount)) && L.NewLeg(amount).state == L.Queued
  {
  }

  /** What the rows of the run say about roster member `m`. */
  predicate RunRowFits(e: Entitlement, leg: Option<L.Leg>, amounts: Amounts, deposit: int) {
    && e.amounts == amounts && e.deposit == deposit && e.state != TransferConfirmed
    && EntitlementFits(e, leg)
  }

  lemma RunRow(input: Input, j: nat)
    requires WellFormed(input) && j < |input.members|
    ensures var m, members := input.members[j].id, SettlementOf(input).members;
            && m in Entitlements(members)
            && RunRowFits(Entitlements(members)[m], PayoutLegOf(QueuedLegs(map[], members), m),
                          TotalOf(AllVerdicts(input.occurrences), input.slice, m), input.members[j].deposit)
  {
    hide TotalOf, CompleteOutcomes;
    var members := SettlementOf(input).members;
    EntitlementRows(input.members, members);
    LegRows(input.members, members);
    PayoutIsNonNegative(input, j);
  }

  lemma PayoutIsNonNegative(input: Input, j: nat)
    requires WellFormed(input) && j < |input.members|
    ensures TotalOf(AllVerdicts(input.occurrences), input.slice, input.members[j].id).payout >= 0
  {
    hide TotalOf, CompleteOutcomes;
    VerdictsNameMembers(input);
    assert input.members[j] in input.members;
    TotalIsBounded(AllVerdicts(input.occurrences), input.slice, MemberIds(input.members), input.members[j].id);
  }

  /** Since the payouts add up to a positive total, somebody is owed one. */
  lemma SomebodyIsPaid(input: Input) returns (j: nat)
    requires WellFormed(input)
    ensures j < |input.members|
    ensures TotalOf(AllVerdicts(input.occurrences), input.slice, input.members[j].id).payout > 0
  {
    hide TotalOf, CompleteOutcomes;
    var vs, ids := AllVerdicts(input.occurrences), MemberIds(input.members);
    var payout := (m: Id) => TotalOf(vs, input.slice, m).payout;
    SettlementConserves(input, 0);
    MultiplyMonotone(1, |input.occurrences|, input.slice);
    MultiplyMonotone(1, |input.members|, input.slice * |input.occurrences|);
    if forall m | m in ids :: payout(m) <= 0 {
      forall m | m in ids ensures payout(m) == 0 {
        var member :| member in input.members && member.id == m;
        var k :| 0 <= k < |input.members| && input.members[k] == member;
        PayoutIsNonNegative(input, k);
      }
      SumOverConstant(ids, payout, 0);
      assert false;
    } else {
      var m :| m in ids && payout(m) > 0;
      var member :| member in input.members && member.id == m;
      j :| 0 <= j < |input.members| && input.members[j] == member;
    }
  }

  // ---------------------------------------------------------------------------------------------
  // The frozen outcomes.
  // ---------------------------------------------------------------------------------------------

  /** Every frozen outcome so far is the verdict of its submission row. */
  predicate FrozenRight(frozen: map<SubmissionId, OutcomeState>, submissions: map<SubmissionId, Submission>) {
    forall s | s in frozen :: frozen[s] == VerdictOf(submissions, s)
  }

  lemma {:induction false} FreezeOne(frozen: map<SubmissionId, OutcomeState>, o: Id, outcomes: seq<OutcomeResult>,
                                     submissions: map<SubmissionId, Submission>)
    requires FrozenRight(frozen, submissions)
    requires forall r | r in outcomes :: r.state == VerdictOf(submissions, SubmissionId(o, r.member))
    ensures FrozenRight(FreezeOutcomes(frozen, o, outcomes), submissions)
    ensures forall s | s in frozen :: s in FreezeOutcomes(frozen, o, outcomes)
    ensures forall r | r in outcomes :: SubmissionId(o, r.member) in FreezeOutcomes(frozen, o, outcomes)
  {
    if outcomes != [] {
      hide VerdictOf;
      var k := |outcomes| - 1;
      assert outcomes == outcomes[..k] + [outcomes[k]];
      FreezeOne(frozen, o, outcomes[..k], submissions);
    }
  }

  predicate RightOutcomes(r: OccurrenceResult, submissions: map<SubmissionId, Submission>) {
    forall x | x in r.outcomes :: x.state == VerdictOf(submissions, SubmissionId(r.id, x.member))
  }

  lemma {:induction false} FreezeAll(results: seq<OccurrenceResult>, submissions: map<SubmissionId, Submission>)
    requires forall r | r in results :: RightOutcomes(r, submissions)
    ensures FrozenRight(Freeze(results), submissions)
    ensures forall r, x | r in results && x in r.outcomes :: SubmissionId(r.id, x.member) in Freeze(results)
  {
    if results != [] {
      hide VerdictOf, FreezeOutcomes, FrozenRight;
      var k := |results| - 1;
      assert results == results[..k] + [results[k]];
      assert RightOutcomes(results[k], submissions);
      FreezeAll(results[..k], submissions);
      NothingFrozen(submissions);
      FreezeOne(Freeze(results[..k]), results[k].id, results[k].outcomes, submissions);
    } else {
      NothingFrozen(submissions);
    }
  }

  lemma NothingFrozen(submissions: map<SubmissionId, Submission>)
    ensures FrozenRight(map[], submissions)
  {
  }

  /** The verdict the calculation uses is the one of the submission row. */
  lemma VerdictIsRead(submissions: map<SubmissionId, Submission>, o: Id, list: seq<Id>, m: Id)
    requires DistinctOutcomes(OutcomesOf(submissions, o, list)) && m in VerdictsOf(OutcomesOf(submissions, o, list))
    ensures VerdictsOf(OutcomesOf(submissions, o, list))[m] == VerdictOf(submissions, SubmissionId(o, m))
  {
    hide VerdictOf, DistinctOutcomes;
    var outcomes := OutcomesOf(submissions, o, list);
    var state := VerdictsOf(outcomes)[m];
    VerdictsLookUp(outcomes, m, state);
    var j :| 0 <= j < |outcomes| && outcomes[j] == OutcomeInput(m, state);
  }

  lemma ResultsAreRight(db: Db)
    requires WellFormed(FrozenInput(db))
    ensures forall r | r in ResultOf(db).occurrences :: RightOutcomes(r, db.submissions)
  {
    hide VerdictOf, OutcomesOf, CompleteOutcomes, WellFormed;
    var input, results := FrozenInput(db), ResultOf(db).occurrences;
    forall k | 0 <= k < |results| ensures RightOutcomes(results[k], db.submissions) {
      OutcomesAt(input, k);
      ResultIsRight(db.submissions, input.occurrences[k], RosterInOrder(db), input.slice, input.members);
    }
  }

  lemma OutcomesAt(input: Input, k: nat)
    requires WellFormed(input) && k < |input.occurrences|
    ensures CompleteOutcomes(input.occurrences[k].outcomes, MemberIds(input.members))
    ensures MemberIds(input.members) <= OutcomeIds(input.occurrences[k].outcomes)
  {
    assert input.occurrences[k] in input.occurrences;
  }

  lemma ResultIsRight(submissions: map<SubmissionId, Submission>, o: OccurrenceInput, list: seq<Id>, slice: int,
                      members: seq<MemberInput>)
    requires o.outcomes == OutcomesOf(submissions, o.id, list)
    requires CompleteOutcomes(o.outcomes, MemberIds(members)) && MemberIds(members) <= OutcomeIds(o.outcomes)
    ensures RightOutcomes(OccurrenceResultFor(o, slice, members), submissions)
  {
    hide VerdictOf, OutcomesOf, DistinctOutcomes, AmountsOf;
    VerdictsCoverOutcomes(o.outcomes);
    forall j | 0 <= j < |members|
      ensures members[j].id in MemberIds(members)
      ensures VerdictsOf(o.outcomes)[members[j].id] == VerdictOf(submissions, SubmissionId(o.id, members[j].id))
    {
      assert members[j] in members;
      VerdictIsRead(submissions, o.id, list, members[j].id);
    }
  }

  // ---------------------------------------------------------------------------------------------
  // The rows after the record.
  // ---------------------------------------------------------------------------------------------

  /** Outside the roster nobody holds a deposit any more. */
  lemma OthersHoldNothing(db: Db, m: Id)
    requires ReadyPod(db) && m !in Roster(db.memberships)
    ensures HeldFor(db.memberships, db.intents, false, m) == 0
  {
    hide Inv, LinksOk;
    HasLinks(db);
    if m in db.memberships {
      AboutMembership(db, m);
      if db.memberships[m].intent.Some? { AboutDeposit(db, db.memberships[m].intent.value); }
    }
  }

  lemma RosterHolds(db: Db, m: Id)
    requires ReadyPod(db) && m in Roster(db.memberships)
    ensures HeldFor(db.memberships, db.intents, false, m) == db.pod.contract.totalLuna
  {
    hide Inv;
    RosterMember(db, m);
  }

  /** What the participant accounts hold before, and nothing else. */
  lemma OwedBefore(db: Db, a: Account)
    requires Ready(db) && a != Treasury
    ensures Owed(db, a) == if a.Participant? && a.membership in Roster(db.memberships)
                           then db.pod.contract.totalLuna else 0
  {
    hide ReadyPod, Roster, HeldFor;
    if a.Participant? {
      if a.membership in Roster(db.memberships) { RosterHolds(db, a.membership); }
      else { OthersHoldNothing(db, a.membership); }
    }
    RunIsNone(db);
  }

  lemma RunIsNone(db: Db)
    requires ReadyPod(db)
    ensures db.run.None? && Inv(db)
  {
    hide Inv;
  }

  /** The frozen input in the terms of the rules. */
  lemma Frozen(db: Db)
    requires Ready(db)
    ensures WellFormed(FrozenInput(db))
    ensures FrozenInput(db).slice == db.pod.contract.slice > 0
    ensures MemberIds(FrozenInput(db).members) == Roster(db.memberships)
    ensures db.pod.contract.slice * |VerdictsFrozen(db)| == db.pod.contract.totalLuna
    ensures db.payouts == map[]
  {
    hide Inv, Roster, CompleteOutcomes, FrozenInput;
    InputIsAccepted(db);
    FrozenMembers(db);
    FrozenOccurrences(db);
    FrozenSlice(db);
    HasContract(db);
    NoPayoutsYet(db);
  }

  lemma NoPayoutsYet(db: Db)
    requires Inv(db) && db.run.None?
    ensures db.payouts == map[]
  {
    hide LinksOk, BookOk, LifeOk, SubmissionsOk, LegsOk, FrozenOk, Roster;
  }

  lemma RecordNet(db: Db, a: Account)
    requires Ready(db)
    ensures WellFormed(FrozenInput(db))
    ensures Net(Record(db, ResultOf(db)).ledger, a)
         == Net(db.ledger, a)
          + SettlementNet(VerdictsFrozen(db), db.pod.contract.slice, Roster(db.memberships), a)
  {
    hide Ready, Net, Postings, SettlementNet, FrozenInput, WellFormed, Roster, AllByRule, ResultsInOrder;
    Frozen(db);
    var input := FrozenInput(db);
    ResultsFollowRules(input);
    MembersDiffer(input);
    NetOfPostings(VerdictsFrozen(db), input.slice, input.members, ResultOf(db).occurrences, a);
    NetOfMany(db.ledger, Postings(input.slice, ResultOf(db).occurrences), a);
  }

  lemma MembersDiffer(input: Input)
    requires WellFormed(input)
    ensures DistinctMembers(input.members)
  {
  }

  /** The run row of a roster member. */
  lemma RecordRow(db: Db, m: Id)
    requires Ready(db) && m in Roster(db.memberships)
    ensures WellFormed(FrozenInput(db))
    ensures var after := Record(db, ResultOf(db));
            && m in after.run.value.entitlements
            && RunRowFits(after.run.value.entitlements[m], PayoutLegOf(after.payouts, m),
                          TotalOf(VerdictsFrozen(db), db.pod.contract.slice, m), db.pod.contract.totalLuna)
  {
    hide Ready, Postings, FrozenInput, WellFormed, Roster, TotalOf, RunRowFits, Freeze;
    Frozen(db);
    var input := FrozenInput(db);
    var j := MemberAt(input.members, m);
    RunRow(input, j);
    FrozenDeposit(db, j);
  }

  lemma MemberAt(members: seq<MemberInput>, m: Id) returns (j: nat)
    requires m in MemberIds(members)
    ensures j < |members| && members[j].id == m
  {
    var member :| member in members && member.id == m;
    j :| 0 <= j < |members| && members[j] == member;
  }

  lemma FrozenDeposit(db: Db, j: nat)
    requires Ready(db) && j < |FrozenInput(db).members|
    ensures FrozenInput(db).members[j].deposit == db.pod.contract.totalLuna
  {
    hide ReadyPod, FrozenInput;
    FrozenMembers(db);
    assert FrozenInput(db).members[j] in FrozenInput(db).members;
  }

  lemma RecordKeepsBalances(db: Db)
    requires Ready(db)
    ensures WellFormed(FrozenInput(db)) && BalancesOk(Record(db, ResultOf(db)))
  {
    hide Ready, Net, Record, FrozenInput, WellFormed, Roster, TotalOf, HeldFor;
    Frozen(db);
    var after := Record(db, ResultOf(db));
    forall a | a != Treasury ensures Net(after.ledger, a) == Owed(after, a) {
      BalanceAfter(db, a);
    }
  }

  lemma BalanceAfter(db: Db, a: Account)
    requires Ready(db) && a != Treasury
    ensures WellFormed(FrozenInput(db))
    ensures Net(Record(db, ResultOf(db)).ledger, a) == Owed(Record(db, ResultOf(db)), a)
  {
    hide Ready, Net, FrozenInput, WellFormed, Roster, TotalOf, Postings, Freeze, Entitlements, QueuedLegs;
    Frozen(db);
    RecordNet(db, a);
    OwedBefore(db, a);
    ReadyHolds(db);
    AboutBalance(db, a);
    if a.PayoutDue? {
      if a.membership in Roster(db.memberships) {
        RecordRow(db, a.membership);
      } else {
        RecordKeys(db);
      }
    }
  }

  lemma ReadyHolds(db: Db)
    requires Ready(db)
    ensures Inv(db) && db.run.None? && db.refunds == map[]
    ensures db.pod.state == FinalReview && db.pod.contract.mode == Proportional
  {
    hide Inv;
  }

  lemma RecordKeys(db: Db)
    requires Ready(db)
    ensures WellFormed(FrozenInput(db))
    ensures Record(db, ResultOf(db)).run.value.entitlements.Keys == Roster(db.memberships)
    ensures Record(db, ResultOf(db)).payouts.Keys <= Roster(db.memberships)
  {
    hide Ready, FrozenInput, WellFormed, Roster, TotalOf, Postings, Freeze, DistinctMembers;
    Frozen(db);
    var input := FrozenInput(db);
    MembersDiffer(input);
    EntitlementRows(input.members, ResultOf(db).members);
    LegRows(input.members, ResultOf(db).members);
  }

  lemma RecordKeepsKeys(db: Db)
    requires Ready(db)
    ensures WellFormed(FrozenInput(db))
    ensures var after := Record(db, ResultOf(db));
            && KeysOk(after.ledger, after.intents, after.refunds, after.payouts, after.run.Some?)
            && DistinctKeys(after.ledger)
            && EntriesOk(after.ledger, after.intents, after.refunds, after.payouts)
  {
    hide Ready, FrozenInput, WellFormed, Roster, Postings, KeysOk, DistinctKeys, EntriesOk, QueuedLegs, Entitlements,
         Freeze, ResultsInOrder, AllByRule, ResultIds;
    ReadyHolds(db);
    Frozen(db);
    HasKeys(db);
    var input := FrozenInput(db);
    ResultsFollowRules(input);
    MembersDiffer(input);
    PostingKeys(input.slice, input.members, ResultOf(db).occurrences);
    var legs := QueuedLegs(map[], ResultOf(db).members);
    LegsAreNew(ResultOf(db).members);
    forall m | m in legs ensures legs[m].state == L.Queued {
      var amount :| legs[m] == L.NewLeg(amount);
    }
    AppendSettlement(db.ledger, Postings(input.slice, ResultOf(db).occurrences), ResultIds(ResultOf(db).occurrences),
                     db.intents, legs);
  }

  /** Settlement entries with new keys join a ledger that had none. */
  lemma AppendSettlement(ledger: Book, more: Book, ids: set<Id>, intents: map<Id, Intent>, legs: map<Id, L.Leg>)
    requires KeysOk(ledger, intents, map[], map[], false) && DistinctKeys(ledger)
    requires EntriesOk(ledger, intents, map[], map[])
    requires KeyedByAll(more, ids) && forall m | m in legs :: legs[m].state == L.Queued
    ensures KeysOk(ledger + more, intents, map[], legs, true)
    ensures DistinctKeys(ledger + more) && EntriesOk(ledger + more, intents, map[], legs)
  {
    hide DistinctKeys;
    KeysOfMany(ledger, more);
    DistinctJoin(ledger, more);
    forall k | !SettlementKey(k)
      ensures Due(k, intents, map[], map[]) <==> Due(k, intents, map[], legs)
    {
    }
    forall e | e in ledger + more ensures EntryOk(e, intents, map[], legs) {
      assert e in more ==> e.key in Keys(more);
      assert e in ledger ==> EntryOk(e, intents, map[], map[]);
    }
  }

  lemma RecordKeepsLegs(db: Db)
    requires Ready(db)
    ensures WellFormed(FrozenInput(db)) && LegsOk(Record(db, ResultOf(db)).payouts)
  {
    hide Ready, FrozenInput, WellFormed, Roster, Postings, L.LegOk, L.NewLeg;
    Frozen(db);
    var legs := QueuedLegs(map[], ResultOf(db).members);
    LegsAreNew(ResultOf(db).members);
    forall m | m in legs ensures L.LegOk(legs[m]) {
      var amount :| legs[m] == L.NewLeg(amount);
      NewLegIsOk(amount);
    }
  }

  /** A fresh run has an entitlement to pay. */
  lemma FreshRunIsUnresolved(db: Db)
    requires Ready(db)
    ensures WellFormed(FrozenInput(db))
    ensures var run := Record(db, ResultOf(db)).run.value; run.state == Executing && !AllResolved(run)
  {
    hide Ready, FrozenInput, WellFormed, Roster, TotalOf, Postings, Freeze, Entitlements, QueuedLegs;
    Frozen(db);
    var input := FrozenInput(db);
    var j := SomebodyIsPaid(input);
    MemberIsListed(input.members, j);
    RecordRow(db, input.members[j].id);
    var run := Record(db, ResultOf(db)).run.value;
    assert Unresolved(run.entitlements[input.members[j].id]);
  }

  lemma MemberIsListed(members: seq<MemberInput>, j: nat)
    requires j < |members|
    ensures members[j].id in MemberIds(members)
  {
    assert members[j] in members;
  }

  lemma RecordKeepsRun(db: Db)
    requires Ready(db)
    ensures WellFormed(FrozenInput(db))
    ensures var after := Record(db, ResultOf(db));
            RunOk(after.pod, Roster(after.memberships), after.refunds, after.payouts, after.run)
  {
    hide Ready, FrozenInput, WellFormed, Roster, TotalOf, Postings, Freeze, Entitlements, QueuedLegs, AllResolved,
         EntitlementFits;
    ReadyHolds(db);
    Frozen(db);
    RecordKeys(db);
    FreshRunIsUnresolved(db);
    var after := Record(db, ResultOf(db));
    forall m | m in after.run.value.entitlements
      ensures EntitlementFits(after.run.value.entitlements[m], PayoutLegOf(after.payouts, m))
    {
      RecordRow(db, m);
    }
  }

  lemma RecordKeepsFrozen(db: Db)
    requires Ready(db)
    ensures WellFormed(FrozenInput(db))
    ensures FrozenOk(db.submissions, Record(db, ResultOf(db)).run)
  {
    hide ReadyPod, FrozenInput, WellFormed, Roster, Postings, Freeze, Entitlements, QueuedLegs, VerdictOf;
    Frozen(db);
    ResultsAreRight(db);
    FreezeAll(ResultOf(db).occurrences, db.submissions);
  }

  lemma RecordKeeps(db: Db)
    requires Ready(db)
    ensures WellFormed(FrozenInput(db)) && Inv(Record(db, ResultOf(db)))
  {
    hide Ready, LinksOk, KeysOk, DistinctKeys, EntriesOk, BalancesOk, LegsOk, RunOk, LifeOk, SubmissionsOk, FrozenOk,
         FrozenInput, WellFormed, Postings, Freeze, Entitlements, QueuedLegs, Roster;
    ReadyHolds(db);
    Frozen(db);
    var after := Record(db, ResultOf(db));
    SameLinks(db, after);
    RecordKeepsKeys(db);
    RecordKeepsBalances(db);
    RecordKeepsLegs(db);
    RecordKeepsRun(db);
    RecordKeepsFrozen(db);
  }

  lemma DoneIsReady(db: Db, now: Time)
    requires Inv(db) && Finalize(db, now).reply == Done
    ensures Ready(db) && Finalize(db, now).db == Record(db, ResultOf(db))
  {
    hide Inv, CalendarClosed, FundedRoster, FrozenInput, Record, CreditsMatch, ReviewsDone;
    CreditsMatchIff(db);
    ReviewsDoneIff(db);
  }

  lemma FinalizeKeeps(db: Db, now: Time)
    requires Inv(db)
    ensures Inv(Finalize(db, now).db)
  {
    hide Inv, CalendarClosed, FundedRoster, FrozenInput, Record, CreditsMatch, ReviewsDone, Accepts;
    if Finalize(db, now).reply == Done {
      DoneIsReady(db, now);
      RecordKeeps(db);
    }
  }

  // ---------------------------------------------------------------------------------------------
  // What a finalization leaves behind.
  // ---------------------------------------------------------------------------------------------

  /** The books after a successful finalization: the participant, occurrence and bonus liabilities are empty, and
      each roster member's payout liability is its entitlement, by the rules, which is the amount of its one
      payout leg, or nothing without a leg. The treasury is untouched. */
  lemma FinalizeClosesBooks(db: Db, now: Time, m: Id, o: Id)
    requires Inv(db) && Finalize(db, now).reply == Done
    ensures var after := Finalize(db, now).db;
            && Net(after.ledger, Participant(m)) == 0
            && Net(after.ledger, OccurrenceShare(o, m)) == 0
            && Net(after.ledger, BonusPool(o)) == 0
            && TreasuryAsset(after.ledger) == TreasuryAsset(db.ledger)
            && after.run.Some? && after.run.value.entitlements.Keys == Roster(db.memberships)
            && Net(after.ledger, PayoutDue(m)) == (if m in after.payouts then after.payouts[m].amount else 0)
            && (m in Roster(db.memberships) ==>
                  && m in after.run.value.entitlements
                  && after.run.value.entitlements[m].amounts
                       == TotalOf(VerdictsFrozen(db), db.pod.contract.slice, m)
                  && Net(after.ledger, PayoutDue(m)) == after.run.value.entitlements[m].amounts.payout)
  {
    hide Inv, Finalize, Ready, Net, Record, FrozenInput, Roster, TotalOf;
    DoneIsReady(db, now);
    RecordKeeps(db);
    RecordKeys(db);
    RecordNet(db, Treasury);
    var after := Finalize(db, now).db;
    AboutBalance(after, Participant(m));
    AboutBalance(after, OccurrenceShare(o, m));
    AboutBalance(after, BonusPool(o));
    AboutBalance(after, PayoutDue(m));
    RecordRuns(db);
    if m in Roster(db.memberships) { RecordRow(db, m); }
  }

  lemma RecordRuns(db: Db)
    requires WellFormed(FrozenInput(db))
    ensures Record(db, ResultOf(db)).run.Some?
  {
  }

  /** Every occurrence and roster member has its frozen outcome. */
  lemma EveryOutcomeIsFrozen(db: Db, now: Time, k: nat, m: Id)
    requires Inv(db) && Finalize(db, now).reply == Done
    requires k < |db.occurrences| && m in Roster(db.memberships)
    ensures var after := Finalize(db, now).db;
            && after.run.Some?
            && SubmissionId(db.occurrences[k].id, m) in after.run.value.outcomes
            && after.run.value.outcomes[SubmissionId(db.occurrences[k].id, m)]
                 == VerdictOf(db.submissions, SubmissionId(db.occurrences[k].id, m))
  {
    hide Inv, Finalize, Ready, FrozenInput, Roster, VerdictOf, WellFormed, Freeze, Postings, ResultOf;
    DoneIsReady(db, now);
    Frozen(db);
    ResultsAreRight(db);
    FreezeAll(ResultOf(db).occurrences, db.submissions);
    ResultAt(db, k, m);
    var r := ResultOf(db).occurrences[k];
    var x :| x in r.outcomes && x.member == m;
    assert r in ResultOf(db).occurrences;
    assert SubmissionId(r.id, x.member) in Freeze(ResultOf(db).occurrences);
  }

  lemma ResultAt(db: Db, k: nat, m: Id)
    requires WellFormed(FrozenInput(db)) && k < |db.occurrences| && m in MemberIds(FrozenInput(db).members)
    ensures k < |ResultOf(db).occurrences| && ResultOf(db).occurrences[k].id == db.occurrences[k].id
    ensures exists x :: x in ResultOf(db).occurrences[k].outcomes && x.member == m
  {
    hide WellFormed, AmountsOf, VerdictOf;
    var j := MemberAt(FrozenInput(db).members, m);
    OutcomesAt(FrozenInput(db), k);
    assert ResultOf(db).occurrences[k].outcomes[j].member == m;
  }
}
