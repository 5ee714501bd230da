/** A settlement read off the rows it starts from: which review decides which frozen outcome, and what the reviews of a
    member are worth in money. */
module FinalizationRows {
  import opened Basics
  import opened Ledger
  import opened Rows
  import opened Invariants
  import opened Finalization
  import opened SettlementAmounts
  import S = SettlementRules
  import FinalizationGuards
  import FinalizationKeeps

  /** The member's submission for this occurrence is there, in one of these states. */
  predicate Reviewed(db: Db, k: nat, m: Id, states: set<SubmissionState>) {
    k < |db.occurrences|
    && var s := SubmissionId(db.occurrences[k].id, m);
       s in db.submissions && db.submissions[s].state in states
  }

  /** A finalization is passed over once there is a run; it takes effect exactly on a proportional Pod in final review
      with no submission under review and no refund leg; and otherwise it throws. */
  lemma FinalizeByState(db: Db)
    requires Inv(db)
    ensures var step := Finalize(db, db.clock);
            if db.run.Some? then step == Return(db)
            else if db.pod.state == FinalReview && db.pod.contract.mode == Proportional && db.refunds == map[]
                    && (forall s | s in db.submissions :: db.submissions[s].state != Reviewing)
            then step.reply == Done
            else step == Throw(db)
  {
    hide Inv, CalendarClosed, FundedRoster, CreditsMatch, ReviewsDone, FrozenInput, Record;
    if db.run.None? && db.pod.state == FinalReview && db.pod.contract.mode == Proportional {
      FinalizationGuards.FinalizeSucceedsIff(db, db.clock);
    }
  }

  // ---------------------------------------------------------------------------------------------
  // The frozen outcomes.
  // ---------------------------------------------------------------------------------------------

  /** The frozen outcome of every occurrence and roster member is the verdict on the submission row: approved, rejected
      and timed-out rows keep their verdict, and a draft or no row at all was missed. */
  lemma FrozenByRow(db: Db, now: Time, k: nat, m: Id)
    requires Inv(db) && Finalize(db, now).reply == Done
    requires k < |db.occurrences| && m in Roster(db.memberships)
    ensures var after, s := Finalize(db, now).db, SubmissionId(db.occurrences[k].id, m);
            && after.run.Some? && s in after.run.value.outcomes
            && var frozen := after.run.value.outcomes[s];
               && (frozen == S.Approved <==> Reviewed(db, k, m, {ReviewApproved}))
               && (frozen == S.Rejected <==> Reviewed(db, k, m, {ReviewRejected}))
               && (frozen == S.TimeoutProtected <==> Reviewed(db, k, m, {ReviewTimedOut}))
               && (frozen == S.Missed <==> s !in db.submissions || Reviewed(db, k, m, {Draft}))
  {
    hide Inv, Finalize, Roster, VerdictOf;
    FinalizationKeeps.EveryOutcomeIsFrozen(db, now, k, m);
    ReviewsAreOver(db, now);
    VerdictOnRow(db, k, m);
  }

  lemma ReviewsAreOver(db: Db, now: Time)
    requires Inv(db) && Finalize(db, now).reply == Done
    ensures FinalizationGuards.NoPendingReview(db)
  {
    hide Inv, Finalize, Roster, FinalizationGuards.ReadyPod;
    FinalizationKeeps.DoneIsReady(db, now);
  }

  /** The verdict by the state of the row, once no review is pending. */
  lemma VerdictOnRow(db: Db, k: nat, m: Id)
    requires FinalizationGuards.NoPendingReview(db) && k < |db.occurrences|
    ensures var s := SubmissionId(db.occurrences[k].id, m);
            var verdict := VerdictOf(db.submissions, s);
            && (verdict == S.Approved <==> Reviewed(db, k, m, {ReviewApproved}))
            && (verdict == S.Rejected <==> Reviewed(db, k, m, {ReviewRejected}))
            && (verdict == S.TimeoutProtected <==> Reviewed(db, k, m, {ReviewTimedOut}))
            && (verdict == S.Missed <==> s !in db.submissions || Reviewed(db, k, m, {Draft}))
  {
  }

  // ---------------------------------------------------------------------------------------------
  // The money.
  // ---------------------------------------------------------------------------------------------

  /** The occurrences in which the member was approved or protected. */
  function KeptIn(db: Db, m: Id): set<nat> {
    set k | k in Positions(|db.occurrences|) && Reviewed(db, k, m, {ReviewApproved, ReviewTimedOut})
  }

  function ApprovedIn(db: Db, m: Id): set<nat> {
    set k | k in Positions(|db.occurrences|) && Reviewed(db, k, m, {ReviewApproved})
  }

  function LostIn(db: Db, m: Id): set<nat> {
    Positions(|db.occurrences|) - KeptIn(db, m)
  }

  predicate SomebodyApproved(db: Db, k: nat) {
    exists m :: m in Roster(db.memberships) && Reviewed(db, k, m, {ReviewApproved})
  }

  /** The occurrences in which nobody on the roster was approved. */
  function NobodyApprovedIn(db: Db): set<nat> {
    set k | k in Positions(|db.occurrences|) && !SomebodyApproved(db, k)
  }

  /** The frozen input gives the verdict of the row. */
  lemma GivenIsVerdict(db: Db, k: nat, m: Id, states: set<S.OutcomeState>)
    requires k < |db.occurrences| && m in Roster(db.memberships)
    ensures Given(FrozenInput(db), k, m, states)
       <==> VerdictOf(db.submissions, SubmissionId(db.occurrences[k].id, m)) in states
    ensures m in Ended(FrozenInput(db).occurrences[k].outcomes, states)
       <==> VerdictOf(db.submissions, SubmissionId(db.occurrences[k].id, m)) in states
  {
    hide VerdictOf, Roster;
    var roster := RosterInOrder(db);
    var outcomes := OutcomesOf(db.submissions, db.occurrences[k].id, roster);
    assert FrozenInput(db).occurrences[k].outcomes == outcomes;
    assert m in roster;
    var j :| 0 <= j < |roster| && roster[j] == m;
    assert outcomes[j] in outcomes;
    forall o | o in outcomes && o.member == m ensures o == outcomes[j] {
      var x :| 0 <= x < |outcomes| && outcomes[x] == o;
    }
  }

  lemma EndedOnRoster(db: Db, k: nat, states: set<S.OutcomeState>)
    requires k < |db.occurrences|
    ensures Ended(FrozenInput(db).occurrences[k].outcomes, states) <= Roster(db.memberships)
  {
    hide VerdictOf, Roster;
    var roster := RosterInOrder(db);
    assert FrozenInput(db).occurrences[k].outcomes == OutcomesOf(db.submissions, db.occurrences[k].id, roster);
    forall o | o in FrozenInput(db).occurrences[k].outcomes ensures o.member in Roster(db.memberships) {
      assert o.member in roster;
    }
  }

  lemma SameCounts(db: Db, m: Id)
    requires FinalizationGuards.NoPendingReview(db) && m in Roster(db.memberships)
    ensures GivenIn(FrozenInput(db), m, KEPT) == KeptIn(db, m)
    ensures GivenIn(FrozenInput(db), m, LOST) == LostIn(db, m)
    ensures GivenIn(FrozenInput(db), m, {S.Approved}) == ApprovedIn(db, m)
  {
    hide VerdictOf, Roster, FinalizationGuards.NoPendingReview, Given, Reviewed;
    forall k: nat | k < |db.occurrences|
      ensures Given(FrozenInput(db), k, m, KEPT) == Reviewed(db, k, m, {ReviewApproved, ReviewTimedOut})
      ensures Given(FrozenInput(db), k, m, LOST) == !Reviewed(db, k, m, {ReviewApproved, ReviewTimedOut})
      ensures Given(FrozenInput(db), k, m, {S.Approved}) == Reviewed(db, k, m, {ReviewApproved})
    {
      GivenIsVerdict(db, k, m, KEPT);
      GivenIsVerdict(db, k, m, LOST);
      GivenIsVerdict(db, k, m, {S.Approved});
      VerdictOnRow(db, k, m);
      EitherWay(db, k, m);
    }
  }

  lemma EitherWay(db: Db, k: nat, m: Id)
    ensures Reviewed(db, k, m, {ReviewApproved, ReviewTimedOut})
       <==> Reviewed(db, k, m, {ReviewApproved}) || Reviewed(db, k, m, {ReviewTimedOut})
  {
  }

  lemma SameUnapproved(db: Db)
    requires FinalizationGuards.NoPendingReview(db)
    ensures Unapproved(FrozenInput(db)) == NobodyApprovedIn(db)
  {
    hide VerdictOf, Roster, FinalizationGuards.NoPendingReview, Reviewed, Ended;
    forall k: nat | k < |db.occurrences|
      ensures Ended(FrozenInput(db).occurrences[k].outcomes, {S.Approved}) == {} <==> !SomebodyApproved(db, k)
    {
      EndedOnRoster(db, k, {S.Approved});
      forall m | m in Roster(db.memberships)
        ensures m in Ended(FrozenInput(db).occurrences[k].outcomes, {S.Approved})
           <==> Reviewed(db, k, m, {ReviewApproved})
      {
        GivenIsVerdict(db, k, m, {S.Approved});
        VerdictOnRow(db, k, m);
      }
    }
  }

  /** The entitlement of a roster member by its reviews: a slice for every occurrence it was approved or protected in;
      one forfeited for every other, back where nobody was approved; a bonus only if it was approved somewhere; and a
      queued payout leg of exactly what that makes, if it makes anything. */
  lemma EntitlementByRows(db: Db, now: Time, m: Id)
    requires Inv(db) && Finalize(db, now).reply == Done && m in Roster(db.memberships)
    ensures var after, slice := Finalize(db, now).db, db.pod.contract.slice;
            && after.run.Some? && m in after.run.value.entitlements
            && var e := after.run.value.entitlements[m];
               && e.deposit == db.pod.contract.totalLuna == e.amounts.principal + e.amounts.forfeiture
               && e.amounts.principal == |KeptIn(db, m)| * slice
               && e.amounts.forfeiture == |LostIn(db, m)| * slice
               && e.amounts.restoration == |LostIn(db, m) * NobodyApprovedIn(db)| * slice
               && (if ApprovedIn(db, m) == {} then e.amounts.bonus == 0 else e.amounts.bonus >= 0)
               && e.amounts.payout == e.amounts.principal + e.amounts.restoration + e.amounts.bonus
               && (m in after.payouts <==> e.amounts.payout > 0)
               && (m in after.payouts ==> after.payouts[m].amount == e.amounts.payout)
  {
    hide Inv, Finalize, Roster, FrozenInput, Record, S.TotalOf, S.WellFormed, KeptIn, LostIn, ApprovedIn,
         NobodyApprovedIn, GivenIn, Unapproved, FinalizationKeeps.Ready, FinalizationGuards.NoPendingReview;
    FinalizationKeeps.DoneIsReady(db, now);
    ReviewsAreOver(db, now);
    FinalizationKeeps.RecordRow(db, m);
    FinalizationKeeps.Frozen(db);
    FinalizationKeeps.RecordRuns(db);
    var input := FrozenInput(db);
    var j := FinalizationKeeps.MemberAt(input.members, m);
    FinalizationKeeps.FrozenDeposit(db, j);
    TotalsByVerdicts(input, j);
    MemberTotal(input, j);
    SameCounts(db, m);
    SameUnapproved(db);
  }

  lemma MemberTotal(input: S.Input, j: nat)
    requires S.WellFormed(input) && j < |input.members|
    ensures S.SettlementOf(input).members[j].amounts
         == S.TotalOf(S.AllVerdicts(input.occurrences), input.slice, input.members[j].id)
  {
    hide S.TotalOf, S.CompleteOutcomes;
  }

  /** Approved in every occurrence, a member is paid at least its deposit. */
  lemma ApprovedThroughout(db: Db, now: Time, m: Id)
    requires Inv(db) && Finalize(db, now).reply == Done && m in Roster(db.memberships)
    requires forall k: nat | k < |db.occurrences| :: Reviewed(db, k, m, {ReviewApproved})
    ensures var after := Finalize(db, now).db;
            && after.run.Some? && m in after.payouts && after.payouts[m].amount >= db.pod.contract.totalLuna > 0
            && m in after.run.value.entitlements && after.run.value.entitlements[m].amounts.forfeiture == 0
  {
    hide Inv, Finalize, Roster, NobodyApprovedIn;
    EntitlementByRows(db, now, m);
    FinalizationGuards.HasContract(db);
    forall k: nat | k < |db.occurrences| ensures k in KeptIn(db, m) { EitherWay(db, k, m); }
    assert LostIn(db, m) == {};
    TotalIsPositive(db.pod.contract);
  }

  lemma TotalIsPositive(c: Contract)
    requires PublishedContract(c)
    ensures c.totalLuna > 0
  {
  }

  /** Neither approved nor protected in any occurrence, with somebody approved in each, a member is paid nothing. */
  lemma LostThroughout(db: Db, now: Time, m: Id)
    requires Inv(db) && Finalize(db, now).reply == Done && m in Roster(db.memberships)
    requires forall k: nat | k < |db.occurrences| ::
               SomebodyApproved(db, k) && !Reviewed(db, k, m, {ReviewApproved, ReviewTimedOut})
    ensures var after := Finalize(db, now).db;
            && after.run.Some? && m !in after.payouts && m in after.run.value.entitlements
            && after.run.value.entitlements[m].amounts.payout == 0
            && after.run.value.entitlements[m].amounts.forfeiture == db.pod.contract.totalLuna
  {
    hide Inv, Finalize, Roster, Reviewed, SomebodyApproved;
    EntitlementByRows(db, now, m);
    assert KeptIn(db, m) == {};
    assert NobodyApprovedIn(db) == {};
    forall k: nat | k < |db.occurrences| ensures !Reviewed(db, k, m, {ReviewApproved}) { EitherWay(db, k, m); }
    assert ApprovedIn(db, m) == {};
    assert LostIn(db, m) * NobodyApprovedIn(db) == {};
  }

  // ---------------------------------------------------------------------------------------------
  // The entries.
  // ---------------------------------------------------------------------------------------------

  /** What the entry of each settlement key moves. */
  predicate Says(e: Entry, slice: int) {
    match e.key
    case PrincipalAllocation(o, m) => e == Entry(e.key, Participant(m), OccurrenceShare(o, m), slice)
    case PrincipalProtection(o, m) => e == Entry(e.key, OccurrenceShare(o, m), PayoutDue(m), slice)
    case ProvisionalForfeiture(o, m) => e == Entry(e.key, OccurrenceShare(o, m), BonusPool(o), slice)
    case ZeroRecipientRestoration(o, m) => e == Entry(e.key, BonusPool(o), PayoutDue(m), slice)
    case BonusEntitlement(o, m) => e == Entry(e.key, BonusPool(o), PayoutDue(m), e.amount) && e.amount > 0
    case _ => true
  }

  /** The settlement entries of one outcome in the state `state`, next to `approved` others. */
  predicate Keyed(keys: set<Key>, o: Id, m: Id, state: S.OutcomeState, approved: nat, bonus: int) {
    && PrincipalAllocation(o, m) in keys
    && (PrincipalProtection(o, m) in keys <==> state in KEPT)
    && (ProvisionalForfeiture(o, m) in keys <==> state in LOST)
    && (ZeroRecipientRestoration(o, m) in keys <==> state in LOST && approved == 0)
    && (BonusEntitlement(o, m) in keys <==> bonus > 0)
  }

  /** The occurrence and the member a settlement key names. */
  function Names(k: Key): (Id, Id)
    requires SettlementKey(k)
  {
    (k.occurrence, k.membership)
  }

  lemma OutcomeEntries(slice: int, o: Id, r: S.OutcomeResult, approved: nat, lost: nat)
    requires slice > 0 && Worth(r.state, slice, approved, lost, r.amounts)
    ensures forall e | e in OutcomePostings(slice, o, r) ::
              SettlementKey(e.key) && Names(e.key) == (o, r.member) && Says(e, slice)
    ensures Keyed(Keys(OutcomePostings(slice, o, r)), o, r.member, r.state, approved, r.amounts.bonus)
  {
    var m, a := r.member, r.amounts;
    var list := OutcomePostings(slice, o, r);
    var e1 := Entry(PrincipalAllocation(o, m), Participant(m), OccurrenceShare(o, m), slice);
    var e2 := Entry(PrincipalProtection(o, m), OccurrenceShare(o, m), PayoutDue(m), a.principal);
    var e3 := Entry(ProvisionalForfeiture(o, m), OccurrenceShare(o, m), BonusPool(o), a.forfeiture);
    var e4 := Entry(ZeroRecipientRestoration(o, m), BonusPool(o), PayoutDue(m), a.restoration);
    var e5 := Entry(BonusEntitlement(o, m), BonusPool(o), PayoutDue(m), a.bonus);
    forall e ensures e in list <==> e == e1 || (e == e2 && a.principal > 0) || (e == e3 && a.forfeiture > 0)
                                    || (e == e4 && a.restoration > 0) || (e == e5 && a.bonus > 0) {
    }
  }

  lemma {:induction false} InOccurrencePostings(slice: int, o: Id, outcomes: seq<S.OutcomeResult>, e: Entry)
    ensures e in OccurrencePostings(slice, o, outcomes)
       <==> exists j :: 0 <= j < |outcomes| && e in OutcomePostings(slice, o, outcomes[j])
  {
    hide OutcomePostings;
    if outcomes != [] {
      var n := |outcomes| - 1;
      InOccurrencePostings(slice, o, outcomes[..n], e);
      assert OccurrencePostings(slice, o, outcomes)
          == OccurrencePostings(slice, o, outcomes[..n]) + OutcomePostings(slice, o, outcomes[n]);
      if j :| 0 <= j < |outcomes| && e in OutcomePostings(slice, o, outcomes[j]) {
        assert j < n ==> outcomes[..n][j] == outcomes[j];
      }
    }
  }

  lemma {:induction false} InPostings(slice: int, results: seq<S.OccurrenceResult>, e: Entry)
    ensures e in Postings(slice, results)
       <==> exists k :: 0 <= k < |results| && e in OccurrencePostings(slice, results[k].id, results[k].outcomes)
  {
    hide OccurrencePostings;
    if results != [] {
      var n := |results| - 1;
      InPostings(slice, results[..n], e);
      assert Postings(slice, results)
          == Postings(slice, results[..n]) + OccurrencePostings(slice, results[n].id, results[n].outcomes);
      if k :| 0 <= k < |results| && e in OccurrencePostings(slice, results[k].id, results[k].outcomes) {
        assert k < n ==> results[..n][k] == results[k];
      }
    }
  }

  /** An entry of the settlement is one of one outcome. */
  lemma PostingSource(input: S.Input, e: Entry) returns (k: nat, i: nat)
    requires S.WellFormed(input) && e in Postings(input.slice, S.SettlementOf(input).occurrences)
    ensures k < |input.occurrences| && i < |input.members|
    ensures |S.SettlementOf(input).occurrences| == |input.occurrences|
    ensures |S.SettlementOf(input).occurrences[k].outcomes| == |input.members|
    ensures var result := S.SettlementOf(input).occurrences[k];
            && e in OutcomePostings(input.slice, result.id, result.outcomes[i])
  {
    hide OccurrencePostings, OutcomePostings, Worth, S.SettlementOf, S.WellFormed;
    var results := S.SettlementOf(input).occurrences;
    OutcomeIsWorth(input, 0, 0) by { AboutSizes(input); }
    InPostings(input.slice, results, e);
    k :| 0 <= k < |results| && e in OccurrencePostings(input.slice, results[k].id, results[k].outcomes);
    AboutSizes(input);
    OutcomeIsWorth(input, k, 0);
    InOccurrencePostings(input.slice, results[k].id, results[k].outcomes, e);
    i :| 0 <= i < |results[k].outcomes| && e in OutcomePostings(input.slice, results[k].id, results[k].outcomes[i]);
  }

  lemma AboutSizes(input: S.Input)
    requires S.WellFormed(input)
    ensures input.members != [] && input.occurrences != [] && input.slice > 0
  {
  }

  lemma PostingTarget(input: S.Input, k: nat, i: nat, e: Entry)
    requires S.WellFormed(input) && k < |input.occurrences| && i < |input.members|
    requires |S.SettlementOf(input).occurrences| == |input.occurrences|
    requires |S.SettlementOf(input).occurrences[k].outcomes| == |input.members|
    requires var result := S.SettlementOf(input).occurrences[k];
             e in OutcomePostings(input.slice, result.id, result.outcomes[i])
    ensures e in Postings(input.slice, S.SettlementOf(input).occurrences)
  {
    hide OccurrencePostings, OutcomePostings, Postings, S.SettlementOf, S.WellFormed;
    var results := S.SettlementOf(input).occurrences;
    InPostings(input.slice, results, e);
    InOccurrencePostings(input.slice, results[k].id, results[k].outcomes, e);
  }

  /** All settlement entries say what their key says, and each outcome has exactly the entries its verdict is worth. */
  lemma PostingsByVerdict(input: S.Input, k: nat, i: nat)
    requires S.WellFormed(input) && k < |input.occurrences| && i < |input.members|
    ensures var book := Postings(input.slice, S.SettlementOf(input).occurrences);
            && (forall e | e in book :: SettlementKey(e.key) && Says(e, input.slice))
            && |S.SettlementOf(input).occurrences| == |input.occurrences|
            && |S.SettlementOf(input).occurrences[k].outcomes| == |input.members|
            && var r := S.SettlementOf(input).occurrences[k].outcomes[i];
               Keyed(Keys(book), input.occurrences[k].id, input.members[i].id, r.state,
                     |Ended(input.occurrences[k].outcomes, {S.Approved})|, r.amounts.bonus)
  {
    hide Postings, OutcomePostings, Worth, Says, Keyed, S.SettlementOf, S.WellFormed, Ended;
    var results, slice := S.SettlementOf(input).occurrences, input.slice;
    var book := Postings(slice, results);
    forall e | e in book ensures SettlementKey(e.key) && Says(e, slice) {
      var x, y := PostingSource(input, e);
      EntriesAt(input, x, y);
    }
    EntriesAt(input, k, i);
    forall key | SettlementKey(key) && Names(key) == (input.occurrences[k].id, input.members[i].id)
      ensures key in Keys(book) <==> key in Keys(OutcomePostings(slice, results[k].id, results[k].outcomes[i]))
    {
      KeyOfOutcome(input, k, i, key);
    }
    SameKeyed(Keys(book), Keys(OutcomePostings(slice, results[k].id, results[k].outcomes[i])), input.occurrences[k].id,
              input.members[i].id, results[k].outcomes[i].state, |Ended(input.occurrences[k].outcomes, {S.Approved})|,
              results[k].outcomes[i].amounts.bonus);
  }

  lemma SameKeyed(a: set<Key>, b: set<Key>, o: Id, m: Id, state: S.OutcomeState, approved: nat, bonus: int)
    requires forall key | SettlementKey(key) && Names(key) == (o, m) :: key in a <==> key in b
    requires Keyed(b, o, m, state, approved, bonus)
    ensures Keyed(a, o, m, state, approved, bonus)
  {
  }

  /** The entries of one outcome of a settlement. */
  lemma EntriesAt(input: S.Input, k: nat, i: nat)
    requires S.WellFormed(input) && k < |input.occurrences| && i < |input.members|
    ensures |S.SettlementOf(input).occurrences| == |input.occurrences|
    ensures |S.SettlementOf(input).occurrences[k].outcomes| == |input.members|
    ensures var result := S.SettlementOf(input).occurrences[k];
            var list := OutcomePostings(input.slice, result.id, result.outcomes[i]);
            && result.id == input.occurrences[k].id && result.outcomes[i].member == input.members[i].id
            && (forall e | e in list ::
                  && SettlementKey(e.key) && Names(e.key) == (result.id, result.outcomes[i].member)
                  && Says(e, input.slice))
            && Keyed(Keys(list), result.id, result.outcomes[i].member, result.outcomes[i].state,
                     |Ended(input.occurrences[k].outcomes, {S.Approved})|, result.outcomes[i].amounts.bonus)
  {
    hide OutcomePostings, Worth, Says, Keyed, S.SettlementOf, S.WellFormed, Ended;
    OutcomeIsWorth(input, k, i);
    AboutSizes(input);
    OutcomeEntries(input.slice, S.SettlementOf(input).occurrences[k].id,
                   S.SettlementOf(input).occurrences[k].outcomes[i],
                   |Ended(input.occurrences[k].outcomes, {S.Approved})|,
                   |Ended(input.occurrences[k].outcomes, {S.Rejected, S.Missed})|);
  }

  lemma OnlyOne(input: S.Input, k: nat, i: nat, x: nat, y: nat)
    requires S.WellFormed(input) && k < |input.occurrences| && i < |input.members|
    requires x < |input.occurrences| && y < |input.members|
    requires input.occurrences[x].id == input.occurrences[k].id && input.members[y].id == input.members[i].id
    ensures x == k && y == i
  {
  }

  lemma KeyOfOutcome(input: S.Input, k: nat, i: nat, key: Key)
    requires S.WellFormed(input) && k < |input.occurrences| && i < |input.members|
    requires SettlementKey(key) && Names(key) == (input.occurrences[k].id, input.members[i].id)
    ensures |S.SettlementOf(input).occurrences| == |input.occurrences|
    ensures |S.SettlementOf(input).occurrences[k].outcomes| == |input.members|
    ensures var results := S.SettlementOf(input).occurrences;
            && (key in Keys(Postings(input.slice, results)) <==>
                  key in Keys(OutcomePostings(input.slice, results[k].id, results[k].outcomes[i])))
  {
    hide Postings, OutcomePostings, Says, Keyed, S.SettlementOf, S.WellFormed, Ended;
    EntriesAt(input, k, i);
    var results := S.SettlementOf(input).occurrences;
    if key in Keys(Postings(input.slice, results)) {
      var e :| e in Postings(input.slice, results) && e.key == key;
      var x, y := PostingSource(input, e);
      EntriesAt(input, x, y);
      OnlyOne(input, k, i, x, y);
    }
    if key in Keys(OutcomePostings(input.slice, results[k].id, results[k].outcomes[i])) {
      var e :| e in OutcomePostings(input.slice, results[k].id, results[k].outcomes[i]) && e.key == key;
      PostingTarget(input, k, i, e);
    }
  }

  /** The ledger after a settlement: what was there, and then only settlement entries, each moving what its key says. A
      roster member has, for each occurrence, its slice allocated; that slice protected if it was approved or timed out
      and forfeited otherwise; a restoration if it forfeited and nobody was approved; and a bonus only if approved. */
  lemma LedgerByRows(db: Db, now: Time, k: nat, m: Id)
    requires Inv(db) && Finalize(db, now).reply == Done && k < |db.occurrences| && m in Roster(db.memberships)
    ensures var after, o := Finalize(db, now).db, db.occurrences[k].id;
            && db.ledger <= after.ledger
            && (forall e | e in after.ledger[|db.ledger|..] :: SettlementKey(e.key) && Says(e, db.pod.contract.slice))
            && PrincipalAllocation(o, m) in Keys(after.ledger)
            && (PrincipalProtection(o, m) in Keys(after.ledger) <==> k in KeptIn(db, m))
            && (ProvisionalForfeiture(o, m) in Keys(after.ledger) <==> k in LostIn(db, m))
            && (ZeroRecipientRestoration(o, m) in Keys(after.ledger) <==> k in LostIn(db, m) * NobodyApprovedIn(db))
            && (BonusEntitlement(o, m) in Keys(after.ledger) ==> k in ApprovedIn(db, m))
  {
    hide Inv, Finalize, Roster, FrozenInput, Postings, S.SettlementOf, S.WellFormed, Says, Reviewed,
         FinalizationKeeps.Ready, FinalizationGuards.NoPendingReview, Ended, VerdictOf, SomebodyApproved;
    FinalizationKeeps.DoneIsReady(db, now);
    ReviewsAreOver(db, now);
    FinalizationKeeps.Frozen(db);
    var input := FrozenInput(db);
    var j := FinalizationKeeps.MemberAt(input.members, m);
    var book := Postings(input.slice, S.SettlementOf(input).occurrences);
    FrozenOccurrence(db, k);
    PostingsByVerdict(input, k, j);
    assert Finalize(db, now).db.ledger == db.ledger + book;
    NoneBefore(db, now);
    KeysAdd(db.ledger, book);
    StateOnRow(db, k, j);
  }

  lemma FrozenOccurrence(db: Db, k: nat)
    requires k < |db.occurrences|
    ensures |FrozenInput(db).occurrences| == |db.occurrences|
    ensures FrozenInput(db).occurrences[k].id == db.occurrences[k].id
    ensures FrozenInput(db).slice == db.pod.contract.slice
  {
    hide VerdictOf, Roster;
  }

  lemma NoneBefore(db: Db, now: Time)
    requires Inv(db) && Finalize(db, now).reply == Done
    ensures forall key | SettlementKey(key) :: key !in Keys(db.ledger)
  {
    hide Inv, Finalize, Roster, FinalizationKeeps.Ready;
    FinalizationKeeps.DoneIsReady(db, now);
    FinalizationKeeps.ReadyHolds(db);
    FinalizationGuards.HasKeys(db);
  }

  lemma KeysAdd(a: Book, b: Book)
    ensures Keys(a + b) == Keys(a) + Keys(b)
    ensures (a + b)[|a|..] == b
  {
  }

  /** The state of an outcome in the result of a settlement, by the row it was frozen from. */
  lemma StateOnRow(db: Db, k: nat, j: nat)
    requires FinalizationKeeps.Ready(db) && S.WellFormed(FrozenInput(db)) && k < |db.occurrences|
    requires j < |FrozenInput(db).members| && |FrozenInput(db).occurrences| == |db.occurrences|
    requires FinalizationGuards.NoPendingReview(db)
    requires FrozenInput(db).members[j].id in Roster(db.memberships)
    ensures var input, m := FrozenInput(db), FrozenInput(db).members[j].id;
            && |S.SettlementOf(input).occurrences| == |input.occurrences|
            && |S.SettlementOf(input).occurrences[k].outcomes| == |input.members|
            && var r := S.SettlementOf(input).occurrences[k].outcomes[j];
               && (r.state in KEPT <==> k in KeptIn(db, m))
               && (r.state in LOST <==> k in LostIn(db, m))
               && (r.amounts.bonus > 0 ==> k in ApprovedIn(db, m))
               && (|Ended(input.occurrences[k].outcomes, {S.Approved})| == 0 <==> k in NobodyApprovedIn(db))
  {
    hide Roster, FrozenInput, S.SettlementOf, S.WellFormed, Reviewed, FinalizationKeeps.Ready,
         FinalizationGuards.NoPendingReview, Ended, VerdictOf, SomebodyApproved;
    var input, m := FrozenInput(db), FrozenInput(db).members[j].id;
    OutcomeIsWorth(input, k, j);
    GivenIsVerdict(db, k, m, {S.SettlementOf(input).occurrences[k].outcomes[j].state});
    VerdictOnRow(db, k, m);
    EitherWay(db, k, m);
    SameUnapproved(db);
    NoneIsEmpty(Ended(input.occurrences[k].outcomes, {S.Approved}));
  }
}
