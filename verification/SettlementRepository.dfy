/** The settlement repository as it runs: the guards, the calculation, and then run, outcome, ledger, entitlement
    and leg rows inserted one by one. */
module SettlementRepository {
  import opened Basics
  import opened Ledger
  import opened Rows
  import opened Database
  import opened S = SettlementRules
  import opened Finalization
  import C = SettlementCalculator
  import I = Invariants
  import L = PayoutLegs
  import T = Transactions
  import FinalizationKeeps

  // ---------------------------------------------------------------------------------------------
  // The guards that loop.
  // ---------------------------------------------------------------------------------------------

  /** Every roster member against the frozen contract. */
  method CheckRoster(database: Database, roster: seq<Id>) returns (matches: bool)
    requires forall m | m in roster :: m in database.memberships
    ensures matches <==> forall m | m in roster :: MatchesContract(database.Rows(), m)
  {
    for j := 0 to |roster|
      invariant forall m | m in roster[..j] :: m in database.memberships && MatchesContract(database.Rows(), m)
    {
      var membership := database.memberships[roster[j]];
      var applied := AppliedDeposits(database.intents);
      if membership.acceptedHash != Some(database.pod.contractHash) || membership.intent.None?
         || membership.intent.value !in applied {
        return false;
      }
      var deposit := database.intents[membership.intent.value];
      if deposit.membership != roster[j] || deposit.user != membership.user
         || deposit.amount != database.pod.contract.totalLuna || deposit.finalizedAt.None? {
        return false;
      }
      assert roster[..j + 1] == roster[..j] + [roster[j]];
    }
    assert roster[..|roster|] == roster;
    return true;
  }

  /** The roster guards, in the order of the query. */
  method CheckFundedRoster(database: Database) returns (funded: bool)
    ensures funded <==> FundedRoster(database.Rows())
  {
    hide FundedRoster, MatchesContract, AppliedDeposits, Roster;
    var roster := RosterInOrder(database.Rows());
    RosterRows(database.Rows());
    FundedWhen(database.Rows());
    if roster == [] || exists m :: m in roster && database.memberships[m].user == database.pod.creator {
      return false;
    }
    if |AppliedDeposits(database.intents)| != |roster| {
      return false;
    }
    funded := CheckRoster(database, roster);
  }

  /** How many entries are deposit credits. */
  method CreditRows(ledger: Book) returns (count: nat)
    ensures count == CountCredits(ledger)
  {
    count := 0;
    for k := 0 to |ledger|
      invariant count == CountCredits(ledger[..k])
    {
      assert ledger[..k + 1][..k] == ledger[..k];
      if ledger[k].key.DepositCredit? {
        count := count + 1;
      }
    }
    assert ledger[..|ledger|] == ledger;
  }

  /** How many entries are the credit of this deposit. */
  method CreditsOf(ledger: Book, i: Id, deposit: Intent) returns (count: nat)
    ensures count == CountCreditsOf(ledger, i, deposit)
  {
    count := 0;
    for k := 0 to |ledger|
      invariant count == CountCreditsOf(ledger[..k], i, deposit)
    {
      assert ledger[..k + 1][..k] == ledger[..k];
      var e := ledger[k];
      if e.key == DepositCredit(i) && e.credit == Participant(deposit.membership) && e.amount == deposit.amount {
        count := count + 1;
      }
    }
    assert ledger[..|ledger|] == ledger;
  }

  method CheckCredits(database: Database) returns (matches: bool)
    ensures matches <==> CreditsMatch(database.Rows())
  {
    hide CountCredits, CountCreditsOf;
    var applied := AppliedDeposits(database.intents);
    var credits := CreditRows(database.ledger);
    if credits != |applied| {
      return false;
    }
    var rest := applied;
    while rest != {}
      invariant rest <= applied
      invariant forall i | i in applied - rest :: CountCreditsOf(database.ledger, i, database.intents[i]) == 1
      decreases |rest|
    {
      var i :| i in rest;
      var count := CreditsOf(database.ledger, i, database.intents[i]);
      if count != 1 {
        return false;
      }
      rest := rest - {i};
    }
    return true;
  }

  // ---------------------------------------------------------------------------------------------
  // The rows of the result.
  // ---------------------------------------------------------------------------------------------

  /** The entries of one outcome. */
  method PostOutcome(database: Database, o: Id, outcome: OutcomeResult)
    modifies database`ledger
    ensures database.ledger == old(database.ledger) + OutcomePostings(database.pod.contract.slice, o, outcome)
  {
    var m, amounts, slice := outcome.member, outcome.amounts, database.pod.contract.slice;
    ghost var before := database.ledger;
    var allocation := Entry(PrincipalAllocation(o, m), Participant(m), OccurrenceShare(o, m), slice);
    var principal := Entry(PrincipalProtection(o, m), OccurrenceShare(o, m), PayoutDue(m), amounts.principal);
    var forfeiture := Entry(ProvisionalForfeiture(o, m), OccurrenceShare(o, m), BonusPool(o), amounts.forfeiture);
    var restoration := Entry(ZeroRecipientRestoration(o, m), BonusPool(o), PayoutDue(m), amounts.restoration);
    var bonus := Entry(BonusEntitlement(o, m), BonusPool(o), PayoutDue(m), amounts.bonus);
    database.ledger := database.ledger + [allocation];
    InsertPositive(database, principal);
    InsertPositive(database, forfeiture);
    InsertPositive(database, restoration);
    InsertPositive(database, bonus);
    Regroup(before, [allocation], IfPositive(principal), IfPositive(forfeiture), IfPositive(restoration),
            IfPositive(bonus));
  }

  method InsertPositive(database: Database, e: Entry)
    modifies database`ledger
    ensures database.ledger == old(database.ledger) + IfPositive(e)
  {
    if e.amount > 0 {
      database.ledger := database.ledger + [e];
    }
  }

  lemma Regroup(b: Book, b0: Book, b1: Book, b2: Book, b3: Book, b4: Book)
    ensures b + b0 + b1 + b2 + b3 + b4 == b + (b0 + b1 + b2 + b3 + b4)
  {
  }

  /** The loop over the outcomes of an occurrence. */
  method RecordOccurrence(database: Database, occurrence: OccurrenceResult)
    requires database.run.Some?
    modifies database`ledger, database`run
    ensures database.ledger == old(database.ledger)
              + OccurrencePostings(database.pod.contract.slice, occurrence.id, occurrence.outcomes)
    ensures database.run == Some(old(database.run.value).(
              outcomes := FreezeOutcomes(old(database.run.value.outcomes), occurrence.id, occurrence.outcomes)))
  {
    hide OutcomePostings;
    var o, outcomes, slice := occurrence.id, occurrence.outcomes, database.pod.contract.slice;
    ghost var run := database.run.value;
    for j := 0 to |outcomes|
      invariant database.pod == old(database.pod)
      invariant database.ledger == old(database.ledger) + OccurrencePostings(slice, o, outcomes[..j])
      invariant database.run == Some(run.(outcomes := FreezeOutcomes(run.outcomes, o, outcomes[..j])))
    {
      assert outcomes[..j + 1][..j] == outcomes[..j];
      var current := database.run.value;
      database.run := Some(current.(
        outcomes := current.outcomes[SubmissionId(o, outcomes[j].member) := outcomes[j].state]));
      ghost var ledger := database.ledger;
      PostOutcome(database, o, outcomes[j]);
      assert database.ledger == old(database.ledger)
               + (OccurrencePostings(slice, o, outcomes[..j]) + OutcomePostings(slice, o, outcomes[j]));
    }
    assert outcomes[..|outcomes|] == outcomes;
  }

  /** The loop over the occurrences. */
  method RecordOccurrences(database: Database, occurrences: seq<OccurrenceResult>)
    requires database.run.Some? && database.run.value.outcomes == map[]
    modifies database`ledger, database`run
    ensures database.ledger == old(database.ledger) + Postings(database.pod.contract.slice, occurrences)
    ensures database.run == Some(old(database.run.value).(outcomes := Freeze(occurrences)))
  {
    hide OccurrencePostings, FreezeOutcomes;
    var slice := database.pod.contract.slice;
    for k := 0 to |occurrences|
      invariant database.pod == old(database.pod)
      invariant database.ledger == old(database.ledger) + Postings(slice, occurrences[..k])
      invariant database.run == Some(old(database.run.value).(outcomes := Freeze(occurrences[..k])))
    {
      assert occurrences[..k + 1][..k] == occurrences[..k];
      RecordOccurrence(database, occurrences[k]);
      assert database.ledger == old(database.ledger)
               + (Postings(slice, occurrences[..k])
                  + OccurrencePostings(slice, occurrences[k].id, occurrences[k].outcomes));
    }
    assert occurrences[..|occurrences|] == occurrences;
  }

  /** The loop over the members: an entitlement each, and a queued leg where there is a payout. */
  method RecordMembers(database: Database, members: seq<MemberResult>)
    requires database.run.Some? && database.run.value.entitlements == map[]
    modifies database`payouts, database`run
    ensures database.run == Some(old(database.run.value).(entitlements := Entitlements(members)))
    ensures database.payouts == QueuedLegs(old(database.payouts), members)
  {
    for j := 0 to |members|
      invariant database.run == Some(old(database.run.value).(entitlements := Entitlements(members[..j])))
      invariant database.payouts == QueuedLegs(old(database.payouts), members[..j])
    {
      assert members[..j + 1][..j] == members[..j];
      var member, current := members[j], database.run.value;
      var state := if member.amounts.payout > 0 then TransferQueued else NoTransferRequired;
      database.run := Some(current.(
        entitlements := current.entitlements[member.id := Entitlement(state, member.deposit, member.amounts)]));
      if member.amounts.payout > 0 {
        database.payouts := database.payouts[member.id := L.NewLeg(member.amounts.payout)];
      }
    }
    assert members[..|members|] == members;
  }

  // ---------------------------------------------------------------------------------------------
  // The transaction.
  // ---------------------------------------------------------------------------------------------

  method FinalizePodSettlement(database: Database, now: Time) returns (reply: Reply)
    requires database.Valid() && database.clock <= now
    modifies database
    ensures database.Valid()
    ensures Step(database.Rows(), reply) == Finalize(T.Wait(old(database.Rows()), now), now)
  {
    hide I.Inv, FrozenInput, FundedRoster, CreditsMatch, ReviewsDone, SettlementOf, Accepts, Postings, Freeze,
         Entitlements, QueuedLegs, CalendarClosed;
    database.Begin(now);
    var before := database.Rows();
    FinalizationKeeps.FinalizeKeeps(before, now);
    if database.run.Some? {
      return Nothing;
    }
    if database.pod.state != FinalReview || database.pod.contract.mode != Proportional {
      return Thrown;
    }
    if !CalendarClosed(before, now) {
      return Thrown;
    }
    var funded := CheckFundedRoster(database);
    if !funded {
      return Thrown;
    }
    var credited := CheckCredits(database);
    if !credited {
      return Thrown;
    }
    if !ReviewsDone(before) {
      return Thrown;
    }
    var calculated := C.CalculateSettlement(FrozenInput(before));
    if calculated.Err? {
      return Thrown;
    }
    database.run := Some(Run(Executing, map[], map[]));
    RecordOccurrences(database, calculated.value.occurrences);
    RecordMembers(database, calculated.value.members);
    return Done;
  }

  /** The roster rows the query returns, each once. */
  lemma RosterRows(db: Db)
    ensures var roster := RosterInOrder(db);
            && |roster| == |Roster(db.memberships)|
            && (forall m :: m in roster <==> m in Roster(db.memberships))
            && (forall m | m in roster :: m in db.memberships)
  {
  }

  lemma FundedWhen(db: Db)
    ensures FundedRoster(db)
       <==> && RosterInOrder(db) != []
            && (forall m | m in RosterInOrder(db) :: m in db.memberships && db.memberships[m].user != db.pod.creator)
            && |AppliedDeposits(db.intents)| == |RosterInOrder(db)|
            && (forall m | m in RosterInOrder(db) :: m in db.memberships && MatchesContract(db, m))
  {
    hide MatchesContract, AppliedDeposits;
    RosterRows(db);
  }
}
