/** Finalizing a settlement: the guards, the frozen input, and the rows and postings the result turns into. */
module Finalization {
  import opened Basics
  import opened Ledger
  import opened Rows
  import opened Invariants
  import opened S = SettlementRules
  import C = SettlementCalculator
  import L = PayoutLegs

  // ---------------------------------------------------------------------------------------------
  // The guards.
  // ---------------------------------------------------------------------------------------------

  /** Every frozen occurrence is numbered and closed. */
  predicate CalendarClosed(db: Db, now: Time) {
    && |db.occurrences| == db.pod.contract.occurrenceCount
    && (forall k | 0 <= k < |db.occurrences| ::
          && db.occurrences[k].ordinal == k + 1
          && db.occurrences[k].closesAt <= now
          && db.occurrences[k].state == ReviewOpen)
  }

  /** The deposits `finalizePodSettlement` selects. */
  function AppliedDeposits(intents: map<Id, Intent>): set<Id> {
    set i | i in intents && intents[i].state == AppliedToRoster
  }

  /** A roster member with its deposit, against the frozen contract. */
  predicate MatchesContract(db: Db, m: Id)
    requires m in db.memberships
  {
    var r := db.memberships[m];
    && r.acceptedHash == Some(db.pod.contractHash)
    && r.intent.Some?
    && r.intent.value in AppliedDeposits(db.intents)
    && var d := db.intents[r.intent.value];
       d.membership == m && d.user == r.user && d.amount == db.pod.contract.totalLuna && d.finalizedAt.Some?
  }

  /** How many deposit credits the ledger holds. */
  function CountCredits(ledger: Book): nat {
    if ledger == [] then 0
    else CountCredits(ledger[..|ledger| - 1]) + if ledger[|ledger| - 1].key.DepositCredit? then 1 else 0
  }

  predicate IsCreditOf(e: Entry, i: Id, d: Intent) {
    e.key == DepositCredit(i) && e.credit == Participant(d.membership) && e.amount == d.amount
  }

  /** How many of them are the credit of this deposit. */
  function CountCreditsOf(ledger: Book, i: Id, d: Intent): nat {
    if ledger == [] then 0
    else CountCreditsOf(ledger[..|ledger| - 1], i, d) + if IsCreditOf(ledger[|ledger| - 1], i, d) then 1 else 0
  }

  predicate FundedRoster(db: Db) {
    var roster := Roster(db.memberships);
    && roster != {}
    && (forall m | m in roster :: db.memberships[m].user != db.pod.creator)
    && |AppliedDeposits(db.intents)| == |roster|
    && (forall m | m in roster :: MatchesContract(db, m))
  }

  predicate CreditsMatch(db: Db) {
    && CountCredits(db.ledger) == |AppliedDeposits(db.intents)|
    && (forall i | i in AppliedDeposits(db.intents) :: CountCreditsOf(db.ledger, i, db.intents[i]) == 1)
  }

  predicate ReviewsDone(db: Db) {
    forall s | s in db.submissions ::
      s.membership in Roster(db.memberships) && db.submissions[s].state != Reviewing
  }

  // ---------------------------------------------------------------------------------------------
  // The frozen input.
  // ---------------------------------------------------------------------------------------------

  /** The roster by ascending identifier. */
  function RosterInOrder(db: Db): seq<Id> {
    C.Sorted(Roster(db.memberships))
  }

  function DepositOf(db: Db, m: Id): int {
    if m in db.memberships && IntentOf(db.intents, db.memberships[m].intent).Some?
    then IntentOf(db.intents, db.memberships[m].intent).value.amount else 0
  }

  function OutcomesOf(submissions: map<SubmissionId, Submission>, occurrence: Id, roster: seq<Id>): seq<OutcomeInput> {
    seq(|roster|, j requires 0 <= j < |roster| =>
      OutcomeInput(roster[j], VerdictOf(submissions, SubmissionId(occurrence, roster[j]))))
  }

  /** What is handed to `calculateSettlement`. */
  function FrozenInput(db: Db): Input {
    var roster := RosterInOrder(db);
    Input(
      db.pod.contract.slice,
      seq(|roster|, j requires 0 <= j < |roster| => MemberInput(roster[j], DepositOf(db, roster[j]))),
      seq(|db.occurrences|, k requires 0 <= k < |db.occurrences| =>
        OccurrenceInput(db.occurrences[k].id, OutcomesOf(db.submissions, db.occurrences[k].id, roster))))
  }

  // ---------------------------------------------------------------------------------------------
  // The rows and postings of a result.
  // ---------------------------------------------------------------------------------------------

  /** An entry that is only written where there is an amount. */
  function IfPositive(e: Entry): Book {
    if e.amount > 0 then [e] else []
  }

  /** The entries of one outcome. */
  function OutcomePostings(slice: int, o: Id, r: OutcomeResult): Book {
    var m, amounts := r.member, r.amounts;
    [Entry(PrincipalAllocation(o, m), Participant(m), OccurrenceShare(o, m), slice)]
    + IfPositive(Entry(PrincipalProtection(o, m), OccurrenceShare(o, m), PayoutDue(m), amounts.principal))
    + IfPositive(Entry(ProvisionalForfeiture(o, m), OccurrenceShare(o, m), BonusPool(o), amounts.forfeiture))
    + IfPositive(Entry(ZeroRecipientRestoration(o, m), BonusPool(o), PayoutDue(m), amounts.restoration))
    + IfPositive(Entry(BonusEntitlement(o, m), BonusPool(o), PayoutDue(m), amounts.bonus))
  }

  function OccurrencePostings(slice: int, o: Id, outcomes: seq<OutcomeResult>): Book {
    if outcomes == [] then []
    else
      var last := |outcomes| - 1;
      OccurrencePostings(slice, o, outcomes[..last]) + OutcomePostings(slice, o, outcomes[last])
  }

  function Postings(slice: int, occurrences: seq<OccurrenceResult>): Book {
    if occurrences == [] then []
    else
      var last := |occurrences| - 1;
      Postings(slice, occurrences[..last])
      + OccurrencePostings(slice, occurrences[last].id, occurrences[last].outcomes)
  }

  /** The frozen outcomes of an occurrence, added to those of the earlier ones. */
  function FreezeOutcomes(frozen: map<SubmissionId, OutcomeState>, o: Id, outcomes: seq<OutcomeResult>)
    : map<SubmissionId, OutcomeState>
  {
    if outcomes == [] then frozen
    else
      var last := outcomes[|outcomes| - 1];
      FreezeOutcomes(frozen, o, outcomes[..|outcomes| - 1])[SubmissionId(o, last.member) := last.state]
  }

  function Freeze(occurrences: seq<OccurrenceResult>): map<SubmissionId, OutcomeState> {
    if occurrences == [] then map[]
    else
      var last := occurrences[|occurrences| - 1];
      FreezeOutcomes(Freeze(occurrences[..|occurrences| - 1]), last.id, last.outcomes)
  }

  function EntitlementFor(r: MemberResult): Entitlement {
    Entitlement(if r.amounts.payout > 0 then TransferQueued else NoTransferRequired, r.deposit, r.amounts)
  }

  function Entitlements(members: seq<MemberResult>): map<Id, Entitlement> {
    if members == [] then map[]
    else
      var last := members[|members| - 1];
      Entitlements(members[..|members| - 1])[last.id := EntitlementFor(last)]
  }

  function QueuedLegs(payouts: map<Id, L.Leg>, members: seq<MemberResult>): map<Id, L.Leg> {
    if members == [] then payouts
    else
      var last := members[|members| - 1];
      var before := QueuedLegs(payouts, members[..|members| - 1]);
      if last.amounts.payout > 0 then before[last.id := L.NewLeg(last.amounts.payout)] else before
  }

  /** The rows once the result of the calculation is recorded. */
  function Record(db: Db, s: Settlement): Db {
    db.(ledger := db.ledger + Postings(db.pod.contract.slice, s.occurrences),
        payouts := QueuedLegs(db.payouts, s.members),
        run := Some(Run(Executing, Freeze(s.occurrences), Entitlements(s.members))))
  }

  /** `finalizePodSettlement`. */
  function Finalize(db: Db, now: Time): Step {
    if db.run.Some? then Return(db)
    else if db.pod.state != FinalReview || db.pod.contract.mode != Proportional then Throw(db)
    else if !CalendarClosed(db, now) then Throw(db)
    else if !FundedRoster(db) then Throw(db)
    else if !CreditsMatch(db) then Throw(db)
    else if !ReviewsDone(db) then Throw(db)
    else if !Accepts(FrozenInput(db)) then Throw(db)
    else Step(Record(db, SettlementOf(FrozenInput(db))), Done)
  }
}
