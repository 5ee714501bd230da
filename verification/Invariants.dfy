/** What holds of a Pod's rows after every transaction. */
module Invariants {
  import opened Basics
  import opened Ledger
  import opened Rows
  import opened Funding
  import S = SettlementRules
  import L = PayoutLegs

  // ---------------------------------------------------------------------------------------------
  // Deposits, memberships and refund legs agree.
  // ---------------------------------------------------------------------------------------------

  /** States of a deposit whose money has reached the treasury. */
  predicate Funded(s: DepositState) {
    s in {CreditedProvisional, AppliedToRoster, RefundPending, Refunded}
  }

  /** States of a deposit the participant still owns. */
  predicate Held(s: DepositState) {
    s in {CreditedProvisional, AppliedToRoster}
  }

  predicate BeforeLock(s: PodState) {
    s in {EnrollmentOpen, CutoffEvaluating}
  }

  predicate Locked(s: PodState) {
    s in {LockedScheduled, PodActive, FinalReview, Completed}
  }

  /** The states a refund leg can be in: no transaction marks it late or for manual review. */
  predicate RefundState(s: L.LegState) {
    s !in {L.Late, L.ManualReview}
  }

  function LegOf(refunds: map<Id, RefundLeg>, i: Id): Option<RefundLeg> {
    if i in refunds then Some(refunds[i]) else None
  }

  function IntentOf(intents: map<Id, Intent>, i: Option<Id>): Option<Intent> {
    if i.Some? && i.value in intents then Some(intents[i.value]) else None
  }

  /** A deposit against its membership row and its refund leg. */
  predicate DepositFits(pod: Pod, opensAt: Time, i: Id, d: Intent, r: Membership, leg: Option<RefundLeg>) {
    && d.user == r.user
    && d.amount == pod.contract.totalLuna
    && d.expiresAt == opensAt
    && (d.state != WalletRejected ==> r.intent == Some(i))
    && (d.state in {Observed, Finalized} || Funded(d.state) ==> d.hash.Some? && d.block.Some? && d.index.Some?)
    && (d.state == Finalized || Funded(d.state) ==> d.finalizedAt.Some?)
    && (Funded(d.state) ==> d.finalizedAt.value <= opensAt)
    && (d.state == CreditedProvisional ==> BeforeLock(pod.state) && r.state == FundedProvisional)
    && (d.state == AppliedToRoster ==> pod.contract.mode == Proportional && OnRoster(r.state))
    && (d.state == RefundPending ==> leg.Some? && leg.value.state != L.Confirmed)
    && (d.state == Refunded ==> leg.Some? && leg.value.state == L.Confirmed)
    && (leg.Some? ==>
          && d.state in {RefundPending, Refunded}
          && RefundState(leg.value.state)
          && leg.value.amount == d.amount
          && leg.value.membership == d.membership)
  }

  /** A membership against the deposit it points to. */
  predicate MembershipFits(pod: Pod, m: Id, r: Membership, d: Option<Intent>) {
    && m != EMPTY_ID
    && r.user != pod.creator
    && (r.intent.Some? ==> d.Some? && d.value.membership == m && d.value.state != WalletRejected)
    && (r.intent.Some? && pod.contract.mode == Proportional ==> r.acceptedHash == Some(pod.contractHash))
    && (r.state == DepositPending ==> pod.state == EnrollmentOpen && d.Some? && !Funded(d.value.state))
    && (r.state == FundedProvisional ==>
          BeforeLock(pod.state) && d.Some? && d.value.state == CreditedProvisional)
    && (OnRoster(r.state) ==>
          && d.Some?
          && (if pod.contract.mode == Proportional then d.value.state == AppliedToRoster
              else d.value.state in {RefundPending, Refunded}))
    && (r.state == RosterLocked ==> pod.state in {CutoffEvaluating, LockedScheduled})
    && (r.state == MemberActive ==> pod.state in {PodActive, FinalReview, Completed})
  }

  predicate DepositsOk(pod: Pod, opensAt: Time, memberships: map<Id, Membership>, intents: map<Id, Intent>,
                       refunds: map<Id, RefundLeg>) {
    forall i | i in intents ::
      && intents[i].membership in memberships
      && DepositFits(pod, opensAt, i, intents[i], memberships[intents[i].membership], LegOf(refunds, i))
  }

  predicate MembershipsOk(pod: Pod, memberships: map<Id, Membership>, intents: map<Id, Intent>) {
    forall m | m in memberships ::
      MembershipFits(pod, m, memberships[m], IntentOf(intents, memberships[m].intent))
  }

  predicate HashesOk(intents: map<Id, Intent>) {
    forall i, j | i in intents && j in intents && i != j && intents[i].hash.Some? ::
      intents[i].hash != intents[j].hash
  }

  predicate LinksOk(db: Db) {
    && db.occurrences != []
    && PublishedContract(db.pod.contract)
    && DepositsOk(db.pod, db.occurrences[0].opensAt, db.memberships, db.intents, db.refunds)
    && MembershipsOk(db.pod, db.memberships, db.intents)
    && HashesOk(db.intents)
    && db.refunds.Keys <= db.intents.Keys
  }

  // ---------------------------------------------------------------------------------------------
  // The ledger records exactly what happened, and every account holds what the rows say it should.
  // ---------------------------------------------------------------------------------------------

  predicate SettlementKey(k: Key) {
    k.PrincipalAllocation? || k.PrincipalProtection? || k.ProvisionalForfeiture? || k.ZeroRecipientRestoration?
    || k.BonusEntitlement?
  }

  /** Which movements must have been posted, given the rows. */
  predicate Due(k: Key, intents: map<Id, Intent>, refunds: map<Id, RefundLeg>, payouts: map<Id, L.Leg>) {
    match k
    case DepositCredit(i) => i in intents && Funded(intents[i].state)
    case RefundEntitlement(i) => i in refunds
    case RefundConfirmed(i) => i in refunds && refunds[i].state == L.Confirmed
    case PayoutConfirmed(m) => m in payouts && payouts[m].state == L.Confirmed
    case _ => false
  }

  ghost predicate KeysOk(ledger: Book, intents: map<Id, Intent>, refunds: map<Id, RefundLeg>, payouts: map<Id, L.Leg>,
                   settled: bool) {
    && (forall k | !SettlementKey(k) :: k in Keys(ledger) <==> Due(k, intents, refunds, payouts))
    && (forall k | SettlementKey(k) :: k in Keys(ledger) ==> settled)
  }

  predicate DistinctKeys(ledger: Book) {
    forall i, j | 0 <= i < j < |ledger| :: ledger[i].key != ledger[j].key
  }

  /** An entry moves the amount of the row its key names, between that row's accounts. */
  predicate EntryOk(e: Entry, intents: map<Id, Intent>, refunds: map<Id, RefundLeg>, payouts: map<Id, L.Leg>) {
    match e.key
    case DepositCredit(i) => i in intents && e == CreditEntry(i, intents[i])
    case RefundEntitlement(i) =>
      i in refunds && e.debit == Participant(refunds[i].membership) && e.credit == RefundDue(i)
      && e.amount == refunds[i].amount
    case RefundConfirmed(i) => i in refunds && e == RefundConfirmedEntry(i, refunds[i])
    case PayoutConfirmed(m) => m in payouts && e == PayoutEntry(m, payouts[m])
    case _ => true
  }

  predicate EntriesOk(ledger: Book, intents: map<Id, Intent>, refunds: map<Id, RefundLeg>, payouts: map<Id, L.Leg>) {
    forall e | e in ledger :: EntryOk(e, intents, refunds, payouts)
  }

  /** What the Pod owes the owner of a membership while the deposit is theirs. */
  function HeldFor(memberships: map<Id, Membership>, intents: map<Id, Intent>, settled: bool, m: Id): int {
    if m in memberships && !settled then
      var d := IntentOf(intents, memberships[m].intent);
      if d.Some? && Held(d.value.state) then d.value.amount else 0
    else 0
  }

  function RefundOwed(refunds: map<Id, RefundLeg>, i: Id): int {
    if i in refunds && refunds[i].state != L.Confirmed then refunds[i].amount else 0
  }

  function PayoutOwed(run: Option<Run>, m: Id): int {
    if run.Some? && m in run.value.entitlements && run.value.entitlements[m].state != TransferConfirmed
    then run.value.entitlements[m].amounts.payout else 0
  }

  function Owed(db: Db, a: Account): int {
    match a
    case Participant(m) => HeldFor(db.memberships, db.intents, db.run.Some?, m)
    case RefundDue(i) => RefundOwed(db.refunds, i)
    case PayoutDue(m) => PayoutOwed(db.run, m)
    case _ => 0
  }

  ghost predicate BalancesOk(db: Db) {
    forall a | a != Treasury :: Net(db.ledger, a) == Owed(db, a)
  }

  ghost predicate BookOk(db: Db) {
    && KeysOk(db.ledger, db.intents, db.refunds, db.payouts, db.run.Some?)
    && DistinctKeys(db.ledger)
    && EntriesOk(db.ledger, db.intents, db.refunds, db.payouts)
    && BalancesOk(db)
  }

  // ---------------------------------------------------------------------------------------------
  // The settlement run, its entitlements and its payout legs.
  // ---------------------------------------------------------------------------------------------

  /** Every payout leg has attempts, events and claims in order. */
  predicate LegsOk(payouts: map<Id, L.Leg>) {
    forall m | m in payouts :: L.LegOk(payouts[m])
  }

  /** An entitlement against its leg: a leg exists exactly for a positive payout and carries that amount;
      the entitlement is confirmed exactly when the leg is. */
  predicate EntitlementFits(e: Entitlement, leg: Option<L.Leg>) {
    && e.amounts.payout >= 0
    && (leg.Some? <==> e.amounts.payout > 0)
    && (leg.Some? ==> leg.value.amount == e.amounts.payout)
    && e.state == (if leg.None? then NoTransferRequired
                   else if leg.value.state == L.Confirmed then TransferConfirmed
                   else TransferQueued)
  }

  function PayoutLegOf(payouts: map<Id, L.Leg>, m: Id): Option<L.Leg> {
    if m in payouts then Some(payouts[m]) else None
  }

  predicate Unresolved(e: Entitlement) {
    e.state !in {TransferConfirmed, NoTransferRequired}
  }

  predicate AllResolved(run: Run) {
    forall m | m in run.entitlements :: !Unresolved(run.entitlements[m])
  }

  predicate RunOk(pod: Pod, roster: set<Id>, refunds: map<Id, RefundLeg>, payouts: map<Id, L.Leg>, run: Option<Run>) {
    if run.None? then
      payouts == map[] && (pod.contract.mode == Proportional ==> pod.state != Completed)
    else
      && pod.contract.mode == Proportional
      && pod.state == (if run.value.state == Settled then Completed else FinalReview)
      && refunds == map[]
      && run.value.entitlements.Keys == roster
      && payouts.Keys <= roster
      && (forall m | m in run.value.entitlements ::
            EntitlementFits(run.value.entitlements[m], PayoutLegOf(payouts, m)))
      && (run.value.state == Settled <==> AllResolved(run.value))
  }

  // ---------------------------------------------------------------------------------------------
  // The calendar.
  // ---------------------------------------------------------------------------------------------

  predicate WindowOk(o: Occurrence) {
    && o.id != EMPTY_ID
    && o.opensAt < o.closesAt
    && (o.deadline.Some? ==> o.opensAt <= o.deadline.value <= o.closesAt)
  }

  /** The occurrences are the published schedule: numbered, distinct, with ordered disjoint windows. */
  predicate CalendarOk(contract: Contract, occurrences: seq<Occurrence>) {
    && |occurrences| == contract.occurrenceCount
    && (forall k | 0 <= k < |occurrences| :: occurrences[k].ordinal == k + 1 && WindowOk(occurrences[k]))
    && (forall j, k | 0 <= j < k < |occurrences| ::
          occurrences[j].id != occurrences[k].id && occurrences[j].closesAt <= occurrences[k].opensAt)
  }

  predicate AllClosed(occurrences: seq<Occurrence>, clock: Time) {
    forall k | 0 <= k < |occurrences| :: occurrences[k].state == ReviewOpen && occurrences[k].closesAt <= clock
  }

  predicate LifeOk(pod: Pod, roster: set<Id>, occurrences: seq<Occurrence>, clock: Time) {
    && CalendarOk(pod.contract, occurrences)
    && (pod.state in {FinalReview, Completed} ==> AllClosed(occurrences, clock))
    && (Locked(pod.state) ==> roster != {} && |roster| <= pod.contract.maxParticipants)
  }

  predicate HasOccurrence(occurrences: seq<Occurrence>, id: Id) {
    exists k :: 0 <= k < |occurrences| && occurrences[k].id == id
  }

  /** Submissions come from active members, and a review under way has its hard deadline. */
  predicate SubmissionsOk(occurrences: seq<Occurrence>, memberships: map<Id, Membership>,
                          submissions: map<SubmissionId, Submission>) {
    forall s | s in submissions ::
      && HasOccurrence(occurrences, s.occurrence)
      && s.membership in memberships
      && memberships[s.membership].state == MemberActive
      && (submissions[s].state == Reviewing ==> submissions[s].hardDeadline.Some?)
  }

  /** The verdict settlement reads off the submission rows. */
  function VerdictOf(submissions: map<SubmissionId, Submission>, s: SubmissionId): S.OutcomeState {
    if s !in submissions then S.Missed
    else
      match submissions[s].state
      case Draft => S.Missed
      case Reviewing => S.Missed
      case ReviewApproved => S.Approved
      case ReviewRejected => S.Rejected
      case ReviewTimedOut => S.TimeoutProtected
  }

  /** The frozen outcomes are those of the submissions, and no review is pending. */
  predicate FrozenOk(submissions: map<SubmissionId, Submission>, run: Option<Run>) {
    run.Some? ==>
      && (forall s | s in run.value.outcomes :: run.value.outcomes[s] == VerdictOf(submissions, s))
      && (forall s | s in submissions :: submissions[s].state != Reviewing)
  }

  ghost predicate Inv(db: Db) {
    && LinksOk(db)
    && BookOk(db)
    && LegsOk(db.payouts)
    && RunOk(db.pod, Roster(db.memberships), db.refunds, db.payouts, db.run)
    && LifeOk(db.pod, Roster(db.memberships), db.occurrences, db.clock)
    && SubmissionsOk(db.occurrences, db.memberships, db.submissions)
    && FrozenOk(db.submissions, db.run)
  }
}
