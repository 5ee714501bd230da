/** The rows one Pod owns, as the transactions read and write them. */
module Rows {
  import opened Basics
  import opened Ledger
  import S = SettlementRules
  import L = PayoutLegs

  datatype SettlementMode = Proportional | FullRefundAlpha

  /** The parts of the published contract that the money path reads. */
  datatype Contract = Contract(
    mode: SettlementMode,
    slice: int,
    occurrenceCount: nat,
    totalLuna: int,
    minParticipants: nat,
    maxParticipants: nat,
    visitorRoom: bool)

  /** What `buildPublishedContract` guarantees about a contract it returns. */
  predicate PublishedContract(c: Contract) {
    && 0 < c.slice
    && 0 < c.occurrenceCount
    && c.totalLuna == c.slice * c.occurrenceCount
    && 2 <= c.minParticipants <= c.maxParticipants
    && c.maxParticipants * c.totalLuna <= MAX_SAFE_INTEGER
  }

  datatype PodState =
    | EnrollmentOpen
    | CutoffEvaluating
    | LockedScheduled
    | PodActive
    | FinalReview
    | Completed
    | CancelledRefunding
    | Cancelled

  datatype Pod = Pod(state: PodState, contract: Contract, contractHash: Id, creator: Id)

  datatype MembershipState =
    | Applied
    | AcceptedUnfunded
    | ApplicationRejected
    | ApplicationExpired
    | DepositPending
    | FundingFailed
    | FundedProvisional
    | RosterLocked
    | MemberActive
    | ExcludedAtCutoff
    | MemberRefundPending
    | MemberRefunded

  datatype Membership = Membership(
    user: Id, state: MembershipState, intent: Option<Id>, acceptedHash: Option<Id>)

  datatype DepositState =
    | IntentCreated
    | WalletApprovalPending
    | WalletRejected
    | TransactionSubmitted
    | Observed
    | Finalized
    | CreditedProvisional
    | AppliedToRoster
    | ExceptionReview
    | RefundPending
    | Refunded

  datatype ExceptionCode =
    | WrongNetwork | TransactionNotObserved | ReferenceMissing | ReferenceDuplicate | ReferenceExpired
    | ReferenceMismatch | AmountMismatch | RecipientMismatch | ExecutionFailed | FinalizedAfterCutoff
    | CapacityExcluded

  datatype Intent = Intent(
    membership: Id, user: Id, amount: int, state: DepositState, expiresAt: Time,
    hash: Option<Id>, block: Option<int>, index: Option<int>, finalizedAt: Option<Time>,
    exception: Option<ExceptionCode>)

  datatype WindowState = Scheduled | CommitmentOpen | EvidenceOpen | ReviewOpen

  datatype Occurrence = Occurrence(
    id: Id, ordinal: nat, opensAt: Time, closesAt: Time, deadline: Option<Time>, state: WindowState)

  datatype SubmissionState = Draft | Reviewing | ReviewApproved | ReviewRejected | ReviewTimedOut

  /** A submission is identified by its occurrence and membership, which are unique together. */
  datatype SubmissionId = SubmissionId(occurrence: Id, membership: Id)
  datatype Submission = Submission(state: SubmissionState, hardDeadline: Option<Time>)

  /** The signed bytes of a prepared refund. */
  datatype RefundBytes = RefundBytes(raw: Id, hash: Id, validityStart: int)

  /** A refund leg; its idempotency key names the deposit, which identifies it here. */
  datatype RefundLeg = RefundLeg(membership: Id, amount: int, state: L.LegState, bytes: Option<RefundBytes>)

  datatype RunState = Executing | Settled
  datatype EntitlementState = TransferQueued | NoTransferRequired | TransferConfirmed
  datatype Entitlement = Entitlement(state: EntitlementState, deposit: int, amounts: S.Amounts)

  /** The settlement run with its frozen outcomes and its entitlements. */
  datatype Run = Run(
    state: RunState, outcomes: map<SubmissionId, S.OutcomeState>, entitlements: map<Id, Entitlement>)

  datatype Db = Db(
    pod: Pod,
    memberships: map<Id, Membership>,
    intents: map<Id, Intent>,
    occurrences: seq<Occurrence>,
    submissions: map<SubmissionId, Submission>,
    refunds: map<Id, RefundLeg>,
    payouts: map<Id, L.Leg>,
    ledger: Book,
    run: Option<Run>,
    clock: Time)

  // ---------------------------------------------------------------------------------------------
  // The entries that move money in and out.
  // ---------------------------------------------------------------------------------------------

  /** A deposit is credited to its member. */
  function CreditEntry(i: Id, d: Intent): Entry {
    Entry(DepositCredit(i), Treasury, Participant(d.membership), d.amount)
  }

  /** A deposit is owed back. */
  function RefundEntry(i: Id, d: Intent): Entry {
    Entry(RefundEntitlement(i), Participant(d.membership), RefundDue(i), d.amount)
  }

  /** A refund has left the treasury. */
  function RefundConfirmedEntry(i: Id, leg: RefundLeg): Entry {
    Entry(RefundConfirmed(i), RefundDue(i), Treasury, leg.amount)
  }

  /** A payout has left the treasury. */
  function PayoutEntry(m: Id, leg: L.Leg): Entry {
    Entry(PayoutConfirmed(m), PayoutDue(m), Treasury, leg.amount)
  }

  /** How a transaction ended: it ran, it returned early without writing, or it threw and rolled back. */
  datatype Reply = Done | Nothing | Thrown

  /** The rows after a transaction and how it ended. */
  datatype Step = Step(db: Db, reply: Reply)

  function Throw(db: Db): Step {
    Step(db, Thrown)
  }

  function Return(db: Db): Step {
    Step(db, Nothing)
  }

  predicate OnRoster(s: MembershipState) {
    s == RosterLocked || s == MemberActive
  }

  /** The memberships `finalizePodSettlement` selects as its roster. */
  function Roster(memberships: map<Id, Membership>): set<Id> {
    set m | m in memberships && OnRoster(memberships[m].state)
  }
}
