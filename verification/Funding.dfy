/** The deposit intent state machine: the transition table and the transactions of the funding repository. */
module Funding {
  import opened Basics
  import opened Ledger
  import opened Rows

  datatype Actor = Client | Worker
  datatype DepositEvent =
    | OpenWallet
    | WalletReject
    | SubmitHint
    | Observe
    | Finalize
    | Credit
    | ApplyRoster
    | QueueRefund
    | ConfirmRefund
    | FlagException

  datatype Transition = Transition(from: DepositState, event: DepositEvent, actor: Actor, to: DepositState)

  const TRANSITIONS: seq<Transition> := [
    Transition(IntentCreated, OpenWallet, Client, WalletApprovalPending),
    Transition(WalletApprovalPending, WalletReject, Client, WalletRejected),
    Transition(WalletApprovalPending, SubmitHint, Client, TransactionSubmitted),
    Transition(WalletApprovalPending, FlagException, Worker, ExceptionReview),
    Transition(TransactionSubmitted, Observe, Worker, Observed),
    Transition(WalletApprovalPending, Observe, Worker, Observed),
    Transition(Observed, Finalize, Worker, Finalized),
    Transition(Finalized, Credit, Worker, CreditedProvisional),
    Transition(CreditedProvisional, ApplyRoster, Worker, AppliedToRoster),
    Transition(CreditedProvisional, QueueRefund, Worker, RefundPending),
    Transition(RefundPending, ConfirmRefund, Worker, Refunded),
    Transition(TransactionSubmitted, FlagException, Worker, ExceptionReview),
    Transition(Observed, FlagException, Worker, ExceptionReview)
  ]

  /** The state a deposit moves to, or none when the actor may not raise the event there. */
  function NextDepositState(state: DepositState, event: DepositEvent, actor: Actor): Option<DepositState> {
    match (state, event, actor)
    case (IntentCreated, OpenWallet, Client) => Some(WalletApprovalPending)
    case (WalletApprovalPending, WalletReject, Client) => Some(WalletRejected)
    case (WalletApprovalPending, SubmitHint, Client) => Some(TransactionSubmitted)
    case (WalletApprovalPending, FlagException, Worker) => Some(ExceptionReview)
    case (WalletApprovalPending, Observe, Worker) => Some(Observed)
    case (TransactionSubmitted, Observe, Worker) => Some(Observed)
    case (TransactionSubmitted, FlagException, Worker) => Some(ExceptionReview)
    case (Observed, Finalize, Worker) => Some(Finalized)
    case (Observed, FlagException, Worker) => Some(ExceptionReview)
    case (Finalized, Credit, Worker) => Some(CreditedProvisional)
    case (CreditedProvisional, ApplyRoster, Worker) => Some(AppliedToRoster)
    case (CreditedProvisional, QueueRefund, Worker) => Some(RefundPending)
    case (RefundPending, ConfirmRefund, Worker) => Some(Refunded)
    case _ => None
  }

  /** The expression above is the table: each row gives its target, and without a row there is none. */
  lemma TableDecides(state: DepositState, event: DepositEvent, actor: Actor, to: DepositState)
    ensures NextDepositState(state, event, actor) == Some(to) <==> Transition(state, event, actor, to) in TRANSITIONS
  {
  }

  // ---------------------------------------------------------------------------------------------
  // Joining a Pod.
  // ---------------------------------------------------------------------------------------------

  predicate EnrollmentRuns(db: Db, now: Time) {
    db.pod.state == EnrollmentOpen && db.occurrences != [] && now < db.occurrences[0].opensAt
  }

  /** `applyToPublicPod` (a new application) and `acceptInvitation` (an accepted membership). */
  function Join(db: Db, now: Time, m: Id, user: Id, invited: bool): Step {
    if !EnrollmentRuns(db, now) || user == db.pod.creator || m == EMPTY_ID || m in db.memberships then Throw(db)
    else if exists other :: other in db.memberships && db.memberships[other].user == user then Throw(db)
    else
      var hash := if !invited && db.pod.contract.visitorRoom then Some(db.pod.contractHash) else None;
      var state := if invited then AcceptedUnfunded else Applied;
      Step(db.(memberships := db.memberships[m := Membership(user, state, None, hash)]), Done)
  }

  /** `decideApplication`. */
  function DecideApplication(db: Db, m: Id, accept: bool): Step {
    if db.pod.state != EnrollmentOpen || m !in db.memberships || db.memberships[m].state != Applied then Return(db)
    else
      var state := if accept then AcceptedUnfunded else ApplicationRejected;
      Step(db.(memberships := db.memberships[m := db.memberships[m].(state := state)]), Done)
  }

  // ---------------------------------------------------------------------------------------------
  // Deposit intents.
  // ---------------------------------------------------------------------------------------------

  /** `createDepositIntent`; `accepted` says that the wallet is the member's and the new row's unique
      columns are free. */
  function CreateIntent(db: Db, now: Time, m: Id, i: Id, hash: Option<Id>, disclosed: bool, accepted: bool): Step {
    if m !in db.memberships then Throw(db)
    else
      var member := db.memberships[m];
      var proportional := db.pod.contract.mode == Proportional;
      if member.intent.Some? || member.state !in {AcceptedUnfunded, FundingFailed} then Throw(db)
      else if !EnrollmentRuns(db, now) then Throw(db)
      else if proportional && (hash != Some(db.pod.contractHash) || !disclosed) then Throw(db)
      else if db.pod.contract.visitorRoom && member.acceptedHash != Some(db.pod.contractHash) then Throw(db)
      else if !accepted || i in db.intents then Throw(db)
      else
        var intent := Intent(m, member.user, db.pod.contract.totalLuna, IntentCreated, db.occurrences[0].opensAt,
                             None, None, None, None, None);
        var agreed := if proportional then Some(db.pod.contractHash) else member.acceptedHash;
        Step(db.(intents := db.intents[i := intent],
                 memberships := db.memberships[m := member.(
                   intent := Some(i), state := DepositPending, acceptedHash := agreed)]),
             Done)
  }

  function MoveIntent(db: Db, i: Id, d: Intent): Db {
    db.(intents := db.intents[i := d])
  }

  /** `recordDepositWalletAttempt`. */
  function WalletAttempt(db: Db, i: Id, open: bool): Step {
    if i !in db.intents then Return(db)
    else
      var d := db.intents[i];
      var next := NextDepositState(d.state, if open then OpenWallet else WalletReject, Client);
      if next.None? then Throw(db)
      else
        var moved := MoveIntent(db, i, d.(state := next.value));
        if next.value == WalletRejected && d.membership in db.memberships
           && db.memberships[d.membership].intent == Some(i) then
          Step(moved.(memberships := db.memberships[d.membership :=
                 db.memberships[d.membership].(intent := None, state := FundingFailed)]),
               Done)
        else Step(moved, Done)
  }

  /** Some other deposit already carries this transaction hash. */
  predicate HashTaken(db: Db, i: Id, hash: Id) {
    exists j :: j in db.intents && j != i && db.intents[j].hash == Some(hash)
  }

  /** `recordDepositTransactionHint`. */
  function TransactionHint(db: Db, i: Id, hash: Id): Step {
    if i !in db.intents then Return(db)
    else
      var d := db.intents[i];
      var next := NextDepositState(d.state, SubmitHint, Client);
      if next.None? || HashTaken(db, i, hash) then Throw(db)
      else Step(MoveIntent(db, i, d.(state := next.value, hash := Some(hash))), Done)
  }

  /** `recordDepositException`. */
  function FlagDeposit(db: Db, i: Id, code: ExceptionCode): Step {
    if i !in db.intents then Return(db)
    else
      var d := db.intents[i];
      if d.state == ExceptionReview then
        if d.exception != Some(code) then Throw(db) else Return(db)
      else
        var next := NextDepositState(d.state, FlagException, Worker);
        if next.None? then Throw(db)
        else Step(MoveIntent(db, i, d.(state := next.value, exception := Some(code))), Done)
  }

  /** `recordObservedDeposit`. */
  function ObserveDeposit(db: Db, i: Id, hash: Id, block: int, index: int): Step {
    if i !in db.intents then Return(db)
    else
      var d := db.intents[i];
      if d.state == Observed && d.hash == Some(hash) then Return(db)
      else if HashTaken(db, i, hash) then Throw(db)
      else
        var next := NextDepositState(d.state, Observe, Worker);
        if next.None? then Throw(db)
        else
          Step(MoveIntent(db, i, d.(state := next.value, hash := Some(hash), block := Some(block),
                                    index := Some(index))),
               Done)
  }

  /** `finalizeObservedDeposit`. */
  function FinalizeDeposit(db: Db, now: Time, i: Id): Step {
    if i !in db.intents then Return(db)
    else
      var d := db.intents[i];
      if d.state in {Finalized, CreditedProvisional, AppliedToRoster} then Return(db)
      else
        var next := NextDepositState(d.state, Finalize, Worker);
        if next.None? then Throw(db)
        else Step(MoveIntent(db, i, d.(state := next.value, finalizedAt := Some(now))), Done)
  }

  /** `creditFinalizedDeposit`. */
  function CreditDeposit(db: Db, i: Id): Step {
    if i !in db.intents then Return(db)
    else
      var d := db.intents[i];
      if d.state in {CreditedProvisional, AppliedToRoster} then Return(db)
      else if d.state == Finalized && d.finalizedAt.Some? && d.finalizedAt.value > d.expiresAt then
        Step(MoveIntent(db, i, d.(state := ExceptionReview, exception := Some(FinalizedAfterCutoff))), Done)
      else
        var next := NextDepositState(d.state, Credit, Worker);
        if next.None? || d.membership !in db.memberships then Throw(db)
        else
          var member := db.memberships[d.membership];
          if member.intent != Some(i) || member.state != DepositPending then Throw(db)
          else
            Step(db.(ledger := Post(db.ledger, CreditEntry(i, d)),
                     intents := db.intents[i := d.(state := next.value)],
                     memberships := db.memberships[d.membership := member.(state := FundedProvisional)]),
                 Done)
  }
}
