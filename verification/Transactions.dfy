/** Every transaction on a Pod's rows in one place, and the invariants over whole runs of them. */
module Transactions {
  import opened Basics
  import opened Rows
  import opened Invariants
  import Funding
  import FundingKeeps
  import Cutoff
  import CutoffFates
  import Refunds
  import RefundsKeep
  import Payouts
  import PayoutsKeep
  import Finalization
  import FinalizationKeeps
  import Lifecycle
  import LifecycleKeeps
  import L = PayoutLegs

  datatype FundingAction =
    | Join(membership: Id, user: Id, invited: bool)
    | DecideApplication(membership: Id, accept: bool)
    | CreateIntent(membership: Id, deposit: Id, hash: Option<Id>, disclosed: bool, accepted: bool)
    | WalletAttempt(deposit: Id, open: bool)
    | TransactionHint(deposit: Id, txHash: Id)
    | FlagDeposit(deposit: Id, code: ExceptionCode)
    | ObserveDeposit(deposit: Id, txHash: Id, block: int, index: int)
    | FinalizeDeposit(deposit: Id)
    | CreditDeposit(deposit: Id)

  datatype RefundAction =
    | PrepareRefund(bytes: RefundBytes)
    | BroadcastRefund
    | ReportRefund(to: L.LegState)
    | ConfirmRefund

  datatype LifeAction =
    | RunTransitions
    | SaveDraft(id: SubmissionId, accepted: bool)
    | SubmitEvidence(id: SubmissionId, accepted: bool)
    | Decide(id: SubmissionId, decision: Lifecycle.Decision, authorized: bool)
    | ProtectTimedOut(batch: set<SubmissionId>)

  datatype Action =
    | Fund(funding: FundingAction)
    | ApplyCutoff
    | Cancel(user: Id, order: seq<Id>)
    | Refund(deposit: Id, refund: RefundAction)
    | Pay(member: Id, leg: L.LegAction)
    | Finalize
    | Live(life: LifeAction)

  /** What the database and the worker guarantee about the arguments: a cancellation reads every credited deposit
      once, and the worker reports only what it has marks for. */
  ghost predicate Allowed(db: Db, a: Action) {
    match a
    case Cancel(_, order) => Cutoff.Listed(db, order) && CutoffFates.Enumerates(order, Cutoff.Credited(db))
    case Refund(_, ReportRefund(to)) => Refunds.RefundReport(to)
    case Pay(_, DoReport(_, to)) => L.Reportable(to)
    case _ => true
  }

  function FundStep(db: Db, a: FundingAction): Step {
    match a
    case Join(m, user, invited) => Funding.Join(db, db.clock, m, user, invited)
    case DecideApplication(m, accept) => Funding.DecideApplication(db, m, accept)
    case CreateIntent(m, i, hash, disclosed, accepted) =>
      Funding.CreateIntent(db, db.clock, m, i, hash, disclosed, accepted)
    case WalletAttempt(i, open) => Funding.WalletAttempt(db, i, open)
    case TransactionHint(i, hash) => Funding.TransactionHint(db, i, hash)
    case FlagDeposit(i, code) => Funding.FlagDeposit(db, i, code)
    case ObserveDeposit(i, hash, block, index) => Funding.ObserveDeposit(db, i, hash, block, index)
    case FinalizeDeposit(i) => Funding.FinalizeDeposit(db, db.clock, i)
    case CreditDeposit(i) => Funding.CreditDeposit(db, i)
  }

  function RefundStep(db: Db, i: Id, a: RefundAction): Step {
    match a
    case PrepareRefund(bytes) => Refunds.PrepareRefund(db, i, bytes)
    case BroadcastRefund => Refunds.BroadcastRefund(db, i)
    case ReportRefund(to) => Refunds.ReportRefund(db, i, to)
    case ConfirmRefund => Refunds.ConfirmRefund(db, i)
  }

  function PayStep(db: Db, m: Id, a: L.LegAction): Step
    requires a.DoReport? ==> L.Reportable(a.to)
  {
    if a.DoConfirm? then Payouts.ConfirmPayout(db, m, a.id) else Payouts.PayoutAct(db, m, a)
  }

  function LiveStep(db: Db, a: LifeAction): Step {
    match a
    case RunTransitions => Lifecycle.RunTransitions(db, db.clock)
    case SaveDraft(s, accepted) => Lifecycle.SaveDraft(db, db.clock, s, accepted)
    case SubmitEvidence(s, accepted) => Lifecycle.SubmitEvidence(db, db.clock, s, accepted)
    case Decide(s, decision, authorized) => Lifecycle.Decide(db, db.clock, s, decision, authorized)
    case ProtectTimedOut(batch) => Lifecycle.ProtectTimedOut(db, db.clock, batch)
  }

  /** One transaction at the current time. */
  ghost function Apply(db: Db, a: Action): Step
    requires Allowed(db, a)
  {
    match a
    case Fund(action) => FundStep(db, action)
    case ApplyCutoff => Cutoff.ApplyCutoff(db, db.clock)
    case Cancel(user, order) => Cutoff.CancelEnrollment(db, user, order)
    case Refund(i, action) => RefundStep(db, i, action)
    case Pay(m, action) => PayStep(db, m, action)
    case Finalize => Finalization.Finalize(db, db.clock)
    case Live(action) => LiveStep(db, action)
  }

  // ---------------------------------------------------------------------------------------------
  // The invariants.
  // ---------------------------------------------------------------------------------------------

  lemma FundKeeps(db: Db, a: FundingAction)
    requires Inv(db)
    ensures Inv(FundStep(db, a).db)
  {
    hide Inv, Funding.Join, Funding.DecideApplication, Funding.CreateIntent, Funding.WalletAttempt,
         Funding.TransactionHint, Funding.FlagDeposit, Funding.ObserveDeposit, Funding.FinalizeDeposit,
         Funding.CreditDeposit;
    match a {
      case Join(m, user, invited) => FundingKeeps.JoinKeeps(db, db.clock, m, user, invited);
      case DecideApplication(m, accept) => FundingKeeps.DecideApplicationKeeps(db, m, accept);
      case CreateIntent(m, i, hash, disclosed, accepted) =>
        FundingKeeps.CreateIntentKeeps(db, db.clock, m, i, hash, disclosed, accepted);
      case WalletAttempt(i, open) => FundingKeeps.WalletAttemptKeeps(db, i, open);
      case TransactionHint(i, hash) => FundingKeeps.TransactionHintKeeps(db, i, hash);
      case FlagDeposit(i, code) => FundingKeeps.FlagDepositKeeps(db, i, code);
      case ObserveDeposit(i, hash, block, index) => FundingKeeps.ObserveDepositKeeps(db, i, hash, block, index);
      case FinalizeDeposit(i) => FundingKeeps.FinalizeDepositKeeps(db, db.clock, i);
      case CreditDeposit(i) => FundingKeeps.CreditDepositKeeps(db, i);
    }
  }

  lemma RefundKeeps(db: Db, i: Id, a: RefundAction)
    requires Inv(db) && (a.ReportRefund? ==> Refunds.RefundReport(a.to))
    ensures Inv(RefundStep(db, i, a).db)
  {
    hide Inv, Refunds.PrepareRefund, Refunds.BroadcastRefund, Refunds.ReportRefund, Refunds.ConfirmRefund;
    match a {
      case PrepareRefund(bytes) => RefundsKeep.PrepareRefundKeeps(db, i, bytes);
      case BroadcastRefund => RefundsKeep.BroadcastRefundKeeps(db, i);
      case ReportRefund(to) => RefundsKeep.ReportRefundKeeps(db, i, to);
      case ConfirmRefund => RefundsKeep.ConfirmRefundKeeps(db, i);
    }
  }

  lemma PayKeeps(db: Db, m: Id, a: L.LegAction)
    requires Inv(db) && (a.DoReport? ==> L.Reportable(a.to))
    ensures Inv(PayStep(db, m, a).db)
  {
    hide Inv, Payouts.ConfirmPayout, Payouts.PayoutAct;
    if a.DoConfirm? {
      PayoutsKeep.ConfirmPayoutKeeps(db, m, a.id);
    } else {
      PayoutsKeep.PayoutActKeeps(db, m, a);
    }
  }

  lemma LiveKeeps(db: Db, a: LifeAction)
    requires Inv(db)
    ensures Inv(LiveStep(db, a).db)
  {
    hide Inv, Lifecycle.RunTransitions, Lifecycle.SaveDraft, Lifecycle.SubmitEvidence, Lifecycle.Decide,
         Lifecycle.ProtectTimedOut;
    match a {
      case RunTransitions => LifecycleKeeps.RunTransitionsKeeps(db);
      case SaveDraft(s, accepted) => LifecycleKeeps.SaveDraftKeeps(db, db.clock, s, accepted);
      case SubmitEvidence(s, accepted) => LifecycleKeeps.SubmitKeeps(db, db.clock, s, accepted);
      case Decide(s, decision, authorized) => LifecycleKeeps.DecideKeeps(db, db.clock, s, decision, authorized);
      case ProtectTimedOut(batch) => LifecycleKeeps.ProtectKeeps(db, db.clock, batch);
    }
  }

  /** Every transaction keeps the invariants. */
  lemma ApplyKeeps(db: Db, a: Action)
    requires Inv(db) && Allowed(db, a)
    ensures Inv(Apply(db, a).db)
  {
    hide Inv, FundStep, RefundStep, PayStep, LiveStep, Cutoff.ApplyCutoff, Cutoff.CancelEnrollment,
         Finalization.Finalize;
    match a {
      case Fund(action) => FundKeeps(db, action);
      case ApplyCutoff => CutoffFates.ApplyCutoffKeeps(db, db.clock);
      case Cancel(user, order) => CutoffFates.CancelEnrollmentKeeps(db, user, order);
      case Refund(i, action) => RefundKeeps(db, i, action);
      case Pay(m, action) => PayKeeps(db, m, action);
      case Finalize => FinalizationKeeps.FinalizeKeeps(db, db.clock);
      case Live(action) => LiveKeeps(db, action);
    }
  }

  /** Time alone breaks nothing. */
  lemma WaitKeeps(db: Db, now: Time)
    requires Inv(db) && db.clock <= now
    ensures Inv(db.(clock := now))
  {
    hide BalancesOk, KeysOk, EntriesOk, DistinctKeys, LinksOk, LegsOk, RunOk, FrozenOk, SubmissionsOk, CalendarOk,
         Roster;
    var after := db.(clock := now);
    FundingKeeps.SameLinks(db, after);
    FundingKeeps.SameBalances(db, after);
  }

  // ---------------------------------------------------------------------------------------------
  // Runs.
  // ---------------------------------------------------------------------------------------------

  datatype Event = Event(now: Time, action: Action)

  function Wait(db: Db, now: Time): Db {
    db.(clock := now)
  }

  /** `after` is what the event makes of `before`; time does not go back. */
  ghost predicate Follows(before: Db, e: Event, after: Db) {
    && before.clock <= e.now
    && Allowed(Wait(before, e.now), e.action)
    && after == Apply(Wait(before, e.now), e.action).db
  }

  /** A run of the Pod: the states between the events. */
  ghost predicate History(states: seq<Db>, events: seq<Event>) {
    && |states| == |events| + 1
    && (forall k | 0 <= k < |events| :: Follows(states[k], events[k], states[k + 1]))
  }

  lemma HistoryLength(states: seq<Db>, events: seq<Event>)
    requires History(states, events)
    ensures |states| == |events| + 1
  {
    hide Follows;
  }

  ghost predicate RunBetween(a: Db, states: seq<Db>, events: seq<Event>, b: Db) {
    History(states, events) && states[0] == a && states[|states| - 1] == b
  }

  /** Some run leads from one state to the other. */
  ghost predicate Reaches(a: Db, b: Db) {
    exists states, events :: RunBetween(a, states, events, b)
  }

  lemma ReachesItself(db: Db)
    ensures Reaches(db, db)
  {
    assert RunBetween(db, [db], [], db);
  }

  lemma ReachesNext(db: Db, a: Action)
    requires Allowed(db, a)
    ensures Reaches(db, Apply(db, a).db)
  {
    hide Apply, Allowed;
    assert Wait(db, db.clock) == db;
    assert RunBetween(db, [db, Apply(db, a).db], [Event(db.clock, a)], Apply(db, a).db);
  }

  lemma ReachesTransitively(a: Db, b: Db, c: Db)
    requires Reaches(a, b) && Reaches(b, c)
    ensures Reaches(a, c)
  {
    hide History;
    var states, events :| RunBetween(a, states, events, b);
    var states', events' :| RunBetween(b, states', events', c);
    HistoryLength(states, events);
    HistoryLength(states', events');
    HistoriesJoin(states, events, states', events');
    assert RunBetween(a, states + states'[1..], events + events', c);
  }

  /** Where a run goes on from the end of another, both are one run. */
  lemma HistoriesJoin(states: seq<Db>, events: seq<Event>, states': seq<Db>, events': seq<Event>)
    requires History(states, events) && History(states', events') && states'[0] == states[|states| - 1]
    ensures History(states + states'[1..], events + events')
  {
    hide Follows;
    var all, happened := states + states'[1..], events + events';
    forall k | 0 <= k < |happened| ensures Follows(all[k], happened[k], all[k + 1]) {
      if k < |events| {
        assert Follows(states[k], events[k], states[k + 1]);
      } else {
        assert Follows(states'[k - |events|], events'[k - |events|], states'[k - |events| + 1]);
      }
    }
  }

  lemma FollowsKeeps(before: Db, e: Event, after: Db)
    requires Inv(before) && Follows(before, e, after)
    ensures Inv(after)
  {
    hide Inv, Apply, Allowed;
    WaitKeeps(before, e.now);
    ApplyKeeps(Wait(before, e.now), e.action);
  }

  /** A Pod as it is published. */
  function Published(pod: Pod, occurrences: seq<Occurrence>, clock: Time): Db {
    Db(pod, map[], map[], occurrences, map[], map[], map[], [], None, clock)
  }

  lemma PublishedIsInOrder(pod: Pod, occurrences: seq<Occurrence>, clock: Time)
    requires pod.state == EnrollmentOpen && PublishedContract(pod.contract) && CalendarOk(pod.contract, occurrences)
    ensures Inv(Published(pod, occurrences, clock))
  {
    hide PublishedContract;
    assert pod.contract.occurrenceCount > 0 by { FundedContract(pod.contract); }
  }

  lemma FundedContract(c: Contract)
    requires PublishedContract(c)
    ensures c.occurrenceCount > 0
  {
  }

  /** What is reached from a state in order is in order. */
  lemma ReachesKeeps(a: Db, b: Db)
    requires Inv(a) && Reaches(a, b)
    ensures Inv(b)
  {
    hide Inv, History;
    var states, events :| RunBetween(a, states, events, b);
    HistoryLength(states, events);
    HistoryKeeps(states, events, |states| - 1);
  }

  lemma HistoryStep(states: seq<Db>, events: seq<Event>, k: nat)
    requires History(states, events) && k + 1 < |states|
    ensures k < |events| && |states| == |events| + 1 && Follows(states[k], events[k], states[k + 1])
  {
    hide Follows;
  }

  /** Whatever happens to a published Pod, in whatever order, the invariants hold after every transaction. */
  lemma {:induction false} HistoryKeeps(states: seq<Db>, events: seq<Event>, k: nat)
    requires History(states, events) && k < |states| && Inv(states[0])
    ensures Inv(states[k])
  {
    hide Inv, Follows, History;
    if k > 0 {
      HistoryKeeps(states, events, k - 1);
      HistoryStep(states, events, k - 1);
      FollowsKeeps(states[k - 1], events[k - 1], states[k]);
    }
  }
}
