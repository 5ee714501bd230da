/** The deposit transactions on the rows: from which state each takes effect, and exactly what it leaves. */
module DepositRows {
  import opened Basics
  import opened Rows
  import opened Invariants
  import opened Funding
  import FundingKeeps
  import Ledger

  /** The step ran, left this row for the deposit, and changed nothing else. */
  predicate LeavesDeposit(db: Db, step: Step, i: Id, d: Intent) {
    step == Step(db.(intents := db.intents[i := d]), Done)
  }

  /** No other deposit carries the hash. */
  predicate HashIsFree(db: Db, i: Id, hash: Id) {
    forall j | j in db.intents && j != i :: db.intents[j].hash != Some(hash)
  }

  lemma FreeIsNotTaken(db: Db, i: Id, hash: Id)
    ensures HashIsFree(db, i, hash) <==> !HashTaken(db, i, hash)
  {
  }

  // ---------------------------------------------------------------------------------------------
  // Memberships.
  // ---------------------------------------------------------------------------------------------

  /** Enrollment is open and the first occurrence has not pending. */
  predicate Enrolling(db: Db, now: Time) {
    db.pod.state == EnrollmentOpen && db.occurrences != [] && now < db.occurrences[0].opensAt
  }

  /** Joining takes effect exactly while enrolling, for a new row of a user who is neither the creator nor a member yet;
      an application waits, an accepted invitation may fund; an application to a visitor room accepts the contract. */
  lemma JoinByRows(db: Db, now: Time, m: Id, user: Id, invited: bool)
    ensures var step := Join(db, now, m, user, invited);
            if Enrolling(db, now) && user != db.pod.creator && m != 0 && m !in db.memberships
               && (forall n | n in db.memberships :: db.memberships[n].user != user)
            then
              var hash := if invited || !db.pod.contract.visitorRoom then None else Some(db.pod.contractHash);
              step == Step(db.(memberships := db.memberships[m :=
                             Membership(user, if invited then AcceptedUnfunded else Applied, None, hash)]),
                           Done)
            else step == Throw(db)
  {
  }

  /** A decision takes effect exactly on a waiting application while enrollment is open. */
  lemma DecideApplicationByRows(db: Db, m: Id, accept: bool)
    ensures var step := DecideApplication(db, m, accept);
            if db.pod.state == EnrollmentOpen && m in db.memberships && db.memberships[m].state == Applied
            then
              step == Step(db.(memberships := db.memberships[m := db.memberships[m].(
                             state := if accept then AcceptedUnfunded else ApplicationRejected)]),
                           Done)
            else step == Return(db)
  {
  }

  // ---------------------------------------------------------------------------------------------
  // Deposits.
  // ---------------------------------------------------------------------------------------------

  /** The member may fund, and has agreed to what its Pod demands. */
  predicate MayFund(db: Db, m: Id, hash: Option<Id>, disclosed: bool) {
    && m in db.memberships && db.memberships[m].intent == None
    && (db.memberships[m].state == AcceptedUnfunded || db.memberships[m].state == FundingFailed)
    && (db.pod.contract.mode == Proportional ==> hash == Some(db.pod.contractHash) && disclosed)
    && (db.pod.contract.visitorRoom ==> db.memberships[m].acceptedHash == Some(db.pod.contractHash))
  }

  /** A deposit intent is created exactly for a member who may fund, while enrolling: of the full amount, expiring at
      the first opening, with nothing observed; the membership points to it and waits. */
  lemma CreateIntentByRows(db: Db, now: Time, m: Id, i: Id, hash: Option<Id>, disclosed: bool, accepted: bool)
    ensures var step := CreateIntent(db, now, m, i, hash, disclosed, accepted);
            if MayFund(db, m, hash, disclosed) && Enrolling(db, now) && accepted && i !in db.intents then
              var r := db.memberships[m];
              var agreed := if db.pod.contract.mode == Proportional then Some(db.pod.contractHash) else r.acceptedHash;
              step == Step(db.(intents := db.intents[i :=
                                 Intent(m, r.user, db.pod.contract.totalLuna, IntentCreated,
                                        db.occurrences[0].opensAt, None, None, None, None, None)],
                               memberships := db.memberships[m := Membership(r.user, DepositPending, Some(i), agreed)]),
                           Done)
            else step == Throw(db)
  {
  }

  /** The wallet opens on a new intent, and is rejected only when open; the rejection frees the membership that points
      to the deposit. */
  lemma WalletAttemptByRows(db: Db, i: Id, open: bool)
    requires Inv(db) && i in db.intents
    ensures db.intents[i].membership in db.memberships
    ensures var step, d := WalletAttempt(db, i, open), db.intents[i];
            var r := db.memberships[d.membership];
            if open then
              if d.state == IntentCreated then LeavesDeposit(db, step, i, d.(state := WalletApprovalPending))
              else step == Throw(db)
            else if d.state == WalletApprovalPending then
              && r.intent == Some(i)
              && step == Step(db.(intents := db.intents[i := d.(state := WalletRejected)],
                                  memberships := db.memberships[d.membership := r.(
                                    intent := None, state := FundingFailed)]),
                              Done)
            else step == Throw(db)
  {
    hide Inv, LinksOk;
    FundingKeeps.HasLinks(db);
    FundingKeeps.AboutDeposit(db, i);
  }

  /** A hint is taken exactly with the wallet open and the hash free, and then leaves that hash. */
  lemma TransactionHintByRows(db: Db, i: Id, hash: Id)
    requires i in db.intents
    ensures var step, d := TransactionHint(db, i, hash), db.intents[i];
            if d.state == WalletApprovalPending && HashIsFree(db, i, hash) then
              LeavesDeposit(db, step, i, d.(state := TransactionSubmitted, hash := Some(hash)))
            else step == Throw(db)
  {
    FreeIsNotTaken(db, i, hash);
  }

  /** An exception is taken before the deposit is final; the same code again is passed over, another throws. */
  lemma FlagDepositByRows(db: Db, i: Id, code: ExceptionCode)
    requires i in db.intents
    ensures var step, d := FlagDeposit(db, i, code), db.intents[i];
            if d.state in {WalletApprovalPending, TransactionSubmitted, Observed} then
              LeavesDeposit(db, step, i, d.(state := ExceptionReview, exception := Some(code)))
            else if d.state == ExceptionReview && d.exception == Some(code) then step == Return(db)
            else step == Throw(db)
  {
  }

  /** An observation is taken with the wallet open or a hint given and the hash free, and leaves exactly the observed
      hash, block and index; the same observation again is passed over. */
  lemma ObserveDepositByRows(db: Db, i: Id, hash: Id, block: int, index: int)
    requires i in db.intents
    ensures var step, d := ObserveDeposit(db, i, hash, block, index), db.intents[i];
            if d.state == Observed && d.hash == Some(hash) then step == Return(db)
            else if d.state in {WalletApprovalPending, TransactionSubmitted} && HashIsFree(db, i, hash) then
              LeavesDeposit(db, step, i, d.(state := Observed, hash := Some(hash), block := Some(block),
                                            index := Some(index)))
            else step == Throw(db)
  {
    FreeIsNotTaken(db, i, hash);
  }

  /** A finalization is taken on an observed deposit and leaves its time; on a final or credited one it is passed over.
      */
  lemma FinalizeDepositByRows(db: Db, now: Time, i: Id)
    requires i in db.intents
    ensures var step, d := FinalizeDeposit(db, now, i), db.intents[i];
            if d.state == Observed then
              LeavesDeposit(db, step, i, d.(state := Finalized, finalizedAt := Some(now)))
            else if d.state in {Finalized, CreditedProvisional, AppliedToRoster} then step == Return(db)
            else step == Throw(db)
  {
  }

  /** A final deposit that came too late goes to review for that reason; a timely one whose membership waits is
      credited: one entry of its amount from the treasury to its member, who is then funded. */
  lemma CreditDepositByRows(db: Db, i: Id)
    requires Inv(db) && i in db.intents
    ensures db.intents[i].membership in db.memberships
    ensures var step, d := CreditDeposit(db, i), db.intents[i];
            var r := db.memberships[d.membership];
            if d.state in {CreditedProvisional, AppliedToRoster} then step == Return(db)
            else if d.state != Finalized then step == Throw(db)
            else if d.finalizedAt.value > d.expiresAt then
              LeavesDeposit(db, step, i, d.(state := ExceptionReview, exception := Some(FinalizedAfterCutoff)))
            else if r.state != DepositPending then step == Throw(db)
            else
              step == Step(db.(intents := db.intents[i := d.(state := CreditedProvisional)],
                               memberships := db.memberships[d.membership := r.(state := FundedProvisional)],
                               ledger := db.ledger + [Ledger.Entry(Ledger.DepositCredit(i), Ledger.Treasury,
                                                                   Ledger.Participant(d.membership), d.amount)]),
                           Done)
  {
    hide Inv, LinksOk;
    FundingKeeps.HasLinks(db);
    FundingKeeps.AboutDeposit(db, i);
    if db.intents[i].state == Finalized { NotCreditedYet(db, i); }
  }

  lemma NotCreditedYet(db: Db, i: Id)
    requires Inv(db) && i in db.intents && db.intents[i].state == Finalized
    ensures Ledger.DepositCredit(i) !in Ledger.Keys(db.ledger)
  {
    hide LinksOk, DistinctKeys, EntriesOk, BalancesOk, RunOk, LifeOk, LegsOk, FrozenOk, SubmissionsOk, Roster;
    assert Ledger.DepositCredit(i) in Ledger.Keys(db.ledger)
      <==> Due(Ledger.DepositCredit(i), db.intents, db.refunds, db.payouts);
  }

  /** On a deposit that does not exist every transaction is passed over. */
  lemma UnknownDeposit(db: Db, now: Time, i: Id, open: bool, hash: Id, code: ExceptionCode, block: int, index: int)
    requires i !in db.intents
    ensures WalletAttempt(db, i, open) == TransactionHint(db, i, hash) == FlagDeposit(db, i, code)
         == ObserveDeposit(db, i, hash, block, index) == FinalizeDeposit(db, now, i) == CreditDeposit(db, i)
         == Return(db)
  {
  }

  // ---------------------------------------------------------------------------------------------
  // The whole way.
  // ---------------------------------------------------------------------------------------------

  /** The deposit that went all the way: the full amount, its position and time as reported, credited. */
  function CreditedIntent(db: Db, m: Id, hash: Id, block: int, index: int, at: Time): Intent
    requires m in db.memberships && db.occurrences != []
  {
    Intent(m, db.memberships[m].user, db.pod.contract.totalLuna, CreditedProvisional, db.occurrences[0].opensAt,
           Some(hash), Some(block), Some(index), Some(at), None)
  }

  lemma LeavesTwice(db: Db, step: Step, again: Step, i: Id, d: Intent, d': Intent)
    requires LeavesDeposit(db, step, i, d) && LeavesDeposit(step.db, again, i, d')
    ensures LeavesDeposit(db, again, i, d')
  {
    assert db.intents[i := d][i := d'] == db.intents[i := d'];
  }

  lemma AboutLeft(db: Db, step: Step, i: Id, d: Intent)
    requires LeavesDeposit(db, step, i, d)
    ensures i in step.db.intents && step.db.intents[i] == d && step.reply == Done
  {
  }

  lemma StillFree(db: Db, step: Step, i: Id, d: Intent, hash: Id)
    requires LeavesDeposit(db, step, i, d) && HashIsFree(db, i, hash)
    ensures HashIsFree(step.db, i, hash)
  {
  }

  /** Hinted, observed and finalized: the hash, block, index and time are those reported last. */
  lemma ChainPath(db: Db, i: Id, hinted: Id, hash: Id, block: int, index: int, now: Time)
    requires Inv(db) && i in db.intents && db.intents[i].state == WalletApprovalPending
    requires HashIsFree(db, i, hinted) && HashIsFree(db, i, hash)
    ensures var hint := TransactionHint(db, i, hinted);
            var observed := ObserveDeposit(hint.db, i, hash, block, index);
            var finalized := FinalizeDeposit(observed.db, now, i);
            && hint.reply == observed.reply == Done
            && LeavesDeposit(db, finalized, i, db.intents[i].(state := Finalized, hash := Some(hash),
                                                              block := Some(block), index := Some(index),
                                                              finalizedAt := Some(now)))
  {
    hide Inv, TransactionHint, ObserveDeposit, FinalizeDeposit, HashIsFree, LeavesDeposit;
    var d := db.intents[i];
    var d1 := d.(state := TransactionSubmitted, hash := Some(hinted));
    var d2 := d.(state := Observed, hash := Some(hash), block := Some(block), index := Some(index));
    var hint := TransactionHint(db, i, hinted);
    TransactionHintByRows(db, i, hinted);
    AboutLeft(db, hint, i, d1);
    StillFree(db, hint, i, d1, hash);
    var observed := ObserveDeposit(hint.db, i, hash, block, index);
    ObserveDepositByRows(hint.db, i, hash, block, index);
    AboutLeft(hint.db, observed, i, d2);
    LeavesTwice(db, hint, observed, i, d1, d2);
    FinalizeDepositByRows(observed.db, now, i);
    LeavesTwice(db, observed, FinalizeDeposit(observed.db, now, i), i, d2,
                d2.(state := Finalized, finalizedAt := Some(now)));
  }

  /** The rows with a deposit and its membership. */
  function With(db: Db, m: Id, i: Id, d: Intent, r: Membership): Db {
    db.(intents := db.intents[i := d], memberships := db.memberships[m := r])
  }

  lemma WithTwice(db: Db, m: Id, i: Id, d: Intent, r: Membership, d': Intent, r': Membership)
    ensures With(With(db, m, i, d, r), m, i, d', r') == With(db, m, i, d', r')
    ensures With(db, m, i, d, r).memberships[m] == r && With(db, m, i, d, r).intents[i] == d
    ensures With(db, m, i, d, r).memberships[m := r] == With(db, m, i, d, r).memberships
  {
    assert db.intents[i := d][i := d'] == db.intents[i := d'];
    assert db.memberships[m := r][m := r'] == db.memberships[m := r'];
  }

  function Waiting(db: Db, m: Id, i: Id): Membership
    requires m in db.memberships
  {
    Membership(db.memberships[m].user, DepositPending, Some(i),
               if db.pod.contract.mode == Proportional then Some(db.pod.contractHash)
               else db.memberships[m].acceptedHash)
  }

  /** Created and opened. */
  lemma OpenPath(db: Db, m: Id, i: Id)
    requires Inv(db) && Enrolling(db, db.clock) && MayFund(db, m, Some(db.pod.contractHash), true)
    requires i !in db.intents
    ensures var created := CreateIntent(db, db.clock, m, i, Some(db.pod.contractHash), true, true);
            var pending := WalletAttempt(created.db, i, true);
            && created.reply == pending.reply == Done && Inv(pending.db)
            && pending.db == With(db, m, i, Intent(m, db.memberships[m].user, db.pod.contract.totalLuna,
                                                   WalletApprovalPending, db.occurrences[0].opensAt, None, None, None,
                                                   None, None), Waiting(db, m, i))
  {
    hide Inv, CreateIntent, WalletAttempt;
    var hash := Some(db.pod.contractHash);
    CreateIntentByRows(db, db.clock, m, i, hash, true, true);
    FundingKeeps.CreateIntentKeeps(db, db.clock, m, i, hash, true, true);
    var created := CreateIntent(db, db.clock, m, i, hash, true, true).db;
    WalletAttemptByRows(created, i, true);
    FundingKeeps.WalletAttemptKeeps(created, i, true);
    assert db.intents[i := created.intents[i]][i := created.intents[i].(state := WalletApprovalPending)]
        == db.intents[i := created.intents[i].(state := WalletApprovalPending)];
  }

  /** Credited in time, the member is funded. */
  lemma CreditPath(db: Db, m: Id, i: Id, d: Intent, r: Membership)
    requires Inv(With(db, m, i, d, r)) && d.membership == m && d.state == Finalized && r.state == DepositPending
    requires d.finalizedAt.Some? && d.finalizedAt.value <= d.expiresAt
    ensures CreditDeposit(With(db, m, i, d, r), i)
         == Step(With(db, m, i, d.(state := CreditedProvisional), r.(state := FundedProvisional)).(
                   ledger := db.ledger + [Ledger.Entry(Ledger.DepositCredit(i), Ledger.Treasury,
                                                       Ledger.Participant(m), d.amount)]),
                 Done)
  {
    hide Inv, CreditDeposit;
    WithTwice(db, m, i, d, r, d.(state := CreditedProvisional), r.(state := FundedProvisional));
    CreditDepositByRows(With(db, m, i, d, r), i);
  }

  /** Created, opened, hinted, observed, finalized and credited while enrolling, a deposit ends credited with exactly
      what was reported; its member is funded, the ledger has one more entry of the full amount, and nothing else
      changed. */
  lemma DepositPath(db: Db, m: Id, i: Id, hinted: Id, hash: Id, block: int, index: int)
    requires Inv(db) && Enrolling(db, db.clock) && MayFund(db, m, Some(db.pod.contractHash), true)
    requires i !in db.intents && HashIsFree(db, i, hinted) && HashIsFree(db, i, hash)
    ensures var created := CreateIntent(db, db.clock, m, i, Some(db.pod.contractHash), true, true);
            var pending := WalletAttempt(created.db, i, true);
            var hint := TransactionHint(pending.db, i, hinted);
            var observed := ObserveDeposit(hint.db, i, hash, block, index);
            var finalized := FinalizeDeposit(observed.db, db.clock, i);
            && CreditDeposit(finalized.db, i)
                 == Step(With(db, m, i, CreditedIntent(db, m, hash, block, index, db.clock),
                              Waiting(db, m, i).(state := FundedProvisional)).(
                           ledger := db.ledger + [Ledger.Entry(Ledger.DepositCredit(i), Ledger.Treasury,
                                                               Ledger.Participant(m), db.pod.contract.totalLuna)]),
                         Done)
  {
    hide Inv, CreateIntent, WalletAttempt, TransactionHint, ObserveDeposit, FinalizeDeposit, CreditDeposit, HashIsFree;
    OpenPath(db, m, i);
    var created := CreateIntent(db, db.clock, m, i, Some(db.pod.contractHash), true, true).db;
    var pending := WalletAttempt(created, i, true).db;
    FreeWith(db, m, i, pending.intents[i], Waiting(db, m, i), hinted);
    FreeWith(db, m, i, pending.intents[i], Waiting(db, m, i), hash);
    ChainPath(pending, i, hinted, hash, block, index, db.clock);
    ChainKeeps(pending, i, hinted, hash, block, index, db.clock);
    var d := CreditedIntent(db, m, hash, block, index, db.clock).(state := Finalized);
    WithTwice(db, m, i, pending.intents[i], Waiting(db, m, i), d, Waiting(db, m, i));
    CreditPath(db, m, i, d, Waiting(db, m, i));
  }

  lemma FreeWith(db: Db, m: Id, i: Id, d: Intent, r: Membership, hash: Id)
    requires HashIsFree(db, i, hash)
    ensures HashIsFree(With(db, m, i, d, r), i, hash)
  {
  }

  lemma ChainKeeps(db: Db, i: Id, hinted: Id, hash: Id, block: int, index: int, now: Time)
    requires Inv(db)
    ensures Inv(FinalizeDeposit(ObserveDeposit(TransactionHint(db, i, hinted).db, i, hash, block, index).db, now, i).db)
  {
    hide Inv, TransactionHint, ObserveDeposit, FinalizeDeposit;
    FundingKeeps.TransactionHintKeeps(db, i, hinted);
    var hint := TransactionHint(db, i, hinted).db;
    FundingKeeps.ObserveDepositKeeps(hint, i, hash, block, index);
    FundingKeeps.FinalizeDepositKeeps(ObserveDeposit(hint, i, hash, block, index).db, now, i);
  }
}
