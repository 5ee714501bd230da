/** The funding repository as it runs: read, check, update, append. Each method is its specification function on
    the rows at its time, and keeps the invariants. */
module FundingRepository {
  import opened Basics
  import opened Ledger
  import opened Rows
  import opened Database
  import opened Funding
  import T = Transactions
  import FundingKeeps
  import I = Invariants

  method CreateDepositIntent(database: Database, now: Time, m: Id, i: Id, hash: Option<Id>, disclosed: bool,
                             accepted: bool)
    returns (reply: Reply)
    requires database.Valid() && database.clock <= now
    modifies database
    ensures database.Valid()
    ensures Step(database.Rows(), reply)
         == CreateIntent(T.Wait(old(database.Rows()), now), now, m, i, hash, disclosed, accepted)
  {
    hide I.Inv, HashTaken, NextDepositState, Keys;
    database.Begin(now);
    FundingKeeps.CreateIntentKeeps(database.Rows(), now, m, i, hash, disclosed, accepted);
    if m !in database.memberships {
      return Thrown;
    }
    var membership := database.memberships[m];
    if membership.intent.Some? || membership.state !in {AcceptedUnfunded, FundingFailed} {
      return Thrown;
    }
    var contract := database.pod.contract;
    if database.pod.state != EnrollmentOpen {
      return Thrown;
    }
    var proportional := contract.mode == Proportional;
    if proportional && (hash != Some(database.pod.contractHash) || !disclosed) {
      return Thrown;
    }
    if contract.visitorRoom && membership.acceptedHash != Some(database.pod.contractHash) {
      return Thrown;
    }
    if database.occurrences == [] || database.occurrences[0].opensAt <= now {
      return Thrown;
    }
    if !accepted || i in database.intents {
      return Thrown;
    }
    database.intents := database.intents[i := Intent(m, membership.user, contract.totalLuna, IntentCreated,
                                                     database.occurrences[0].opensAt, None, None, None, None, None)];
    database.memberships := database.memberships[m := membership.(
      intent := Some(i), state := DepositPending,
      acceptedHash := if proportional then Some(database.pod.contractHash) else membership.acceptedHash)];
    return Done;
  }

  method RecordDepositWalletAttempt(database: Database, now: Time, i: Id, open: bool) returns (reply: Reply)
    requires database.Valid() && database.clock <= now
    modifies database
    ensures database.Valid()
    ensures Step(database.Rows(), reply) == WalletAttempt(T.Wait(old(database.Rows()), now), i, open)
  {
    hide I.Inv, HashTaken, NextDepositState, Keys;
    database.Begin(now);
    FundingKeeps.WalletAttemptKeeps(database.Rows(), i, open);
    if i !in database.intents {
      return Nothing;
    }
    var intent := database.intents[i];
    var next := NextDepositState(intent.state, if open then OpenWallet else WalletReject, Client);
    if next.None? {
      return Thrown;
    }
    database.intents := database.intents[i := intent.(state := next.value)];
    if next.value == WalletRejected {
      var m := intent.membership;
      if m in database.memberships && database.memberships[m].intent == Some(i) {
        database.memberships :=
          database.memberships[m := database.memberships[m].(intent := None, state := FundingFailed)];
      }
    }
    return Done;
  }

  method RecordDepositTransactionHint(database: Database, now: Time, i: Id, hash: Id) returns (reply: Reply)
    requires database.Valid() && database.clock <= now
    modifies database
    ensures database.Valid()
    ensures Step(database.Rows(), reply) == TransactionHint(T.Wait(old(database.Rows()), now), i, hash)
  {
    hide I.Inv, HashTaken, NextDepositState, Keys;
    database.Begin(now);
    FundingKeeps.TransactionHintKeeps(database.Rows(), i, hash);
    var before := database.Rows();
    if i !in database.intents {
      return Nothing;
    }
    var intent := database.intents[i];
    var next := NextDepositState(intent.state, SubmitHint, Client);
    if next.None? {
      return Thrown;
    }
    database.intents := database.intents[i := intent.(state := next.value, hash := Some(hash))];
    if HashTaken(before, i, hash) {  // the unique index on the hash
      database.Rollback(before);
      return Thrown;
    }
    return Done;
  }

  method RecordDepositException(database: Database, now: Time, i: Id, code: ExceptionCode) returns (reply: Reply)
    requires database.Valid() && database.clock <= now
    modifies database
    ensures database.Valid()
    ensures Step(database.Rows(), reply) == FlagDeposit(T.Wait(old(database.Rows()), now), i, code)
  {
    hide I.Inv, HashTaken, NextDepositState, Keys;
    database.Begin(now);
    FundingKeeps.FlagDepositKeeps(database.Rows(), i, code);
    if i !in database.intents {
      return Nothing;
    }
    var intent := database.intents[i];
    if intent.state == ExceptionReview {
      if intent.exception != Some(code) {
        return Thrown;
      }
      return Nothing;
    }
    var next := NextDepositState(intent.state, FlagException, Worker);
    if next.None? {
      return Thrown;
    }
    database.intents := database.intents[i := intent.(state := next.value, exception := Some(code))];
    return Done;
  }

  method RecordObservedDeposit(database: Database, now: Time, i: Id, hash: Id, block: int, index: int)
    returns (reply: Reply)
    requires database.Valid() && database.clock <= now
    modifies database
    ensures database.Valid()
    ensures Step(database.Rows(), reply)
         == ObserveDeposit(T.Wait(old(database.Rows()), now), i, hash, block, index)
  {
    hide I.Inv, HashTaken, NextDepositState, Keys;
    database.Begin(now);
    FundingKeeps.ObserveDepositKeeps(database.Rows(), i, hash, block, index);
    if i !in database.intents {
      return Nothing;
    }
    var intent := database.intents[i];
    if intent.state == Observed && intent.hash == Some(hash) {
      return Nothing;
    }
    if HashTaken(database.Rows(), i, hash) {
      return Thrown;
    }
    var next := NextDepositState(intent.state, Observe, Worker);
    if next.None? {
      return Thrown;
    }
    database.intents := database.intents[i := intent.(
      state := next.value, hash := Some(hash), block := Some(block), index := Some(index))];
    return Done;
  }

  method FinalizeObservedDeposit(database: Database, now: Time, i: Id) returns (reply: Reply)
    requires database.Valid() && database.clock <= now
    modifies database
    ensures database.Valid()
    ensures Step(database.Rows(), reply) == FinalizeDeposit(T.Wait(old(database.Rows()), now), now, i)
  {
    hide I.Inv, HashTaken, NextDepositState, Keys;
    database.Begin(now);
    FundingKeeps.FinalizeDepositKeeps(database.Rows(), now, i);
    if i !in database.intents {
      return Nothing;
    }
    var intent := database.intents[i];
    if intent.state in {Finalized, CreditedProvisional, AppliedToRoster} {
      return Nothing;
    }
    var next := NextDepositState(intent.state, Finalize, Worker);
    if next.None? {
      return Thrown;
    }
    database.intents := database.intents[i := intent.(state := next.value, finalizedAt := Some(now))];
    return Done;
  }

  method CreditFinalizedDeposit(database: Database, now: Time, i: Id) returns (reply: Reply)
    requires database.Valid() && database.clock <= now
    modifies database
    ensures database.Valid()
    ensures Step(database.Rows(), reply) == CreditDeposit(T.Wait(old(database.Rows()), now), i)
  {
    hide I.Inv, HashTaken, NextDepositState, Keys;
    database.Begin(now);
    FundingKeeps.CreditDepositKeeps(database.Rows(), i);
    var before := database.Rows();
    if i !in database.intents {
      return Nothing;
    }
    var intent := database.intents[i];
    if intent.state in {CreditedProvisional, AppliedToRoster} {
      return Nothing;
    }
    if intent.state == Finalized && intent.finalizedAt.Some? && intent.finalizedAt.value > intent.expiresAt {
      database.intents :=
        database.intents[i := intent.(state := ExceptionReview, exception := Some(FinalizedAfterCutoff))];
      return Done;
    }
    var next := NextDepositState(intent.state, Credit, Worker);
    if next.None? {
      return Thrown;
    }
    if intent.membership !in database.memberships || database.memberships[intent.membership].intent != Some(i) {
      return Thrown;
    }
    var membership := database.memberships[intent.membership];
    database.InsertEntry(CreditEntry(i, intent));
    database.intents := database.intents[i := intent.(state := next.value)];
    if membership.state != DepositPending {
      database.Rollback(before);
      return Thrown;
    }
    database.memberships := database.memberships[intent.membership := membership.(state := FundedProvisional)];
    return Done;
  }
}
