/** The append-only double-entry ledger of one Pod. */
module Ledger {
  import opened Basics

  /** Ledger accounts. A Pod has at most one settlement run, so `payout_liability` needs no run id; refund
      legs are identified by the deposit their idempotency key names. */
  datatype Account =
    | Treasury
    | Participant(membership: Id)
    | RefundDue(deposit: Id)
    | OccurrenceShare(occurrence: Id, membership: Id)
    | BonusPool(occurrence: Id)
    | PayoutDue(membership: Id)

  /** The idempotency key of an entry; it also says which movement the entry records. */
  datatype Key =
    | DepositCredit(deposit: Id)
    | RefundEntitlement(deposit: Id)
    | RefundConfirmed(deposit: Id)
    | PrincipalAllocation(occurrence: Id, membership: Id)
    | PrincipalProtection(occurrence: Id, membership: Id)
    | ProvisionalForfeiture(occurrence: Id, membership: Id)
    | ZeroRecipientRestoration(occurrence: Id, membership: Id)
    | BonusEntitlement(occurrence: Id, membership: Id)
    | PayoutConfirmed(membership: Id)

  datatype Entry = Entry(key: Key, debit: Account, credit: Account, amount: int)

  type Book = seq<Entry>

  function Keys(book: Book): set<Key> {
    set e | e in book :: e.key
  }

  /** Insert with `onConflictDoNothing` on the idempotency key. */
  function Post(book: Book, e: Entry): Book {
    if e.key in Keys(book) then book else book + [e]
  }

  function Effect(e: Entry, a: Account): int {
    (if e.credit == a then e.amount else 0) - (if e.debit == a then e.amount else 0)
  }

  /** Credits minus debits: what the Pod owes on a liability account. */
  function Net(book: Book, a: Account): int {
    if book == [] then 0
    else Net(book[..|book| - 1], a) + Effect(book[|book| - 1], a)
  }

  /** The treasury is an asset account: debits minus credits. */
  function TreasuryAsset(book: Book): int {
    -Net(book, Treasury)
  }

  lemma NetOfOne(book: Book, e: Entry, a: Account)
    ensures Net(book + [e], a) == Net(book, a) + Effect(e, a)
  {
    assert (book + [e])[..|book|] == book;
  }

  lemma KeysOfOne(book: Book, e: Entry)
    ensures Keys(book + [e]) == Keys(book) + {e.key}
  {
  }

  lemma {:induction false} NetOfMany(book: Book, more: Book, a: Account)
    ensures Net(book + more, a) == Net(book, a) + Net(more, a)
  {
    if more == [] {
      assert book + more == book;
    } else {
      var init, last := more[..|more| - 1], more[|more| - 1];
      assert book + more == (book + init) + [last];
      NetOfMany(book, init, a);
      NetOfOne(book + init, last, a);
    }
  }

  lemma KeysOfMany(book: Book, more: Book)
    ensures Keys(book + more) == Keys(book) + Keys(more)
  {
  }

  // ---------------------------------------------------------------------------------------------
  // Double entry.
  // ---------------------------------------------------------------------------------------------

  /** The accounts an entry list mentions. */
  function Touched(book: Book): set<Account> {
    (set e | e in book :: e.debit) + (set e | e in book :: e.credit)
  }

  lemma EffectsCancel(e: Entry, accounts: set<Account>)
    requires e.debit in accounts && e.credit in accounts
    ensures SumOver(accounts, a => Effect(e, a)) == 0
  {
    var f := a => Effect(e, a);
    SumOverRemove(accounts, f, e.debit);
    if e.debit == e.credit {
      SumOverConstant(accounts - {e.debit}, f, 0);
    } else {
      SumOverRemove(accounts - {e.debit}, f, e.credit);
      SumOverConstant(accounts - {e.debit} - {e.credit}, f, 0);
    }
  }

  /** Over any set of accounts that contains every account touched, the balances cancel out. */
  lemma {:induction false} BalancesCancel(book: Book, accounts: set<Account>)
    requires Touched(book) <= accounts
    ensures SumOver(accounts, a => Net(book, a)) == 0
  {
    if book == [] {
      SumOverConstant(accounts, a => Net(book, a), 0);
    } else {
      var init, last := book[..|book| - 1], book[|book| - 1];
      assert forall e | e in init :: e in book;
      BalancesCancel(init, accounts);
      assert last in book;
      EffectsCancel(last, accounts);
      SumOverPlus(accounts, a => Net(init, a), a => Effect(last, a), a => Net(book, a));
    }
  }

  /** The treasury holds exactly what all other accounts are owed. */
  lemma TreasuryCoversLiabilities(book: Book, liabilities: set<Account>)
    requires Treasury !in liabilities
    requires Touched(book) <= liabilities + {Treasury}
    ensures TreasuryAsset(book) == SumOver(liabilities, a => Net(book, a))
  {
    BalancesCancel(book, liabilities + {Treasury});
    SumOverAdd(liabilities, a => Net(book, a), Treasury);
  }
}
