/** The rows of one Pod as the repositories update them in place. */
module Database {
  import opened Basics
  import opened Ledger
  import opened Rows
  import opened Invariants
  import opened Transactions
  import L = PayoutLegs

  class Database {
    var pod: Pod
    var memberships: map<Id, Membership>
    var intents: map<Id, Intent>
    var occurrences: seq<Occurrence>
    var submissions: map<SubmissionId, Submission>
    var refunds: map<Id, RefundLeg>
    var payouts: map<Id, L.Leg>
    var ledger: Book
    var run: Option<Run>
    var clock: Time

    /** The rows as a value. */
    function Rows(): Db
      reads this
    {
      Db(pod, memberships, intents, occurrences, submissions, refunds, payouts, ledger, run, clock)
    }

    ghost predicate Valid()
      reads this
    {
      Inv(Rows())
    }

    /** A published Pod. */
    constructor (pod: Pod, occurrences: seq<Occurrence>, now: Time)
      requires pod.state == EnrollmentOpen && PublishedContract(pod.contract) && CalendarOk(pod.contract, occurrences)
      ensures Valid() && Rows() == Published(pod, occurrences, now)
    {
      this.pod := pod;
      memberships, intents, submissions, refunds, payouts := map[], map[], map[], map[], map[];
      this.occurrences := occurrences;
      ledger := [];
      run := None;
      clock := now;
      new;
      PublishedIsInOrder(pod, occurrences, now);
    }

    /** Every transaction runs at its `now`; time never goes back. */
    method Begin(now: Time)
      requires Valid() && clock <= now
      modifies this`clock
      ensures Valid() && Rows() == Wait(old(Rows()), now)
    {
      WaitKeeps(Rows(), now);
      clock := now;
    }

    /** A transaction that throws leaves the rows as they were when it began. */
    method Rollback(before: Db)
      modifies this
      ensures Rows() == before
    {
      pod, memberships, intents, occurrences := before.pod, before.memberships, before.intents, before.occurrences;
      submissions, refunds, payouts := before.submissions, before.refunds, before.payouts;
      ledger, run, clock := before.ledger, before.run, before.clock;
    }

    /** Insert with `onConflictDoNothing` on the idempotency key. */
    method InsertEntry(e: Entry)
      modifies this`ledger
      ensures ledger == Post(old(ledger), e)
    {
      if e.key !in Keys(ledger) {
        ledger := ledger + [e];
      }
    }
  }
}
