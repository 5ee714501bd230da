/** Many Pods side by side: the treasury they share holds exactly what all of them owe. */
module Platform {
  import opened Basics
  import opened Ledger
  import opened Rows
  import opened Invariants
  import opened Transactions
  import opened Conservation

  /** The rows of every Pod. */
  type Pods = map<Id, Db>

  /** One step: a Pod is published, or one transaction runs on the rows of one Pod. */
  ghost predicate Moves(before: Pods, p: Id, e: Event, after: Pods) {
    && p in after && after == before[p := after[p]]
    && (if p in before then Follows(before[p], e, after[p]) else Inv(after[p]) && after[p].ledger == [])
  }

  ghost predicate AllInOrder(pods: Pods) {
    forall p | p in pods :: Inv(pods[p])
  }

  datatype Move = Move(pod: Id, event: Event)

  ghost predicate Moving(states: seq<Pods>, moves: seq<Move>) {
    && |states| == |moves| + 1
    && (forall k | 0 <= k < |moves| :: Moves(states[k], moves[k].pod, moves[k].event, states[k + 1]))
  }

  lemma MoveKeeps(before: Pods, p: Id, e: Event, after: Pods)
    requires AllInOrder(before) && Moves(before, p, e, after)
    ensures AllInOrder(after)
  {
    hide Inv, Follows;
    if p in before { FollowsKeeps(before[p], e, after[p]); }
  }

  lemma {:induction false} MovingKeeps(states: seq<Pods>, moves: seq<Move>, k: nat)
    requires Moving(states, moves) && AllInOrder(states[0]) && k < |states|
    ensures AllInOrder(states[k])
  {
    hide AllInOrder, Moves;
    if k > 0 {
      MovingKeeps(states, moves, k - 1);
      MoveKeeps(states[k - 1], moves[k - 1].pod, moves[k - 1].event, states[k]);
    }
  }

  /** What one Pod still owes. */
  ghost function Outstanding(db: Db): int {
    ParticipantsOwed(db) + RefundsOwed(db) + PayoutsOwed(db)
  }

  ghost function TreasuryOf(pods: Pods, p: Id): int {
    if p in pods then TreasuryAsset(pods[p].ledger) else 0
  }

  ghost function OutstandingOf(pods: Pods, p: Id): int {
    if p in pods then Outstanding(pods[p]) else 0
  }

  /** However the transactions of all Pods interleave, the shared treasury equals the liabilities of all Pods. */
  lemma SharedTreasuryCovers(states: seq<Pods>, moves: seq<Move>, k: nat)
    requires Moving(states, moves) && AllInOrder(states[0]) && k < |states|
    ensures SumOver(states[k].Keys, p => TreasuryOf(states[k], p))
         == SumOver(states[k].Keys, p => OutstandingOf(states[k], p))
  {
    hide SumOver, Inv, Moving, TreasuryAsset, ParticipantsOwed, RefundsOwed, PayoutsOwed;
    MovingKeeps(states, moves, k);
    forall p | p in states[k] ensures TreasuryOf(states[k], p) == OutstandingOf(states[k], p) {
      TreasuryCoversAll(states[k][p]);
    }
    SumOverSame(states[k].Keys, p => TreasuryOf(states[k], p), p => OutstandingOf(states[k], p));
  }
}
