/** One payout transfer leg with its attempt rows and its event rows, and the transactions that move it. */
module PayoutLegs {
  import opened Basics

  datatype LegState =
    Queued | Prepared | Broadcast | Unknown | RetryableFailed | Mismatched | Late | Confirmed | ManualReview

  datatype Attempt = Attempt(id: Id, sequence: nat, state: LegState, hash: Id)

  datatype Reason =
    AttemptPrepared | RetryRequested | BroadcastClaimed | BroadcastSubmitted | WorkerReport | ChainFinalized

  /** A retry request is written by operations, every other event by the worker. */
  datatype Event = Event(attempt: Id, reason: Reason, from: LegState, to: LegState)

  datatype Leg = Leg(amount: int, state: LegState, attempts: seq<Attempt>, events: seq<Event>)

  /** `pods:payout:<leg>:<sequence>`. */
  datatype DataReference = DataReference(leg: Id, sequence: nat)

  datatype Outcome =
    | Moved(leg: Leg)    // the transaction updated the rows
    | Unmoved            // it returned without touching a row
    | Refused            // it threw

  predicate OpenLeg(s: LegState) {
    s in {Queued, Prepared, Broadcast, Unknown}
  }

  predicate OpenAttempt(s: LegState) {
    s in {Prepared, Broadcast, Unknown}
  }

  predicate Replaceable(s: LegState) {
    s in {RetryableFailed, Late}
  }

  function NewLeg(amount: int): Leg {
    Leg(amount, Queued, [], [])
  }

  /** The row `order by sequence desc limit 1` selects. */
  function Latest(attempts: seq<Attempt>): (i: nat)
    requires attempts != []
    ensures i < |attempts|
    ensures forall j | 0 <= j < |attempts| :: attempts[j].sequence <= attempts[i].sequence
  {
    if |attempts| == 1 then 0
    else
      var init := Latest(attempts[..|attempts| - 1]);
      assert forall j | 0 <= j < |attempts| - 1 :: attempts[..|attempts| - 1][j] == attempts[j];
      if attempts[init].sequence <= attempts[|attempts| - 1].sequence then |attempts| - 1 else init
  }

  /** The row with this id, or the number of rows when there is none. */
  function Find(attempts: seq<Attempt>, id: Id): (i: nat)
    ensures i <= |attempts|
    ensures i < |attempts| ==> attempts[i].id == id
    ensures forall j | 0 <= j < i :: attempts[j].id != id
  {
    if attempts == [] then 0
    else if attempts[0].id == id then 0
    else 1 + Find(attempts[1..], id)
  }

  /** Moves leg and attempt together and logs the event. */
  function MoveBoth(leg: Leg, i: nat, to: LegState, reason: Reason): Leg
    requires i < |leg.attempts|
  {
    leg.(state := to,
         attempts := leg.attempts[i := leg.attempts[i].(state := to)],
         events := leg.events + [Event(leg.attempts[i].id, reason, leg.state, to)])
  }

  /** `persistPayoutTransferAttempt`; `accepted` says whether the unique indexes take the new row. */
  function Prepare(legId: Id, leg: Leg, id: Id, reference: DataReference, hash: Id, accepted: bool): Outcome {
    if leg.attempts != [] && leg.state != Queued then Unmoved
    else if leg.state != Queued then Refused
    else if leg.attempts != [] && !Replaceable(leg.attempts[Latest(leg.attempts)].state) then Refused
    else
      var sequence := (if leg.attempts == [] then 0 else leg.attempts[Latest(leg.attempts)].sequence) + 1;
      if reference != DataReference(legId, sequence) then Refused
      else if !accepted || Find(leg.attempts, id) < |leg.attempts| then Refused
      else
        Moved(leg.(state := Prepared,
                   attempts := leg.attempts + [Attempt(id, sequence, Prepared, hash)],
                   events := leg.events + [Event(id, AttemptPrepared, Queued, Prepared)]))
  }

  /** `requestPayoutRetry`. */
  function RequestRetry(leg: Leg, id: Id): Outcome {
    var i := Find(leg.attempts, id);
    if !Replaceable(leg.state) then Refused
    else if i == |leg.attempts| || leg.attempts[i].state != leg.state then Refused
    else if leg.attempts[Latest(leg.attempts)].id != id then Refused
    else Moved(leg.(state := Queued, events := leg.events + [Event(id, RetryRequested, leg.state, Queued)]))
  }

  /** `claimPayoutBroadcast`. */
  function ClaimBroadcast(leg: Leg, id: Id): Outcome {
    var i := Find(leg.attempts, id);
    if leg.state != Prepared then Unmoved
    else if i == |leg.attempts| || leg.attempts[i].state != Prepared then Unmoved
    else Moved(MoveBoth(leg, i, Unknown, BroadcastClaimed))
  }

  /** `markPayoutTransferBroadcast`. */
  function MarkBroadcast(leg: Leg, id: Id): Outcome {
    var i := Find(leg.attempts, id);
    if i == |leg.attempts| || leg.attempts[i].state != Unknown then Unmoved
    else if leg.state != Unknown then Refused
    else Moved(MoveBoth(leg, i, Broadcast, BroadcastSubmitted))
  }

  /** `transitionPayoutAttempt`, behind the unknown, retryable-failed, mismatched and late marks. */
  function Report(leg: Leg, id: Id, to: LegState): Outcome {
    var i := Find(leg.attempts, id);
    if !OpenLeg(leg.state) then Unmoved
    else if i == |leg.attempts| || !OpenAttempt(leg.attempts[i].state) then Unmoved
    else Moved(MoveBoth(leg, i, to, WorkerReport))
  }

  /** The states the worker reports. */
  predicate Reportable(s: LegState) {
    s in {Unknown, RetryableFailed, Mismatched, Late}
  }

  /** The leg's part of `confirmPayoutTransfer`. */
  function Confirm(leg: Leg, id: Id): Outcome {
    var i := Find(leg.attempts, id);
    if leg.state == Confirmed then Unmoved
    else if !OpenLeg(leg.state) then Refused
    else if i == |leg.attempts| || !OpenAttempt(leg.attempts[i].state) then Refused
    else Moved(MoveBoth(leg, i, Confirmed, ChainFinalized))
  }

  datatype LegAction =
    | DoPrepare(id: Id, reference: DataReference, hash: Id, accepted: bool)
    | DoRetry(id: Id)
    | DoClaim(id: Id)
    | DoBroadcast(id: Id)
    | DoReport(id: Id, to: LegState)
    | DoConfirm(id: Id)

  function Act(legId: Id, leg: Leg, action: LegAction): Outcome
    requires action.DoReport? ==> Reportable(action.to)
  {
    match action
    case DoPrepare(id, reference, hash, accepted) => Prepare(legId, leg, id, reference, hash, accepted)
    case DoRetry(id) => RequestRetry(leg, id)
    case DoClaim(id) => ClaimBroadcast(leg, id)
    case DoBroadcast(id) => MarkBroadcast(leg, id)
    case DoReport(id, to) => Report(leg, id, to)
    case DoConfirm(id) => Confirm(leg, id)
  }

  // ---------------------------------------------------------------------------------------------
  // Invariants.
  // ---------------------------------------------------------------------------------------------

  /** Attempts are numbered 1..k, have distinct ids, and all but the last are replaceable. */
  predicate AttemptsOk(attempts: seq<Attempt>) {
    && (forall i | 0 <= i < |attempts| :: attempts[i].sequence == i + 1 && attempts[i].state != Queued)
    && (forall i, j | 0 <= i < j < |attempts| :: attempts[i].id != attempts[j].id)
    && (forall i | 0 <= i < |attempts| - 1 :: Replaceable(attempts[i].state))
  }

  /** The leg mirrors its last attempt unless it waits for a new one; nothing marks it for manual review. */
  predicate MirrorsLast(leg: Leg) {
    if leg.state == ManualReview then false
    else if leg.state == Queued then
      leg.attempts == [] || Replaceable(leg.attempts[|leg.attempts| - 1].state)
    else
      leg.attempts != [] && leg.attempts[|leg.attempts| - 1].state == leg.state
  }

  /** Replaying the event log from `queued`; `None` when an event does not start where the last one ended. */
  function Replay(events: seq<Event>): Option<LegState> {
    if events == [] then Some(Queued)
    else
      var before := Replay(events[..|events| - 1]);
      var last := events[|events| - 1];
      if before == Some(last.from) then Some(last.to) else None
  }

  function CountOf(events: seq<Event>, reason: Reason): nat {
    if events == [] then 0
    else CountOf(events[..|events| - 1], reason) + if events[|events| - 1].reason == reason then 1 else 0
  }

  /** How often an attempt's broadcast was claimed. */
  function ClaimsOf(events: seq<Event>, id: Id): nat {
    if events == [] then 0
    else
      var last := events[|events| - 1];
      ClaimsOf(events[..|events| - 1], id) + if last.reason == BroadcastClaimed && last.attempt == id then 1 else 0
  }

  predicate Known(attempts: seq<Attempt>, id: Id) {
    exists i :: 0 <= i < |attempts| && attempts[i].id == id
  }

  /** Claims are only ever logged for attempts that have left `prepared`, once each; a new attempt needs a
      retry unless it is the first. */
  predicate ClaimsOk(leg: Leg) {
    && (forall i | 0 <= i < |leg.attempts| ::
          ClaimsOf(leg.events, leg.attempts[i].id) <= if leg.attempts[i].state == Prepared then 0 else 1)
    && (forall i | 0 <= i < |leg.events| :: Known(leg.attempts, leg.events[i].attempt))
    && |leg.attempts| == CountOf(leg.events, RetryRequested) + if leg.state == Queued then 0 else 1
  }

  /** A confirmation is logged once, and then the leg is confirmed. */
  predicate ConfirmsOk(leg: Leg) {
    CountOf(leg.events, ChainFinalized) == if leg.state == Confirmed then 1 else 0
  }

  predicate LegOk(leg: Leg) {
    && AttemptsOk(leg.attempts)
    && MirrorsLast(leg)
    && Replay(leg.events) == Some(leg.state)
    && ClaimsOk(leg)
    && ConfirmsOk(leg)
  }

  lemma LatestIsLast(attempts: seq<Attempt>)
    requires AttemptsOk(attempts) && attempts != []
    ensures Latest(attempts) == |attempts| - 1
  {
    assert attempts[Latest(attempts)].sequence == Latest(attempts) + 1;
    assert attempts[|attempts| - 1].sequence == |attempts|;
  }

  /** Only the last attempt can be open. */
  lemma OpenIsLast(leg: Leg, i: nat)
    requires AttemptsOk(leg.attempts) && MirrorsLast(leg) && i < |leg.attempts|
    requires OpenAttempt(leg.attempts[i].state)
    ensures i == |leg.attempts| - 1 && leg.state == leg.attempts[i].state
  {
  }

  lemma LoggedOnce(events: seq<Event>, e: Event)
    ensures Replay(events + [e]) == if Replay(events) == Some(e.from) then Some(e.to) else None
    ensures forall r :: CountOf(events + [e], r) == CountOf(events, r) + if e.reason == r then 1 else 0
    ensures forall id :: ClaimsOf(events + [e], id)
                      == ClaimsOf(events, id) + if e.reason == BroadcastClaimed && e.attempt == id then 1 else 0
  {
    assert (events + [e])[..|events|] == events;
  }

  lemma {:induction false} UnknownHasNoClaims(events: seq<Event>, id: Id)
    requires forall i | 0 <= i < |events| :: events[i].attempt != id
    ensures ClaimsOf(events, id) == 0
  {
    if events != [] {
      UnknownHasNoClaims(events[..|events| - 1], id);
    }
  }

  lemma MoveBothKeeps(leg: Leg, i: nat, to: LegState, reason: Reason)
    requires LegOk(leg) && i < |leg.attempts| && OpenAttempt(leg.attempts[i].state)
    requires to !in {Queued, Prepared, ManualReview} && reason != RetryRequested
    requires reason == ChainFinalized <==> to == Confirmed
    requires reason == BroadcastClaimed ==> leg.attempts[i].state == Prepared
    ensures LegOk(MoveBoth(leg, i, to, reason))
  {
    OpenIsLast(leg, i);
    LoggedOnce(leg.events, Event(leg.attempts[i].id, reason, leg.state, to));
    var moved := MoveBoth(leg, i, to, reason);
    forall k | 0 <= k < |moved.events| ensures Known(moved.attempts, moved.events[k].attempt) {
      if k < |leg.events| {
        assert Known(leg.attempts, leg.events[k].attempt);
        var j :| 0 <= j < |leg.attempts| && leg.attempts[j].id == leg.events[k].attempt;
        assert moved.attempts[j].id == leg.events[k].attempt;
      } else {
        assert moved.attempts[i].id == leg.attempts[i].id;
      }
    }
  }

  /** The rows after a new attempt was prepared. */
  function WithAttempt(leg: Leg, id: Id, sequence: nat, hash: Id): Leg {
    leg.(state := Prepared,
         attempts := leg.attempts + [Attempt(id, sequence, Prepared, hash)],
         events := leg.events + [Event(id, AttemptPrepared, Queued, Prepared)])
  }

  lemma NewAttemptInOrder(attempts: seq<Attempt>, a: Attempt)
    requires AttemptsOk(attempts) && a.sequence == |attempts| + 1 && a.state == Prepared
    requires attempts != [] ==> Replaceable(attempts[|attempts| - 1].state)
    requires Find(attempts, a.id) == |attempts|
    ensures AttemptsOk(attempts + [a])
  {
  }

  lemma KnownGrows(attempts: seq<Attempt>, a: Attempt, id: Id)
    ensures Known(attempts, id) ==> Known(attempts + [a], id)
    ensures Known(attempts + [a], a.id)
  {
    if Known(attempts, id) {
      var j :| 0 <= j < |attempts| && attempts[j].id == id;
      assert (attempts + [a])[j].id == id;
    }
    assert (attempts + [a])[|attempts|].id == a.id;
  }

  lemma NewIsUnlogged(leg: Leg, id: Id)
    requires ClaimsOk(leg) && Find(leg.attempts, id) == |leg.attempts|
    ensures ClaimsOf(leg.events, id) == 0
  {
    forall k | 0 <= k < |leg.events| ensures leg.events[k].attempt != id {
      assert Known(leg.attempts, leg.events[k].attempt);
    }
    UnknownHasNoClaims(leg.events, id);
  }

  lemma NewAttemptUnclaimed(leg: Leg, id: Id, sequence: nat, hash: Id)
    requires ClaimsOk(leg) && leg.state == Queued && Find(leg.attempts, id) == |leg.attempts|
    ensures ClaimsOk(WithAttempt(leg, id, sequence, hash))
  {
    NewIsUnlogged(leg, id);
    LoggedOnce(leg.events, Event(id, AttemptPrepared, Queued, Prepared));
    var moved := WithAttempt(leg, id, sequence, hash);
    hide Known;
    forall k | 0 <= k < |moved.events| ensures Known(moved.attempts, moved.events[k].attempt) {
      KnownGrows(leg.attempts, Attempt(id, sequence, Prepared, hash), moved.events[k].attempt);
    }
  }

  lemma PrepareKeeps(legId: Id, leg: Leg, id: Id, reference: DataReference, hash: Id, accepted: bool)
    requires LegOk(leg)
    ensures Prepare(legId, leg, id, reference, hash, accepted).Moved? ==>
              LegOk(Prepare(legId, leg, id, reference, hash, accepted).leg)
  {
    hide AttemptsOk, ClaimsOk;
    if Prepare(legId, leg, id, reference, hash, accepted).Moved? {
      LastNumber(leg.attempts);
      NewAttemptInOrder(leg.attempts, Attempt(id, |leg.attempts| + 1, Prepared, hash));
      NewAttemptUnclaimed(leg, id, |leg.attempts| + 1, hash);
      LoggedOnce(leg.events, Event(id, AttemptPrepared, Queued, Prepared));
    }
  }

  lemma LastNumber(attempts: seq<Attempt>)
    requires AttemptsOk(attempts)
    ensures attempts != [] ==> Latest(attempts) == |attempts| - 1 && attempts[|attempts| - 1].sequence == |attempts|
  {
    if attempts != [] { LatestIsLast(attempts); }
  }

  lemma RetryKeepsClaims(leg: Leg, id: Id)
    requires ClaimsOk(leg) && leg.state != Queued && Find(leg.attempts, id) < |leg.attempts|
    ensures ClaimsOk(leg.(state := Queued, events := leg.events + [Event(id, RetryRequested, leg.state, Queued)]))
  {
    LoggedOnce(leg.events, Event(id, RetryRequested, leg.state, Queued));
    assert leg.attempts[Find(leg.attempts, id)].id == id;
    assert Known(leg.attempts, id);
    hide Known;
  }

  lemma RetryKeeps(leg: Leg, id: Id)
    requires LegOk(leg)
    ensures RequestRetry(leg, id).Moved? ==> LegOk(RequestRetry(leg, id).leg)
  {
    hide AttemptsOk, ClaimsOk;
    if RequestRetry(leg, id).Moved? {
      LastNumber(leg.attempts);
      RetryKeepsClaims(leg, id);
      LoggedOnce(leg.events, Event(id, RetryRequested, leg.state, Queued));
    }
  }

  /** Every transaction on a payout leg keeps the numbering, the mirroring, the event history and the claim
      bounds. */
  lemma ActKeeps(legId: Id, leg: Leg, action: LegAction)
    requires LegOk(leg) && (action.DoReport? ==> Reportable(action.to))
    ensures Act(legId, leg, action).Moved? ==> LegOk(Act(legId, leg, action).leg)
  {
    if Act(legId, leg, action).Moved? {
      match action {
        case DoPrepare(id, reference, hash, accepted) => PrepareKeeps(legId, leg, id, reference, hash, accepted);
        case DoRetry(id) => RetryKeeps(leg, id);
        case DoClaim(id) => MoveBothKeeps(leg, Find(leg.attempts, id), Unknown, BroadcastClaimed);
        case DoBroadcast(id) => MoveBothKeeps(leg, Find(leg.attempts, id), Broadcast, BroadcastSubmitted);
        case DoReport(id, to) => MoveBothKeeps(leg, Find(leg.attempts, id), to, WorkerReport);
        case DoConfirm(id) => MoveBothKeeps(leg, Find(leg.attempts, id), Confirmed, ChainFinalized);
      }
    }
  }

  /** Only an unconfirmed leg moves, and only a confirmation confirms it; the amount never changes. */
  lemma ActEffect(legId: Id, leg: Leg, action: LegAction)
    requires action.DoReport? ==> Reportable(action.to)
    ensures Act(legId, leg, action).Moved? ==>
      && leg.state != Confirmed
      && Act(legId, leg, action).leg.amount == leg.amount
      && (Act(legId, leg, action).leg.state == Confirmed <==> action.DoConfirm?)
  {
  }

  /** The reason a transaction logs when it moves a leg. */
  function ReasonOf(action: LegAction): Reason {
    match action
    case DoPrepare(_, _, _, _) => AttemptPrepared
    case DoRetry(_) => RetryRequested
    case DoClaim(_) => BroadcastClaimed
    case DoBroadcast(_) => BroadcastSubmitted
    case DoReport(_, _) => WorkerReport
    case DoConfirm(_) => ChainFinalized
  }

  /** A moved leg has one more event: its own state change, under the attempt and reason of the transaction. */
  lemma ActLogs(legId: Id, leg: Leg, action: LegAction)
    requires action.DoReport? ==> Reportable(action.to)
    ensures Act(legId, leg, action).Moved? ==>
              var after := Act(legId, leg, action).leg;
              after.events == leg.events + [Event(action.id, ReasonOf(action), leg.state, after.state)]
  {
  }

  // ---------------------------------------------------------------------------------------------
  // What a leg that is in order cannot do.
  // ---------------------------------------------------------------------------------------------

  lemma {:induction false} TotalClaims(events: seq<Event>, attempts: seq<Attempt>)
    requires forall i, j | 0 <= i < j < |attempts| :: attempts[i].id != attempts[j].id
    requires forall i | 0 <= i < |events| :: Known(attempts, events[i].attempt)
    ensures CountOf(events, BroadcastClaimed) == SumClaims(events, attempts)
  {
    if events == [] {
      NoClaims(attempts);
    } else {
      var init, last := events[..|events| - 1], events[|events| - 1];
      TotalClaims(init, attempts);
      assert events == init + [last];
      assert Known(attempts, last.attempt);
      OneMoreClaim(init, last, attempts);
    }
  }

  function SumClaims(events: seq<Event>, attempts: seq<Attempt>): nat {
    if attempts == [] then 0
    else SumClaims(events, attempts[..|attempts| - 1]) + ClaimsOf(events, attempts[|attempts| - 1].id)
  }

  lemma {:induction false} NoClaims(attempts: seq<Attempt>)
    ensures SumClaims([], attempts) == 0
  {
    if attempts != [] { NoClaims(attempts[..|attempts| - 1]); }
  }

  lemma {:induction false} OneMoreClaim(events: seq<Event>, e: Event, attempts: seq<Attempt>)
    requires forall i, j | 0 <= i < j < |attempts| :: attempts[i].id != attempts[j].id
    ensures SumClaims(events + [e], attempts) == SumClaims(events, attempts)
              + if e.reason == BroadcastClaimed && Known(attempts, e.attempt) then 1 else 0
  {
    if attempts != [] {
      var init, last := attempts[..|attempts| - 1], attempts[|attempts| - 1];
      OneMoreClaim(events, e, init);
      LoggedOnce(events, e);
      if Known(attempts, e.attempt) {
        var i :| 0 <= i < |attempts| && attempts[i].id == e.attempt;
        if i < |init| { assert init[i].id == e.attempt; assert Known(init, e.attempt); }
      }
      if Known(init, e.attempt) {
        var i :| 0 <= i < |init| && init[i].id == e.attempt;
        assert attempts[i].id == e.attempt;
      } else if last.id == e.attempt {
        assert attempts[|init|].id == e.attempt;
      }
    }
  }

  lemma {:induction false} AtMostOneEach(events: seq<Event>, attempts: seq<Attempt>)
    requires forall i | 0 <= i < |attempts| :: ClaimsOf(events, attempts[i].id) <= 1
    ensures SumClaims(events, attempts) <= |attempts|
  {
    if attempts != [] { AtMostOneEach(events, attempts[..|attempts| - 1]); }
  }

  /** A broadcast is claimed at most once per attempt, and at most once more than retries were granted. */
  lemma ClaimsAreBounded(leg: Leg, id: Id)
    requires LegOk(leg)
    ensures ClaimsOf(leg.events, id) <= 1
    ensures CountOf(leg.events, BroadcastClaimed) <= 1 + CountOf(leg.events, RetryRequested)
  {
    TotalClaims(leg.events, leg.attempts);
    AtMostOneEach(leg.events, leg.attempts);
    if Known(leg.attempts, id) {
      var i :| 0 <= i < |leg.attempts| && leg.attempts[i].id == id;
    } else {
      forall i | 0 <= i < |leg.events| ensures leg.events[i].attempt != id {
        assert Known(leg.attempts, leg.events[i].attempt);
      }
      UnknownHasNoClaims(leg.events, id);
    }
  }

  /** At most one attempt of a leg is ever confirmed: the last one, and then the leg is too. */
  lemma AtMostOneConfirmed(leg: Leg, i: nat, j: nat)
    requires LegOk(leg) && i < |leg.attempts| && j < |leg.attempts|
    requires leg.attempts[i].state == Confirmed && leg.attempts[j].state == Confirmed
    ensures i == j == |leg.attempts| - 1 && leg.state == Confirmed
  {
  }

  // ---------------------------------------------------------------------------------------------
  // History: what a leg keeps for ever.
  // ---------------------------------------------------------------------------------------------

  /** `b` is a possible later state of `a`: attempts keep id, number and bytes, an attempt that is no longer
      open keeps its state, the event log only grows, and a confirmed or mismatched leg is final. */
  predicate Evolves(a: Leg, b: Leg) {
    && a.amount == b.amount
    && |a.attempts| <= |b.attempts|
    && (forall i | 0 <= i < |a.attempts| ::
          && b.attempts[i].id == a.attempts[i].id
          && b.attempts[i].sequence == a.attempts[i].sequence
          && b.attempts[i].hash == a.attempts[i].hash
          && (!OpenAttempt(a.attempts[i].state) ==> b.attempts[i].state == a.attempts[i].state))
    && a.events <= b.events
    && (a.state in {Confirmed, Mismatched} ==> b == a)
  }

  lemma EvolvesTransitively(a: Leg, b: Leg, c: Leg)
    requires Evolves(a, b) && Evolves(b, c)
    ensures Evolves(a, c)
  {
    assert forall i | 0 <= i < |a.events| :: c.events[i] == b.events[i] == a.events[i];
  }

  lemma MoveBothEvolves(leg: Leg, i: nat, to: LegState, reason: Reason)
    requires i < |leg.attempts| && OpenAttempt(leg.attempts[i].state) && leg.state !in {Confirmed, Mismatched}
    ensures Evolves(leg, MoveBoth(leg, i, to, reason))
  {
  }

  /** Every transaction on a leg only adds to its history. */
  lemma ActEvolves(legId: Id, leg: Leg, action: LegAction)
    requires action.DoReport? ==> Reportable(action.to)
    requires LegOk(leg)
    ensures Act(legId, leg, action).Moved? ==> Evolves(leg, Act(legId, leg, action).leg)
  {
    hide LegOk, Evolves;
    if Act(legId, leg, action).Moved? {
      match action {
        case DoPrepare(id, reference, hash, accepted) =>
          PrepareEvolves(legId, leg, id, reference, hash, accepted);
        case DoRetry(id) => RetryEvolves(leg, id);
        case DoClaim(id) => MoveBothEvolves(leg, Find(leg.attempts, id), Unknown, BroadcastClaimed);
        case DoBroadcast(id) => MoveBothEvolves(leg, Find(leg.attempts, id), Broadcast, BroadcastSubmitted);
        case DoReport(id, to) => MoveBothEvolves(leg, Find(leg.attempts, id), to, WorkerReport);
        case DoConfirm(id) => MoveBothEvolves(leg, Find(leg.attempts, id), Confirmed, ChainFinalized);
      }
    }
  }

  lemma PrepareEvolves(legId: Id, leg: Leg, id: Id, reference: DataReference, hash: Id, accepted: bool)
    ensures Prepare(legId, leg, id, reference, hash, accepted).Moved? ==>
              Evolves(leg, Prepare(legId, leg, id, reference, hash, accepted).leg)
  {
  }

  lemma RetryEvolves(leg: Leg, id: Id)
    ensures RequestRetry(leg, id).Moved? ==> Evolves(leg, RequestRetry(leg, id).leg)
  {
  }
}
