/** Occurrence windows, submissions and their reviews, and the Pod's way to final review. */
module Lifecycle {
  import opened Basics
  import opened Rows

  // ---------------------------------------------------------------------------------------------
  // Occurrence windows.
  // ---------------------------------------------------------------------------------------------

  /** `occurrenceWindowState`. */
  function WindowStateAt(o: Occurrence, now: Time): WindowState {
    if now < o.opensAt then Scheduled
    else if o.deadline.Some? && now < o.deadline.value then CommitmentOpen
    else if now < o.closesAt then EvidenceOpen
    else ReviewOpen
  }

  /** The Pod is locked and its first occurrence opens. */
  predicate ActivationDue(db: Db, now: Time) {
    db.pod.state == LockedScheduled && db.occurrences != [] && db.occurrences[0].opensAt <= now
  }

  function ActivateRow(r: Membership): Membership {
    if r.state == RosterLocked then r.(state := MemberActive) else r
  }

  function ActivateAll(memberships: map<Id, Membership>): map<Id, Membership> {
    map m | m in memberships :: ActivateRow(memberships[m])
  }

  function Activate(db: Db, now: Time): Db {
    if ActivationDue(db, now) then
      db.(memberships := ActivateAll(db.memberships), pod := db.pod.(state := PodActive))
    else db
  }

  function AdvanceWindows(occurrences: seq<Occurrence>, now: Time): (r: seq<Occurrence>)
    ensures |r| == |occurrences|
  {
    seq(|occurrences|, k requires 0 <= k < |occurrences| =>
      occurrences[k].(state := WindowStateAt(occurrences[k], now)))
  }

  function Advance(db: Db, now: Time): Db {
    if db.pod.state == PodActive then db.(occurrences := AdvanceWindows(db.occurrences, now)) else db
  }

  /** The last occurrence of the Pod has closed. */
  predicate Ending(db: Db, now: Time) {
    db.pod.state == PodActive && db.occurrences != []
    && forall k | 0 <= k < |db.occurrences| :: db.occurrences[k].closesAt <= now
  }

  function End(db: Db, now: Time): Db {
    if Ending(db, now) then db.(pod := db.pod.(state := FinalReview)) else db
  }

  predicate ReviewPending(db: Db) {
    exists s :: s in db.submissions && db.submissions[s].state == Reviewing
  }

  /** An alpha Pod has nothing to settle once its reviews are done. */
  function CompleteAlpha(db: Db): Db {
    if db.pod.state == FinalReview && db.pod.contract.mode == FullRefundAlpha && !ReviewPending(db) then
      db.(pod := db.pod.(state := Completed))
    else db
  }

  /** `runOccurrenceTransitions` for this Pod. */
  function RunTransitions(db: Db, now: Time): Step {
    Step(CompleteAlpha(End(Advance(Activate(db, now), now), now)), Done)
  }

  // ---------------------------------------------------------------------------------------------
  // Submissions.
  // ---------------------------------------------------------------------------------------------

  datatype SubmissionActor = Participant | System | Creator
  datatype SubmissionEvent = Submit | Approve | Reject | ProtectTimeout

  /** `nextSubmissionState`. */
  function NextSubmissionState(state: SubmissionState, event: SubmissionEvent, actor: SubmissionActor)
    : Option<SubmissionState>
  {
    match (state, event, actor)
    case (Draft, Submit, Participant) => Some(Reviewing)
    case (Reviewing, Approve, Creator) => Some(ReviewApproved)
    case (Reviewing, Reject, Creator) => Some(ReviewRejected)
    case (Reviewing, ProtectTimeout, System) => Some(ReviewTimedOut)
    case _ => None
  }

  const REVIEW_HOURS_MILLIS: Time := 24 * 60 * 60 * 1000

  /** The position of an occurrence, or the length of the list when there is none with this identifier. */
  function IndexOf(occurrences: seq<Occurrence>, id: Id): (k: nat)
    ensures k <= |occurrences|
    ensures k < |occurrences| ==> occurrences[k].id == id
    ensures k == |occurrences| ==> forall j | 0 <= j < |occurrences| :: occurrences[j].id != id
  {
    if occurrences == [] then 0
    else if occurrences[0].id == id then 0
    else 1 + IndexOf(occurrences[1..], id)
  }

  function MoveSubmission(db: Db, s: SubmissionId, row: Submission): Db {
    db.(submissions := db.submissions[s := row])
  }

  /** `saveSubmissionDraft`; `accepted` says that a commitment exists and the evidence is well formed. */
  function SaveDraft(db: Db, now: Time, s: SubmissionId, accepted: bool): Step {
    var k := IndexOf(db.occurrences, s.occurrence);
    if s.membership !in db.memberships || k == |db.occurrences| then Throw(db)
    else if db.pod.state != PodActive || db.memberships[s.membership].state != MemberActive then Throw(db)
    else if now < db.occurrences[k].opensAt || db.occurrences[k].closesAt <= now then Throw(db)
    else if s in db.submissions && db.submissions[s].state != Draft then Throw(db)
    else if !accepted then Throw(db)
    else if s in db.submissions then Step(db, Done)
    else Step(MoveSubmission(db, s, Submission(Draft, None)), Done)
  }

  /** `submitOccurrenceEvidence`; `accepted` says that the evidence is complete. */
  function SubmitEvidence(db: Db, now: Time, s: SubmissionId, accepted: bool): Step {
    var k := IndexOf(db.occurrences, s.occurrence);
    if s !in db.submissions || k == |db.occurrences| || db.submissions[s].state != Draft then Throw(db)
    else if db.occurrences[k].closesAt <= now then Throw(db)
    else
      var next := NextSubmissionState(Draft, Submit, Participant);
      if !accepted || next != Some(Reviewing) then Throw(db)
      else Step(MoveSubmission(db, s, Submission(Reviewing, Some(now + REVIEW_HOURS_MILLIS))), Done)
  }

  /** What the creator decides; `None` is a malformed decision. */
  type Decision = Option<SubmissionEvent>

  predicate Overdue(row: Submission, now: Time) {
    row.state == Reviewing && row.hardDeadline.Some? && row.hardDeadline.value <= now
  }

  /** `decideSubmissionAsCreator`; `authorized` says that the caller is the Pod's verifying creator. */
  function Decide(db: Db, now: Time, s: SubmissionId, decision: Decision, authorized: bool): Step {
    if !authorized || s !in db.submissions || db.submissions[s].state != Reviewing then Return(db)
    else
      var row := db.submissions[s];
      if row.hardDeadline.None? || row.hardDeadline.value <= now then
        Step(MoveSubmission(db, s, row.(state := ReviewTimedOut)), Done)
      else if decision.None? then Throw(db)
      else
        var next := NextSubmissionState(Reviewing, decision.value, Creator);
        if next.None? then Throw(db) else Step(MoveSubmission(db, s, row.(state := next.value)), Done)
  }

  /** `protectTimedOutReviewBatch`; `batch` is what the limited query returns, so any set of rows. */
  function ProtectTimedOut(db: Db, now: Time, batch: set<SubmissionId>): Step {
    Step(db.(submissions := map s | s in db.submissions ::
           if s in batch && Overdue(db.submissions[s], now) then db.submissions[s].(state := ReviewTimedOut)
           else db.submissions[s]),
         Done)
  }
}
