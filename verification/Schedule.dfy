/** Publishing: the schedule of a contract and the bounds of its money. A date is its day number since the epoch;
    the time zone is known only by when its days begin. */
module Schedule {
  import opened Basics
  import opened Rows
  import opened Invariants
  import T = Transactions

  type Day = int

  /** Monday is 1 and Sunday 7; day 0 was a Thursday. */
  function DayOfWeek(day: Day): int {
    (day + 3) % 7 + 1
  }

  /** A time zone: the instant at which each day begins. */
  type Zone = Day -> Time

  ghost predicate ZoneOk(zone: Zone) {
    forall d: Day, e: Day :: d < e ==> zone(d) < zone(e)
  }

  /** The commitment cutoff of a day, or none when the field is not a time of day. */
  type Cutoff = Option<Day -> Time>

  /** A time of day falls inside its day. */
  ghost predicate CutoffOk(zone: Zone, cutoff: Option<Cutoff>) {
    cutoff.Some? && cutoff.value.Some? ==>
      forall d: Day :: zone(d) <= cutoff.value.value(d) <= zone(d + 1)
  }

  datatype FrozenOccurrence =
    FrozenOccurrence(ordinal: nat, date: Day, opensAt: Time, closesAt: Time, deadline: Option<Time>)

  datatype ScheduleError = EndBeforeStart | MalformedCutoff

  function DeadlineOf(cutoff: Option<Cutoff>, day: Day): Option<Time> {
    if cutoff.Some? && cutoff.value.Some? then Some(cutoff.value.value(day)) else None
  }

  /** The occurrence a date turns into. */
  function Freeze(zone: Zone, cutoff: Option<Cutoff>, ordinal: nat, day: Day): FrozenOccurrence {
    FrozenOccurrence(ordinal, day, zone(day), zone(day + 1), DeadlineOf(cutoff, day))
  }

  predicate Chosen(start: Day, end: Day, weekdays: set<int>, day: Day) {
    start <= day <= end && DayOfWeek(day) in weekdays
  }

  predicate Listed(list: seq<FrozenOccurrence>, day: Day) {
    exists k :: 0 <= k < |list| && list[k].date == day
  }

  /** The list names exactly the chosen dates from `start` to `end`, in order, numbered from one. */
  ghost predicate IsSchedule(list: seq<FrozenOccurrence>, start: Day, end: Day, zone: Zone, weekdays: set<int>,
                             cutoff: Option<Cutoff>) {
    && (forall day: Day :: Listed(list, day) <==> Chosen(start, end, weekdays, day))
    && (forall j, k | 0 <= j < k < |list| :: list[j].date < list[k].date)
    && (forall k | 0 <= k < |list| :: list[k] == Freeze(zone, cutoff, k + 1, list[k].date))
  }

  lemma OneMoreDate(list: seq<FrozenOccurrence>, start: Day, date: Day, zone: Zone, weekdays: set<int>,
                    cutoff: Option<Cutoff>)
    requires IsSchedule(list, start, date - 1, zone, weekdays, cutoff) && start <= date
    ensures DayOfWeek(date) in weekdays ==>
              IsSchedule(list + [Freeze(zone, cutoff, |list| + 1, date)], start, date, zone, weekdays, cutoff)
    ensures DayOfWeek(date) !in weekdays ==> IsSchedule(list, start, date, zone, weekdays, cutoff)
  {
    hide DayOfWeek;
    forall k | 0 <= k < |list| ensures list[k].date < date { assert Listed(list, list[k].date); }
    if DayOfWeek(date) in weekdays {
      var more := list + [Freeze(zone, cutoff, |list| + 1, date)];
      forall day: Day ensures Listed(more, day) <==> Chosen(start, date, weekdays, day) {
        if Listed(list, day) {
          var k :| 0 <= k < |list| && list[k].date == day;
          assert more[k].date == day;
        }
        assert more[|list|].date == date;
        assert Listed(list, day) <==> Chosen(start, date - 1, weekdays, day);
      }
    } else {
      forall day: Day ensures Listed(list, day) <==> Chosen(start, date, weekdays, day) {
        assert Listed(list, day) <==> Chosen(start, date - 1, weekdays, day);
      }
    }
  }

  /** `materializeOccurrences`. */
  method MaterializeOccurrences(start: Day, end: Day, zone: Zone, weekdays: set<int>, cutoff: Option<Cutoff>)
    returns (r: Result<seq<FrozenOccurrence>, ScheduleError>)
    ensures r.Err? <==> start > end || (cutoff.Some? && cutoff.value.None?)
    ensures r.Ok? ==> IsSchedule(r.value, start, end, zone, weekdays, cutoff)
  {
    hide IsSchedule, DayOfWeek;
    if start > end {
      return Err(EndBeforeStart);
    }
    if cutoff.Some? && cutoff.value.None? {
      return Err(MalformedCutoff);
    }
    var date := start;
    var occurrences: seq<FrozenOccurrence> := [];
    NoDates(start, zone, weekdays, cutoff);
    while date <= end
      invariant start <= date <= end + 1
      invariant IsSchedule(occurrences, start, date - 1, zone, weekdays, cutoff)
    {
      OneMoreDate(occurrences, start, date, zone, weekdays, cutoff);
      if DayOfWeek(date) in weekdays {
        var opens, closes := zone(date), zone(date + 1);
        var deadline := if cutoff.Some? then Some(cutoff.value.value(date)) else None;
        occurrences := occurrences + [FrozenOccurrence(|occurrences| + 1, date, opens, closes, deadline)];
      }
      date := date + 1;
    }
    return Ok(occurrences);
  }

  lemma NoDates(start: Day, zone: Zone, weekdays: set<int>, cutoff: Option<Cutoff>)
    ensures IsSchedule([], start, start - 1, zone, weekdays, cutoff)
  {
  }

  /** There is only one such list. */
  lemma {:induction false} ScheduleIsUnique(a: seq<FrozenOccurrence>, b: seq<FrozenOccurrence>, start: Day, end: Day,
                                            zone: Zone, weekdays: set<int>, cutoff: Option<Cutoff>)
    requires IsSchedule(a, start, end, zone, weekdays, cutoff)
    requires IsSchedule(b, start, end, zone, weekdays, cutoff)
    ensures a == b
    decreases |a| + |b|
  {
    hide DayOfWeek;
    assert a != [] ==> Listed(a, a[0].date);
    assert b != [] ==> Listed(b, b[0].date);
    if a != [] {
      LastDates(a, b, start, end, zone, weekdays, cutoff);
      var last := a[|a| - 1].date;
      WithoutLast(a, start, end, zone, weekdays, cutoff);
      WithoutLast(b, start, end, zone, weekdays, cutoff);
      ScheduleIsUnique(a[..|a| - 1], b[..|b| - 1], start, last - 1, zone, weekdays, cutoff);
      assert a == a[..|a| - 1] + [a[|a| - 1]] && b == b[..|b| - 1] + [b[|b| - 1]];
    }
  }

  lemma LastDates(a: seq<FrozenOccurrence>, b: seq<FrozenOccurrence>, start: Day, end: Day,
                  zone: Zone, weekdays: set<int>, cutoff: Option<Cutoff>)
    requires a != [] && b != []
    requires IsSchedule(a, start, end, zone, weekdays, cutoff)
    requires IsSchedule(b, start, end, zone, weekdays, cutoff)
    ensures a[|a| - 1].date == b[|b| - 1].date
  {
    hide DayOfWeek;
    LastIsLatest(a, start, end, zone, weekdays, cutoff, b[|b| - 1].date);
    LastIsLatest(b, start, end, zone, weekdays, cutoff, a[|a| - 1].date);
  }

  lemma LastIsLatest(a: seq<FrozenOccurrence>, start: Day, end: Day, zone: Zone, weekdays: set<int>,
                     cutoff: Option<Cutoff>, day: Day)
    requires a != [] && IsSchedule(a, start, end, zone, weekdays, cutoff)
    ensures Chosen(start, end, weekdays, day) ==> day <= a[|a| - 1].date
    ensures Chosen(start, end, weekdays, a[|a| - 1].date)
  {
    hide DayOfWeek;
    assert Listed(a, a[|a| - 1].date);
    if Chosen(start, end, weekdays, day) {
      assert Listed(a, day);
      var k :| 0 <= k < |a| && a[k].date == day;
    }
  }

  lemma WithoutLast(a: seq<FrozenOccurrence>, start: Day, end: Day, zone: Zone, weekdays: set<int>,
                    cutoff: Option<Cutoff>)
    requires a != [] && IsSchedule(a, start, end, zone, weekdays, cutoff)
    ensures IsSchedule(a[..|a| - 1], start, a[|a| - 1].date - 1, zone, weekdays, cutoff)
  {
    hide DayOfWeek;
    var last := a[|a| - 1].date;
    var init := a[..|a| - 1];
    assert Listed(a, last);
    forall day: Day ensures Listed(init, day) <==> Chosen(start, last - 1, weekdays, day) {
      assert Listed(a, day) <==> Chosen(start, end, weekdays, day);
      SplitLast(a, day);
      assert Listed(init, day) ==> day < last;
      LastIsLatest(a, start, end, zone, weekdays, cutoff, day);
    }
  }

  lemma SplitLast(a: seq<FrozenOccurrence>, day: Day)
    requires a != []
    ensures Listed(a, day) <==> day == a[|a| - 1].date || Listed(a[..|a| - 1], day)
  {
    var init := a[..|a| - 1];
    if Listed(a, day) {
      var k :| 0 <= k < |a| && a[k].date == day;
      if k < |a| - 1 { assert init[k].date == day; }
    }
    if Listed(init, day) {
      var k :| 0 <= k < |init| && init[k].date == day;
      assert a[k].date == day;
    }
  }

  // ---------------------------------------------------------------------------------------------
  // Publishing.
  // ---------------------------------------------------------------------------------------------

  datatype Draft = Draft(
    start: Day, end: Day, zone: Zone, weekdays: seq<int>, cutoff: Option<Cutoff>,
    slice: Option<nat>,  // the parsed NIM amount in luna
    minParticipants: int, maxParticipants: int, visitorRoom: bool)

  datatype DraftError =
    | EndBeforeStartDate | NoWeekday | WrongWeekdays | NoOccurrence | ScheduleFailed
    | MinimumTooSmall | MaximumNotPositive | MaximumBelowMinimum
    | MalformedAmount | AmountNotPositive | AmountNotSafe
    | TotalNotSafe | PoolNotSafe

  /** A positive safe integer. */
  predicate PositiveNumber(n: int) {
    0 < n <= MAX_SAFE_INTEGER
  }

  predicate DistinctWeekdays(weekdays: seq<int>) {
    && (forall k | 0 <= k < |weekdays| :: 1 <= weekdays[k] <= 7)
    && (forall j, k | 0 <= j < k < |weekdays| :: weekdays[j] != weekdays[k])
  }

  function Weekdays(draft: Draft): set<int> {
    set w | w in draft.weekdays
  }

  /** The draft is complete but for the size of the pool. */
  predicate DraftOk(draft: Draft) {
    && draft.start <= draft.end
    && draft.weekdays != [] && DistinctWeekdays(draft.weekdays)
    && (draft.cutoff.Some? ==> draft.cutoff.value.Some?)
    && PositiveNumber(draft.minParticipants) && 2 <= draft.minParticipants
    && PositiveNumber(draft.maxParticipants) && draft.minParticipants <= draft.maxParticipants
    && draft.slice.Some? && PositiveNumber(draft.slice.value)
  }

  /** The errors of schedule and community, collected in order. */
  method CollectErrors(draft: Draft) returns (errors: seq<DraftError>, occurrences: seq<FrozenOccurrence>)
    ensures errors == [] <==> DraftOk(draft) && occurrences != []
    ensures DraftOk(draft) ==>
              IsSchedule(occurrences, draft.start, draft.end, draft.zone, Weekdays(draft), draft.cutoff)
  {
    hide IsSchedule;
    errors, occurrences := [], [];
    if draft.weekdays == [] {
      errors := errors + [NoWeekday];
    } else if !DistinctWeekdays(draft.weekdays) {
      errors := errors + [WrongWeekdays];
    }
    if draft.start > draft.end {
      errors := errors + [EndBeforeStartDate];
    }
    if errors == [] {
      var materialized := MaterializeOccurrences(draft.start, draft.end, draft.zone, Weekdays(draft), draft.cutoff);
      if materialized.Err? {
        errors := errors + [ScheduleFailed];
      } else {
        occurrences := materialized.value;
        if occurrences == [] {
          errors := errors + [NoOccurrence];
        }
      }
    }
    if !PositiveNumber(draft.minParticipants) || draft.minParticipants < 2 {
      errors := errors + [MinimumTooSmall];
    }
    if !PositiveNumber(draft.maxParticipants) {
      errors := errors + [MaximumNotPositive];
    } else if draft.maxParticipants < draft.minParticipants {
      errors := errors + [MaximumBelowMinimum];
    }
    if draft.slice.None? {
      errors := errors + [MalformedAmount];
    } else if draft.slice.value == 0 {
      errors := errors + [AmountNotPositive];
    } else if draft.slice.value > MAX_SAFE_INTEGER {
      errors := errors + [AmountNotSafe];
    }
  }

  /** The bounds of `buildPublishedContract`: it publishes exactly the complete drafts that have an occurrence and
      whose largest possible pool is a safe integer, with the schedule of the draft. */
  method BuildPublishedContract(draft: Draft, mode: SettlementMode)
    returns (r: Result<(Contract, seq<FrozenOccurrence>), seq<DraftError>>)
    ensures r.Ok? ==>
      var (contract, occurrences) := r.value;
      && DraftOk(draft) && PublishedContract(contract)
      && IsSchedule(occurrences, draft.start, draft.end, draft.zone, Weekdays(draft), draft.cutoff)
      && contract == Contract(mode, draft.slice.value, |occurrences|, draft.slice.value * |occurrences|,
                              draft.minParticipants, draft.maxParticipants, draft.visitorRoom)
    ensures r.Err? ==> r.error != []
    ensures r.Err? ==> !DraftOk(draft) || exists occurrences: seq<FrozenOccurrence> ::
              && IsSchedule(occurrences, draft.start, draft.end, draft.zone, Weekdays(draft), draft.cutoff)
              && (occurrences == []
                  || draft.maxParticipants * (draft.slice.value * |occurrences|) > MAX_SAFE_INTEGER)
  {
    hide IsSchedule, DistinctWeekdays;
    var errors, occurrences := CollectErrors(draft);
    if errors != [] {
      return Err(errors);
    }
    var slice, count := draft.slice.value, |occurrences|;
    var totalLuna := slice * count;
    TotalIsBelowPool(draft.maxParticipants, slice, count);
    if !IsSafeInteger(totalLuna) {
      return Err([TotalNotSafe]);
    }
    var maximumPool := totalLuna * draft.maxParticipants;
    if maximumPool > MAX_SAFE_INTEGER {
      return Err([PoolNotSafe]);
    }
    return Ok((Contract(mode, slice, count, totalLuna, draft.minParticipants, draft.maxParticipants,
                        draft.visitorRoom), occurrences));
  }

  lemma TotalIsBelowPool(maximum: int, slice: int, count: int)
    requires maximum > 0 && slice > 0 && count > 0
    ensures 0 < slice * count <= maximum * (slice * count)
    ensures slice * count * maximum == maximum * (slice * count)
  {
    assert slice * count >= slice;
  }

  /** The rows published for a schedule. */
  function OccurrenceRows(list: seq<FrozenOccurrence>, ids: seq<Id>): seq<Occurrence>
    requires |ids| == |list|
  {
    seq(|list|, k requires 0 <= k < |list| =>
      Occurrence(ids[k], list[k].ordinal, list[k].opensAt, list[k].closesAt, list[k].deadline, Scheduled))
  }

  /** A generated schedule is a calendar: numbered, with windows in order that never overlap and deadlines inside
      them. */
  lemma ScheduleIsCalendar(list: seq<FrozenOccurrence>, ids: seq<Id>, start: Day, end: Day, zone: Zone,
                           weekdays: set<int>, cutoff: Option<Cutoff>, contract: Contract)
    requires IsSchedule(list, start, end, zone, weekdays, cutoff) && ZoneOk(zone) && CutoffOk(zone, cutoff)
    requires |ids| == |list| == contract.occurrenceCount
    requires EMPTY_ID !in ids && forall j, k | 0 <= j < k < |ids| :: ids[j] != ids[k]
    ensures CalendarOk(contract, OccurrenceRows(list, ids))
  {
    hide DayOfWeek;
    var rows := OccurrenceRows(list, ids);
    forall k | 0 <= k < |rows| ensures rows[k].ordinal == k + 1 && WindowOk(rows[k]) {
      assert list[k] == Freeze(zone, cutoff, k + 1, list[k].date);
      assert ids[k] in ids;
    }
    forall j, k | 0 <= j < k < |rows| ensures rows[j].id != rows[k].id && rows[j].closesAt <= rows[k].opensAt {
      assert list[j] == Freeze(zone, cutoff, j + 1, list[j].date);
      assert list[k] == Freeze(zone, cutoff, k + 1, list[k].date);
    }
  }

  /** The weekday of a date: Thursday on day 0, and one more from day to day, Monday after Sunday. */
  lemma WeekdaysFollow(day: Day)
    ensures DayOfWeek(0) == 4 && 1 <= DayOfWeek(day) <= 7
    ensures DayOfWeek(day + 1) == if DayOfWeek(day) == 7 then 1 else DayOfWeek(day) + 1
  {
  }

  /** A published occurrence: numbered from one, on a chosen weekday in range, open from the beginning of its day to
      that of the next, with the cutoff of its day as deadline if there is one. */
  lemma OccurrenceByDate(list: seq<FrozenOccurrence>, ids: seq<Id>, start: Day, end: Day, zone: Zone,
                         weekdays: set<int>, cutoff: Option<Cutoff>, k: nat)
    requires IsSchedule(list, start, end, zone, weekdays, cutoff) && k < |list| == |ids|
    requires cutoff.Some? ==> cutoff.value.Some?
    ensures var date := list[k].date;
            && start <= date <= end && DayOfWeek(date) in weekdays
            && OccurrenceRows(list, ids)[k]
                 == Occurrence(ids[k], k + 1, zone(date), zone(date + 1),
                               if cutoff.Some? then Some(cutoff.value.value(date)) else None, Scheduled)
  {
    hide DayOfWeek;
    assert Listed(list, list[k].date);
  }

  /** A Pod published from a draft starts with every invariant, so they hold over each of its runs. */
  lemma PublishedPodIsInOrder(draft: Draft, contract: Contract, list: seq<FrozenOccurrence>, ids: seq<Id>,
                              contractHash: Id, creator: Id, clock: Time)
    requires PublishedContract(contract) && contract.occurrenceCount == |list| == |ids|
    requires IsSchedule(list, draft.start, draft.end, draft.zone, Weekdays(draft), draft.cutoff)
    requires ZoneOk(draft.zone) && CutoffOk(draft.zone, draft.cutoff)
    requires EMPTY_ID !in ids && forall j, k | 0 <= j < k < |ids| :: ids[j] != ids[k]
    ensures Inv(T.Published(Pod(EnrollmentOpen, contract, contractHash, creator), OccurrenceRows(list, ids), clock))
  {
    hide Inv, IsSchedule, ZoneOk, CutoffOk, CalendarOk, PublishedContract;
    ScheduleIsCalendar(list, ids, draft.start, draft.end, draft.zone, Weekdays(draft), draft.cutoff, contract);
    T.PublishedIsInOrder(Pod(EnrollmentOpen, contract, contractHash, creator), OccurrenceRows(list, ids), clock);
  }
}
