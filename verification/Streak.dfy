/** The streak record: an incremental counter, and the declarative count of consecutive days it should agree with. */
module Streak {
  import opened Basics

  /** A `DateTime` as its ticks. */
  type DateTime = t: nat | t <= MAX_TICKS
  const MAX_TICKS: nat := 3155378975999999999
  const TICKS_PER_DAY: nat := 864000000000

  function DayOf(t: DateTime): nat {
    t / TICKS_PER_DAY
  }

  /** 32-bit arithmetic wraps around silently. */
  function Wrap(n: int): int {
    (n + 0x8000_0000) % 0x1_0000_0000 - 0x8000_0000
  }

  datatype Record = Record(current: int, longest: int, last: Option<DateTime>, total: int)

  const EMPTY := Record(0, 0, None, 0)

  function CheckIn(r: Record, t: DateTime): Record {
    var current :=
      if r.last.None? then 1
      else
        var difference := DayOf(t) - DayOf(r.last.value);
        if difference == 1 then Wrap(r.current + 1) else if difference > 1 then 1 else r.current;
    Record(current, if current > r.longest then current else r.longest, Some(t), Wrap(r.total + 1))
  }

  function Reconcile(r: Record, today: DateTime): Record {
    if r.last.Some? && DayOf(today) - DayOf(r.last.value) > 1 then r.(current := 0) else r
  }

  class StreakRecord {
    var currentStreakDays: int
    var longestStreakDays: int
    var lastCheckInDateUtc: Option<DateTime>
    var totalCompletedCheckIns: int

    function Value(): Record
      reads this
    {
      Record(currentStreakDays, longestStreakDays, lastCheckInDateUtc, totalCompletedCheckIns)
    }

    constructor ()
      ensures Value() == EMPTY
    {
      currentStreakDays, longestStreakDays, totalCompletedCheckIns := 0, 0, 0;
      lastCheckInDateUtc := None;
    }

    method RecordSuccessfulCheckIn(checkInDateUtc: DateTime)
      modifies this
      ensures Value() == CheckIn(old(Value()), checkInDateUtc)
    {
      totalCompletedCheckIns := Wrap(totalCompletedCheckIns + 1);
      if lastCheckInDateUtc.Some? {
        var difference := DayOf(checkInDateUtc) - DayOf(lastCheckInDateUtc.value);
        if difference == 1 {
          currentStreakDays := Wrap(currentStreakDays + 1);
        } else if difference > 1 {
          currentStreakDays := 1;
        }
      } else {
        currentStreakDays := 1;
      }
      if currentStreakDays > longestStreakDays {
        longestStreakDays := currentStreakDays;
      }
      lastCheckInDateUtc := Some(checkInDateUtc);
    }

    method ResetStreakIfBroken(todayUtc: DateTime)
      modifies this
      ensures Value() == Reconcile(old(Value()), todayUtc)
    {
      if lastCheckInDateUtc.Some? && DayOf(todayUtc) - DayOf(lastCheckInDateUtc.value) > 1 {
        currentStreakDays := 0;
      }
    }
  }

  // ---------------------------------------------------------------------------------------------
  // Runs of consecutive days.
  // ---------------------------------------------------------------------------------------------

  /** How many consecutive days of `days` end at `day`. */
  function RunEndingAt(days: set<nat>, day: int): nat
    decreases |days|
  {
    if day < 0 || day !in days then 0 else 1 + RunEndingAt(days - {day}, day - 1)
  }

  /** It is the largest number of days, counted back from `day`, that are all in the set. */
  lemma {:induction false} RunIsMaximal(days: set<nat>, day: int)
    ensures forall d: int | day - RunEndingAt(days, day) < d <= day :: 0 <= d && d in days
    ensures day - RunEndingAt(days, day) < 0 || day - RunEndingAt(days, day) !in days
    ensures day >= 0 ==> RunEndingAt(days, day) <= day + 1
    decreases |days|
  {
    if 0 <= day && day in days {
      var run := RunEndingAt(days - {day}, day - 1);
      RunIsMaximal(days - {day}, day - 1);
      forall d: int | day - 1 - run < d <= day ensures 0 <= d && d in days {
        assert d <= day - 1 ==> d in days - {day};
      }
    }
  }

  lemma NoRun(days: set<nat>, day: int)
    requires day < 0 || day !in days
    ensures RunEndingAt(days, day) == 0
  {
  }

  /** Later days do not matter. */
  lemma {:induction false} RunIgnoresLater(days: set<nat>, day: int, later: nat)
    requires day < later
    ensures RunEndingAt(days + {later}, day) == RunEndingAt(days, day) == RunEndingAt(days - {later}, day)
    decreases |days|
  {
    if 0 <= day && day in days {
      RunIgnoresLater(days - {day}, day - 1, later);
      assert days + {later} - {day} == days - {day} + {later};
      assert days - {later} - {day} == days - {day} - {later};
    }
  }

  /** A check-in extends the run of the day before. */
  lemma RunOfNext(days: set<nat>, day: nat)
    ensures RunEndingAt(days + {day}, day) == 1 + RunEndingAt(days, day - 1)
  {
    RunIgnoresLater(days, day - 1, day);
    assert days + {day} - {day} == days - {day};
  }

  // ---------------------------------------------------------------------------------------------
  // Histories.
  // ---------------------------------------------------------------------------------------------

  datatype Event = Check(at: DateTime) | Reconciliation(at: DateTime)

  function Replay(history: seq<Event>): Record {
    if history == [] then EMPTY
    else
      var before, e := Replay(history[..|history| - 1]), history[|history| - 1];
      if e.Check? then CheckIn(before, e.at) else Reconcile(before, e.at)
  }

  /** Check-ins and reconciliations happen in the order of their days. */
  predicate InDayOrder(history: seq<Event>) {
    forall j, k | 0 <= j < k < |history| :: DayOf(history[j].at) <= DayOf(history[k].at)
  }

  function CheckInDays(history: seq<Event>): set<nat> {
    if history == [] then {}
    else
      var days, e := CheckInDays(history[..|history| - 1]), history[|history| - 1];
      if e.Check? then days + {DayOf(e.at)} else days
  }

  function CheckIns(history: seq<Event>): seq<Event> {
    if history == [] then []
    else
      var checks, e := CheckIns(history[..|history| - 1]), history[|history| - 1];
      if e.Check? then checks + [e] else checks
  }

  /** The longest run that ends at any of the days. */
  predicate IsLongest(longest: int, days: set<nat>) {
    && (forall d | d in days :: RunEndingAt(days, d) <= longest)
    && (days == {} ==> longest == 0)
    && (days != {} ==> exists d :: d in days && RunEndingAt(days, d) == longest)
  }

  /** What the record says in the middle of a history: the streak is the current run, or it was reset because the
      latest event is already two days past the last check-in. */
  predicate Tracks(r: Record, days: set<nat>, latest: int) {
    && IsLongest(r.longest, days)
    && (r.last.None? <==> days == {})
    && (r.last.None? ==> r.current == 0)
    && (r.last.Some? ==>
          && DayOf(r.last.value) in days
          && DayOf(r.last.value) <= latest
          && (forall d | d in days :: d <= DayOf(r.last.value))
          && (r.current == RunEndingAt(days, DayOf(r.last.value))
              || (r.current == 0 && latest - DayOf(r.last.value) > 1)))
  }

  lemma LongestGrows(longest: int, days: set<nat>, day: nat)
    requires IsLongest(longest, days) && forall d | d in days :: d <= day
    ensures var run := RunEndingAt(days + {day}, day);
            IsLongest(if run > longest then run else longest, days + {day})
  {
    var more := days + {day};
    var run := RunEndingAt(more, day);
    forall d | d in days && d != day ensures RunEndingAt(more, d) == RunEndingAt(days, d) {
      RunIgnoresLater(days, d, day);
    }
    if day in days { assert more == days; }
    RunOfNext(days, day);
    if run > longest {
      assert RunEndingAt(more, day) == run;
    } else {
      var d :| d in days && RunEndingAt(days, d) == longest;
      assert RunEndingAt(more, d) == longest;
    }
  }

  lemma DaysAreFew(t: DateTime)
    ensures DayOf(t) <= 3652058
  {
  }

  lemma FitsInt32(n: int)
    requires 0 <= n <= 3652059
    ensures Wrap(n) == n
  {
  }

  /** The days a record may have seen: the last check-in is the latest of them, and the streak is its run, unless a
      reconciliation has set it to zero. */
  predicate Behind(r: Record, days: set<nat>) {
    if r.last.None? then r.current == 0 && days == {}
    else
      var last := DayOf(r.last.value);
      && last in days && (forall d | d in days :: d <= last)
      && r.current in {0, RunEndingAt(days, last)}
  }

  /** Going forward always counts right. */
  lemma ForwardCounts(r: Record, days: set<nat>, t: DateTime)
    requires Behind(r, days) && r.last.Some? && r.current == RunEndingAt(days, DayOf(r.last.value))
    requires DayOf(r.last.value) <= DayOf(t)
    ensures CheckIn(r, t).current == RunEndingAt(days + {DayOf(t)}, DayOf(t))
  {
    hide DayOf, RunEndingAt, Wrap;
    var day: int := DayOf(t);
    DaysAreFew(t);
    RunOfNext(days, day);
    if DayOf(r.last.value) + 1 < day {
      NoRun(days, day - 1);
    } else if DayOf(r.last.value) == day {
      assert days + {day} == days;
    } else {
      RunIsMaximal(days, day - 1);
      FitsInt32(r.current + 1);
    }
  }

  /** The new streak of a check-in that does not go back in time, also after a reset. */
  lemma CheckInCounts(r: Record, days: set<nat>, latest: int, t: DateTime)
    requires Tracks(r, days, latest) && latest <= DayOf(t)
    ensures CheckIn(r, t).current == RunEndingAt(days + {DayOf(t)}, DayOf(t))
  {
    hide DayOf, RunEndingAt, IsLongest, Wrap;
    if r.last.Some? && r.current == RunEndingAt(days, DayOf(r.last.value)) {
      ForwardCounts(r, days, t);
    } else {
      var day: int := DayOf(t);
      RunOfNext(days, day);
      NoRun(days, day - 1);
    }
  }

  /** After a check-in the streak is the run ending at its day. */
  lemma CheckInTracks(r: Record, days: set<nat>, latest: int, t: DateTime)
    requires Tracks(r, days, latest) && latest <= DayOf(t)
    ensures Tracks(CheckIn(r, t), days + {DayOf(t)}, DayOf(t))
  {
    hide DayOf, RunEndingAt, IsLongest, Wrap;
    CheckInCounts(r, days, latest, t);
    LongestGrows(r.longest, days, DayOf(t));
  }

  lemma {:induction false} HistoryTracks(history: seq<Event>)
    requires InDayOrder(history)
    ensures Tracks(Replay(history), CheckInDays(history),
                   if history == [] then 0 else DayOf(history[|history| - 1].at))
    ensures history != [] && history[|history| - 1].Check? ==>
              Replay(history).current == RunEndingAt(CheckInDays(history), DayOf(history[|history| - 1].at))
  {
    if history != [] {
      hide DayOf, RunEndingAt, IsLongest, CheckIn;
      var init, e := history[..|history| - 1], history[|history| - 1];
      HistoryTracks(init);
      if e.Check? {
        var latest := if init == [] then 0 else DayOf(init[|init| - 1].at);
        CheckInTracks(Replay(init), CheckInDays(init), latest, e.at);
        CheckInCounts(Replay(init), CheckInDays(init), latest, e.at);
      }
    }
  }

  /** With events in day order, right after each check-in the current streak is the number of consecutive days
      that end at its day, and the longest streak is the longest such run so far. No counter overflows. */
  lemma StreakIsRun(history: seq<Event>)
    requires InDayOrder(history) && history != [] && history[|history| - 1].Check?
    ensures Replay(history).current == RunEndingAt(CheckInDays(history), DayOf(history[|history| - 1].at))
    ensures IsLongest(Replay(history).longest, CheckInDays(history))
  {
    hide RunEndingAt, IsLongest, DayOf;
    HistoryTracks(history);
  }

  // ---------------------------------------------------------------------------------------------
  // Reconciliations.
  // ---------------------------------------------------------------------------------------------

  /** Equal but for a reset that the next check-in in day order cannot see. */
  predicate Agree(a: Record, b: Record, latest: int) {
    && a.longest == b.longest && a.last == b.last && a.total == b.total
    && (a.current == b.current || (a.last.Some? && latest - DayOf(a.last.value) > 1))
  }

  lemma {:induction false} ReplayAgrees(history: seq<Event>)
    requires InDayOrder(history)
    ensures Agree(Replay(history), Replay(CheckIns(history)),
                  if history == [] then 0 else DayOf(history[|history| - 1].at))
    ensures history != [] && history[|history| - 1].Check? ==> Replay(history) == Replay(CheckIns(history))
  {
    if history != [] {
      hide DayOf, Wrap;
      var init, e := history[..|history| - 1], history[|history| - 1];
      ReplayAgrees(init);
      if e.Check? {
        assert (CheckIns(init) + [e])[..|CheckIns(init)|] == CheckIns(init);
      }
    }
  }

  /** Reconciliations in day order change nothing that can be seen after a later check-in: two histories with the
      same check-ins leave the same record. */
  lemma ReconciliationsDoNotMatter(a: seq<Event>, b: seq<Event>)
    requires InDayOrder(a) && InDayOrder(b) && CheckIns(a) == CheckIns(b)
    requires a != [] && a[|a| - 1].Check? && b != [] && b[|b| - 1].Check?
    ensures Replay(a) == Replay(b)
  {
    ReplayAgrees(a);
    ReplayAgrees(b);
  }

  /** The total counts the check-ins, in whatever order, as long as 32 bits hold it. */
  lemma {:induction false} TotalCounts(history: seq<Event>)
    ensures Replay(history).total == Wrap(|CheckIns(history)|)
  {
    if history != [] {
      hide DayOf;
      TotalCounts(history[..|history| - 1]);
      WrapAgain(|CheckIns(history[..|history| - 1])|);
    }
  }

  lemma WrapAgain(n: int)
    ensures Wrap(Wrap(n) + 1) == Wrap(n + 1)
  {
  }

  /** After a reconciliation in day order the streak is the run that is still alive: the one ending that day, or else
      the day before, or none. */
  lemma ReconciledStreakIsAlive(history: seq<Event>, today: DateTime)
    requires InDayOrder(history + [Reconciliation(today)])
    ensures var days, day := CheckInDays(history), DayOf(today);
            Replay(history + [Reconciliation(today)]).current
              == if day in days then RunEndingAt(days, day) else RunEndingAt(days, day - 1)
  {
    hide DayOf, RunEndingAt, IsLongest;
    var all, days, day: int := history + [Reconciliation(today)], CheckInDays(history), DayOf(today);
    assert all[..|history|] == history;
    HistoryTracks(all);
    var r := Replay(all);
    assert CheckInDays(all) == days;
    if r.last.None? || DayOf(r.last.value) < day - 1 { NoRun(days, day - 1); }
  }

  // ---------------------------------------------------------------------------------------------
  // Out of order.
  // ---------------------------------------------------------------------------------------------

  /** Some days are behind the record. */
  predicate Explainable(r: Record) {
    if r.last.None? then r.current == 0 else 0 <= r.current <= DayOf(r.last.value) + 1
  }

  /** A check-in at `t` counts right whatever days are behind the record. */
  ghost predicate CountsRight(r: Record, t: DateTime) {
    forall days | Behind(r, days) :: CheckIn(r, t).current == RunEndingAt(days + {DayOf(t)}, DayOf(t))
  }

  /** The days from `first` to `last`. */
  function Block(first: nat, last: nat): (days: set<nat>)
    ensures forall d :: d in days <==> first <= d <= last
  {
    if last < first then {}
    else if last == 0 then {0}
    else Block(first, last - 1) + {last}
  }

  lemma {:induction false} BlockRuns(first: nat, last: nat, day: nat)
    requires first <= day <= last
    ensures RunEndingAt(Block(first, last), day) == day - first + 1
    decreases day
  {
    RunIgnoresLater(Block(first, last), day - 1, day);
    if day == first {
      NoRun(Block(first, last), day - 1);
    } else {
      BlockRuns(first, last, day - 1);
    }
  }

  /** Going back, some history is miscounted, unless the streak is one and the check-in is on day zero. */
  lemma BackwardMiscounts(r: Record, t: DateTime) returns (days: set<nat>)
    requires r.last.Some? && 1 <= r.current <= DayOf(r.last.value) + 1 && DayOf(t) < DayOf(r.last.value)
    requires r.current > 1 || DayOf(t) > 0
    ensures Behind(r, days)
    ensures CheckIn(r, t).current != RunEndingAt(days + {DayOf(t)}, DayOf(t))
  {
    hide DayOf;
    var last: int, day: int, c := DayOf(r.last.value), DayOf(t), r.current;
    if c > 1 {
      var first := last - c + 1;
      days := Block(first, last);
      BlockRuns(first, last, last);
      if first <= day {
        BlockRuns(first, last, day);
        assert days + {day} == days;
      } else {
        RunOfNext(days, day);
        NoRun(days, day - 1);
      }
    } else {
      days := {last, day - 1};
      LoneDay(days, last);
      RunOfNext(days, day);
      assert RunEndingAt(days, day - 1) >= 1;
    }
  }

  lemma LoneDay(days: set<nat>, day: nat)
    requires day in days && (day == 0 || day - 1 !in days)
    ensures RunEndingAt(days, day) == 1
  {
    NoRun(days - {day}, day - 1);
  }

  /** The records that some days are behind of are those with a streak of at most the days there are. */
  lemma ExplainableIff(r: Record)
    ensures Explainable(r) <==> exists days :: Behind(r, days)
  {
    hide DayOf, RunEndingAt;
    if r.last.None? {
      assert r.current == 0 ==> Behind(r, {});
    } else {
      var last: nat := DayOf(r.last.value);
      if Explainable(r) {
        var days := Block(if r.current == 0 then last else last - r.current + 1, last);
        BlockRuns(if r.current == 0 then last else last - r.current + 1, last, last);
        assert Behind(r, days);
      }
      if days :| Behind(r, days) { RunIsMaximal(days, last); }
    }
  }

  /** After a reset only a check-in that skips a day counts right; otherwise one that does not go back, or goes back to
      the very first day there is from a streak of one. */
  predicate Certain(r: Record, t: DateTime) {
    r.last.None? ||
    var last, day := DayOf(r.last.value), DayOf(t);
    if r.current == 0 then last + 1 < day else last <= day || (r.current == 1 && day == 0)
  }

  /** Whatever days are behind a record, a check-in counts right exactly under this condition. */
  lemma CountsRightIff(r: Record, t: DateTime)
    requires Explainable(r)
    ensures CountsRight(r, t) <==> Certain(r, t)
  {
    hide DayOf, RunEndingAt, CheckIn;
    if Certain(r, t) {
      forall days | Behind(r, days) ensures CheckIn(r, t).current == RunEndingAt(days + {DayOf(t)}, DayOf(t)) {
        CertainCounts(r, days, t);
      }
    } else if r.current == 0 {
      ResetMiscounts(r, t);
    } else {
      var days := BackwardMiscounts(r, t);
    }
  }

  lemma CertainCounts(r: Record, days: set<nat>, t: DateTime)
    requires Certain(r, t) && Behind(r, days)
    ensures CheckIn(r, t).current == RunEndingAt(days + {DayOf(t)}, DayOf(t))
  {
    hide DayOf, RunEndingAt;
    var day: int := DayOf(t);
    RunOfNext(days, day);
    if r.last.None? || r.current == 0 {
      NoRun(days, day - 1);
    } else if DayOf(r.last.value) <= day {
      ForwardCounts(r, days, t);
    } else {
      FirstDayCounts(r, days, t);
    }
  }

  /** After a reset, a check-in that skips no day misses the run before it. */
  lemma ResetMiscounts(r: Record, t: DateTime)
    requires r.last.Some? && r.current == 0 && DayOf(t) <= DayOf(r.last.value) + 1
    ensures !CountsRight(r, t)
  {
    hide DayOf;
    var last: int, day: int := DayOf(r.last.value), DayOf(t);
    var days := {last};
    assert Behind(r, days);
    RunOfNext(days, day);
    LoneDay(days, last);
  }

  /** The record a history in day order leaves has the days of that history behind it; so the next check-in, in order
      or not, counts right for every such history exactly under the condition. */
  lemma NextCountsIff(history: seq<Event>, t: DateTime)
    requires InDayOrder(history)
    ensures Behind(Replay(history), CheckInDays(history))
    ensures CountsRight(Replay(history), t) <==> Certain(Replay(history), t)
  {
    hide DayOf, RunEndingAt, IsLongest, Certain, CountsRight, Explainable;
    HistoryTracks(history);
    assert Behind(Replay(history), CheckInDays(history));
    ExplainableIff(Replay(history));
    CountsRightIff(Replay(history), t);
  }

  lemma FirstDayCounts(r: Record, days: set<nat>, t: DateTime)
    requires r.last.Some? && r.current == 1 && DayOf(t) == 0 < DayOf(r.last.value)
    ensures CheckIn(r, t).current == RunEndingAt(days + {DayOf(t)}, DayOf(t))
  {
    RunOfNext(days, 0);
  }

  /** The days any history, in whatever order, may have left behind a record: its last check-in is one of them. */
  predicate Seen(r: Record, days: set<nat>) {
    if r.last.None? then days == {} else DayOf(r.last.value) in days
  }

  ghost predicate CountsRightInAnyOrder(r: Record, t: DateTime) {
    forall days | Seen(r, days) :: CheckIn(r, t).current == RunEndingAt(days + {DayOf(t)}, DayOf(t))
  }

  predicate Int32(n: int) {
    -0x8000_0000 <= n < 0x8000_0000
  }

  lemma {:induction false} AnyHistoryIsSeen(history: seq<Event>)
    ensures Seen(Replay(history), CheckInDays(history)) && Int32(Replay(history).current)
  {
    if history != [] {
      hide DayOf;
      AnyHistoryIsSeen(history[..|history| - 1]);
    }
  }

  /** When the order of a history is unknown, only the very first days leave no doubt. */
  predicate CertainInAnyOrder(r: Record, t: DateTime) {
    r.last.None? ||
    (r.current == 1 && (DayOf(t) == 0 || (DayOf(r.last.value) == 0 && DayOf(t) == 1)))
  }

  /** Whatever a history has seen in whatever order, the next check-in counts right exactly when it is the first, or
      when no run behind it can have another length than the streak of one. */
  lemma CountsRightInAnyOrderIff(r: Record, t: DateTime)
    requires Int32(r.current)
    ensures CountsRightInAnyOrder(r, t) <==> CertainInAnyOrder(r, t)
  {
    hide DayOf, RunEndingAt;
    if CertainInAnyOrder(r, t) {
      forall days | Seen(r, days) ensures CheckIn(r, t).current == RunEndingAt(days + {DayOf(t)}, DayOf(t)) {
        FirstDaysCount(r, days, t);
      }
    } else if DayOf(t) == 0 || (DayOf(t) == 1 && DayOf(r.last.value) == 0) {
      var days := {DayOf(r.last.value)};
      FirstDaysCount(r, days, t);
      assert Seen(r, days);
    } else {
      var few, more := TwoRuns(DayOf(r.last.value), DayOf(t));
      assert Seen(r, few) && Seen(r, more);
    }
  }

  /** On the first days the run is known, whatever else was seen. */
  lemma FirstDaysCount(r: Record, days: set<nat>, t: DateTime)
    requires Seen(r, days) && Int32(r.current)
    requires r.last.None? || DayOf(t) == 0 || (DayOf(t) == 1 && DayOf(r.last.value) == 0)
    ensures CheckIn(r, t).current == RunEndingAt(days + {DayOf(t)}, DayOf(t)) <==> r.last.None? || r.current == 1
  {
    hide DayOf, RunEndingAt;
    var day: int := DayOf(t);
    RunOfNext(days, day);
    if r.last.None? || day == 0 { NoRun(days, day - 1); } else { LoneDay(days, 0); }
  }

  /** Days with a last check-in that leave the run ending at another day open. */
  lemma TwoRuns(last: nat, day: nat) returns (few: set<nat>, more: set<nat>)
    requires day > 0 && !(day == 1 && last == 0)
    ensures last in few && last in more
    ensures RunEndingAt(few + {day}, day) != RunEndingAt(more + {day}, day)
  {
    few := {last};
    more := if day == last + 1 then {last, last - 1} else {last, day - 1};
    RunOfNext(few, day);
    RunOfNext(more, day);
    if day == last + 1 {
      LoneDay(few, last);
      RunOfNext({last - 1}, last);
      LoneDay({last - 1}, last - 1);
      assert {last - 1} + {last} == more;
    } else {
      NoRun(few, day - 1);
      RunIsMaximal(more, day - 1);
    }
  }

  const FOURTH: DateTime := 4 * TICKS_PER_DAY
  const FIFTH: DateTime := 5 * TICKS_PER_DAY
  const ZIGZAG: seq<Event> := [Check(FIFTH), Check(FOURTH), Check(FIFTH), Check(FOURTH), Check(FIFTH)]

  /** Check-ins that go back a day let the counter run ahead of the days: two days, a streak of three. */
  lemma OutOfOrderCounts()
    ensures Replay(ZIGZAG).current == 3
    ensures CheckInDays(ZIGZAG) == {4, 5} && RunEndingAt({4, 5}, 5) == 2
    ensures !InDayOrder(ZIGZAG)
  {
    assert DayOf(FOURTH) == 4 && DayOf(FIFTH) == 5;
    hide DayOf;
    assert ZIGZAG[..4][..3] == ZIGZAG[..3] && ZIGZAG[..3][..2] == ZIGZAG[..2] && ZIGZAG[..2][..1] == ZIGZAG[..1];
    assert ZIGZAG[..1][..0] == [];
    assert Replay(ZIGZAG[..1]) == Record(1, 1, Some(FIFTH), 1);
    assert Replay(ZIGZAG[..2]) == Record(1, 1, Some(FOURTH), 2);
    assert Replay(ZIGZAG[..3]) == Record(2, 2, Some(FIFTH), 3);
    assert Replay(ZIGZAG[..4]) == Record(2, 2, Some(FOURTH), 4);
    assert CheckInDays(ZIGZAG[..1]) == {5};
    assert CheckInDays(ZIGZAG[..2]) == CheckInDays(ZIGZAG[..3]) == CheckInDays(ZIGZAG[..4]) == {4, 5};
    assert {4, 5} - {5} == {4} && {4} - {4} == {};
    assert RunEndingAt({4}, 4) == 1;
    assert ZIGZAG[0] == Check(FIFTH) && ZIGZAG[1] == Check(FOURTH);
  }

  const SIXTH: DateTime := 6 * TICKS_PER_DAY
  const SEVENTH: DateTime := 7 * TICKS_PER_DAY
  const RESET: seq<Event> := [Check(FIFTH), Reconciliation(SEVENTH)]

  /** A check-in recorded with its own time after a reconciliation loses the run before it: on the sixth day the streak
      is one instead of two, on the fifth it stays zero. */
  lemma ResetForgets()
    ensures Replay(RESET) == Record(0, 1, Some(FIFTH), 1) && CheckInDays(RESET) == {5}
    ensures Replay(RESET + [Check(SIXTH)]).current == 1
    ensures CheckInDays(RESET + [Check(SIXTH)]) == {5, 6} && RunEndingAt({5, 6}, 6) == 2
    ensures Replay(RESET + [Check(FIFTH)]).current == 0
    ensures CheckInDays(RESET + [Check(FIFTH)]) == {5} && RunEndingAt({5}, 5) == 1
  {
    assert DayOf(FIFTH) == 5 && DayOf(SIXTH) == 6 && DayOf(SEVENTH) == 7;
    hide DayOf;
    assert RESET[..1] == [Check(FIFTH)] && RESET[..1][..0] == [];
    assert Replay(RESET[..1]) == Record(1, 1, Some(FIFTH), 1);
    assert CheckInDays(RESET[..1]) == {5};
    assert (RESET + [Check(SIXTH)])[..2] == RESET == (RESET + [Check(FIFTH)])[..2];
    assert {5, 6} - {6} == {5} && {5} - {5} == {};
    assert RunEndingAt({5}, 5) == 1;
  }
}
