/** `calculateSettlement` as it runs: nested loops over occurrences and members that add up amounts
    under safe-integer guards. */
module SettlementCalculator {
  import opened Basics
  import opened SettlementRules

  datatype Error =
    | SliceNotPositive
    | NoMembers
    | NoOccurrences
    | AllocationTooLarge
    | MembersNotUnique
    | DepositNotPositive
    | DepositMismatch
    | OccurrencesNotUnique
    | OutcomesIncomplete
    | AmountTooLarge
    | DoesNotConserve

  function CheckedAdd(left: int, right: int): (r: Option<int>)
    ensures r.Some? <==> IsSafeInteger(left + right)
    ensures r.Some? ==> r.value == left + right
  {
    if IsSafeInteger(left + right) then Some(left + right) else None
  }

  function CheckedMultiply(left: int, right: int): (r: Option<int>)
    ensures r.Some? <==> IsSafeInteger(left * right)
    ensures r.Some? ==> r.value == left * right
  {
    if IsSafeInteger(left * right) then Some(left * right) else None
  }

  /** Five guarded additions, the first overflow winning. */
  function CheckedPlus(total: Amounts, amounts: Amounts): (r: Option<Amounts>)
    ensures r.Some? ==> r.value == total.Plus(amounts)
    ensures total.Plus(amounts).Within(MAX_SAFE_INTEGER) ==> r.Some?
  {
    var principal := CheckedAdd(total.principal, amounts.principal);
    var forfeiture := CheckedAdd(total.forfeiture, amounts.forfeiture);
    var restoration := CheckedAdd(total.restoration, amounts.restoration);
    var bonus := CheckedAdd(total.bonus, amounts.bonus);
    var payout := CheckedAdd(total.payout, amounts.payout);
    if principal.Some? && forfeiture.Some? && restoration.Some? && bonus.Some? && payout.Some? then
      Some(Amounts(principal.value, forfeiture.value, restoration.value, bonus.value, payout.value))
    else None
  }

  /** The members of `s` below `bound`, in ascending order. */
  function Ascending(s: set<Id>, bound: nat): seq<Id> {
    if bound == 0 then []
    else Ascending(s, bound - 1) + (if bound - 1 in s then [bound - 1] else [])
  }

  lemma RankStep(s: set<Id>, bound: nat)
    ensures Rank(s, bound + 1) == Rank(s, bound) + if bound in s then 1 else 0
  {
    var below := set a | a in s && a < bound;
    assert (set a | a in s && a < bound + 1) == if bound in s then below + {bound} else below;
  }

  lemma {:induction false} AscendingLength(s: set<Id>, bound: nat)
    ensures |Ascending(s, bound)| == Rank(s, bound)
  {
    if bound == 0 {
      assert (set a | a in s && a < 0) == {};
    } else {
      AscendingLength(s, bound - 1);
      RankStep(s, bound - 1);
    }
  }

  /** Sorting puts every member at the index given by its rank. */
  lemma {:induction false} AscendingByRank(s: set<Id>, bound: nat, i: nat)
    requires i < |Ascending(s, bound)|
    ensures Ascending(s, bound)[i] in s && Ascending(s, bound)[i] < bound
    ensures Rank(s, Ascending(s, bound)[i]) == i
  {
    AscendingLength(s, bound - 1);
    if i < |Ascending(s, bound - 1)| {
      AscendingByRank(s, bound - 1, i);
    }
  }

  lemma {:induction false} AscendingComplete(s: set<Id>, bound: nat, m: Id)
    requires m in s && m < bound
    ensures m in Ascending(s, bound)
  {
    if m < bound - 1 {
      AscendingComplete(s, bound - 1, m);
    }
  }

  method CollectMembers(members: seq<MemberInput>, allocation: int)
    returns (r: Result<map<Id, Amounts>, Error>)
    ensures r.Ok? <==> DistinctMembers(members) && forall member | member in members ::
                         member.deposit == allocation && 0 < member.deposit <= MAX_SAFE_INTEGER
    ensures r.Ok? ==> r.value.Keys == MemberIds(members) && forall m | m in r.value :: r.value[m] == NO_AMOUNTS
    ensures r.Err? ==> r.error != DoesNotConserve
  {
    var totals: map<Id, Amounts> := map[];
    for i := 0 to |members|
      invariant DistinctMembers(members[..i])
      invariant totals.Keys == MemberIds(members[..i])
      invariant forall m | m in totals :: totals[m] == NO_AMOUNTS
      invariant forall member | member in members[..i] ::
                  member.deposit == allocation && 0 < member.deposit <= MAX_SAFE_INTEGER
    {
      var member := members[i];
      assert members[..i + 1] == members[..i] + [member];
      if member.id == EMPTY_ID || member.id in totals {
        return Err(MembersNotUnique);
      }
      if !IsSafeInteger(member.deposit) || member.deposit <= 0 {
        return Err(DepositNotPositive);
      }
      if member.deposit != allocation {
        return Err(DepositMismatch);
      }
      totals := totals[member.id := NO_AMOUNTS];
    }
    assert members[..|members|] == members;
    return Ok(totals);
  }

  method CollectOutcomes(outcomes: seq<OutcomeInput>, ids: set<Id>) returns (r: Result<Verdicts, Error>)
    ensures r.Ok? <==> CompleteOutcomes(outcomes, ids)
    ensures r.Ok? ==> r.value == VerdictsOf(outcomes)
    ensures r.Err? ==> r.error != DoesNotConserve
  {
    var verdicts: Verdicts := map[];
    for i := 0 to |outcomes|
      invariant DistinctOutcomes(outcomes[..i])
      invariant verdicts == VerdictsOf(outcomes[..i])
      invariant OutcomeIds(outcomes[..i]) <= ids
    {
      var outcome := outcomes[i];
      assert outcomes[..i + 1] == outcomes[..i] + [outcome];
      assert outcomes[..i + 1][..i] == outcomes[..i];
      VerdictsCoverOutcomes(outcomes[..i]);
      if outcome.member !in ids || outcome.member in verdicts {
        assert outcome in outcomes;
        return Err(OutcomesIncomplete);
      }
      verdicts := verdicts[outcome.member := outcome.state];
    }
    assert outcomes[..|outcomes|] == outcomes;
    VerdictsCoverOutcomes(outcomes);
    if verdicts.Keys != ids {
      return Err(OutcomesIncomplete);
    }
    return Ok(verdicts);
  }

  /** The bonus of every approved member, dealt out in ascending order of identifiers. */
  method DealBonuses(verdicts: Verdicts, slice: int, pool: int) returns (bonuses: map<Id, int>, recipients: nat)
    requires pool == Pool(verdicts, slice)
    ensures bonuses.Keys == Approvals(verdicts) && recipients == |Approvals(verdicts)|
    ensures forall m | m in bonuses :: bonuses[m] == Bonus(verdicts, slice, m)
  {
    var approvedIds := Sorted(Approvals(verdicts));
    recipients := |approvedIds|;
    var base := if recipients > 0 then pool / recipients else 0;
    var remainder := if recipients > 0 then pool % recipients else 0;
    bonuses := Deal(approvedIds, Approvals(verdicts), base, remainder);
  }

  /** `base` luna to everyone and one more to the first `remainder`. */
  method Deal(ids: seq<Id>, ghost s: set<Id>, base: int, remainder: int) returns (bonuses: map<Id, int>)
    requires forall m :: m in ids <==> m in s
    requires forall i | 0 <= i < |ids| :: Rank(s, ids[i]) == i
    ensures bonuses.Keys == s
    ensures forall m | m in bonuses :: bonuses[m] == base + if Rank(s, m) < remainder then 1 else 0
  {
    bonuses := map[];
    for i := 0 to |ids|
      invariant forall m :: m in bonuses <==> m in ids[..i]
      invariant forall m | m in bonuses :: bonuses[m] == base + if Rank(s, m) < remainder then 1 else 0
    {
      assert ids[..i + 1] == ids[..i] + [ids[i]];
      bonuses := bonuses[ids[i] := base + if i < remainder then 1 else 0];
    }
    assert ids[..|ids|] == ids;
  }

  /** A set of identifiers in ascending order. */
  function Sorted(s: set<Id>): (r: seq<Id>)
    ensures |r| == |s|
    ensures forall m :: m in r <==> m in s
    ensures forall i | 0 <= i < |r| :: Rank(s, r[i]) == i
  {
    var bound := Bound(s);
    AscendingLength(s, bound);
    assert (set a | a in s && a < bound) == s;
    var r := Ascending(s, bound);
    assert forall i | 0 <= i < |r| :: r[i] in s && Rank(s, r[i]) == i by {
      forall i | 0 <= i < |r| ensures r[i] in s && Rank(s, r[i]) == i { AscendingByRank(s, bound, i); }
    }
    assert forall m | m in s :: m in r by {
      forall m | m in s ensures m in r { AscendingComplete(s, bound, m); }
    }
    r
  }

  /** A number above every member of a set of identifiers. */
  function Bound(s: set<Id>): (bound: nat)
    ensures forall m | m in s :: m < bound
  {
    if s == {} then 0
    else
      var top := Largest(s);
      top + 1
  }

  function Largest(s: set<Id>): (top: Id)
    requires s != {}
    ensures top in s && forall m | m in s :: m <= top
  {
    LargestIs(s);
    var top :| top in s && forall m | m in s :: m <= top;
    top
  }

  lemma LargestIs(s: set<Id>)
    requires s != {}
    ensures exists top :: top in s && forall m | m in s :: m <= top
  {
    var top := LargestExists(s);
  }

  ghost predicate IsResult(r: OccurrenceResult, o: OccurrenceInput, slice: int, members: seq<MemberInput>) {
    CompleteOutcomes(o.outcomes, MemberIds(members)) && r == OccurrenceResultFor(o, slice, members)
  }

  /** One occurrence: every member's outcome in input order, added to the running totals. No guard can fail
      while `value`, a bound on the totals so far, leaves room for one more slice per member. */
  method SettleOccurrence(occurrence: OccurrenceInput, slice: int, members: seq<MemberInput>,
                          totals: map<Id, Amounts>, ghost value: int)
    returns (r: Result<(OccurrenceResult, map<Id, Amounts>), Error>)
    requires slice > 0 && members != [] && DistinctMembers(members) && totals.Keys == MemberIds(members)
    requires 0 <= value && forall m | m in totals :: totals[m].Within(value)
    ensures r.Ok? ==>
      && IsResult(r.value.0, occurrence, slice, members)
      && Added(r.value.1, totals, MemberIds(members), VerdictsOf(occurrence.outcomes), slice)
    ensures CompleteOutcomes(occurrence.outcomes, MemberIds(members)) && value + |members| * slice <= MAX_SAFE_INTEGER
            ==> r.Ok?
    ensures r.Err? ==> r.error != DoesNotConserve
  {
    var ids := MemberIds(members);
    var collected := CollectOutcomes(occurrence.outcomes, ids);
    if collected.Err? {
      return Err(collected.error);
    }
    var verdicts := collected.value;
    VerdictsCoverOutcomes(occurrence.outcomes);
    ghost var fits := value + |members| * slice <= MAX_SAFE_INTEGER;
    if fits {
      AmountsFit(verdicts, slice, members, totals, value);
    }
    var pool := CheckedMultiply(|Forfeits(verdicts)|, slice);
    if pool.None? {
      return Err(AmountTooLarge);
    }
    var bonuses, recipients := DealBonuses(verdicts, slice, pool.value);
    var outcomes, sums := AddOutcomes(verdicts, slice, members, totals, bonuses, recipients);
    if outcomes.None? {
      return Err(AmountTooLarge);
    }
    OccurrenceResultIs(occurrence, slice, members, outcomes.value);
    var closing := if recipients == 0 then ClosedNoBonusRecipient else Closed;
    var result := OccurrenceResult(occurrence.id, closing, pool.value, recipients, outcomes.value);
    return Ok((result, sums));
  }

  /** What a member with this verdict gets, computed with guards. */
  method OutcomeAmounts(state: OutcomeState, slice: int, recipients: nat, bonus: int) returns (r: Option<Amounts>)
    ensures var principal := if state == Approved || state == TimeoutProtected then slice else 0;
            var forfeiture := if state == Rejected || state == Missed then slice else 0;
            var restoration := if recipients == 0 then forfeiture else 0;
            var payout := principal + restoration + bonus;
            && (r.Some? ==> r.value == Amounts(principal, forfeiture, restoration, bonus, payout))
            && (IsSafeInteger(principal + restoration) && IsSafeInteger(payout) ==> r.Some?)
  {
    var principal := if state == Approved || state == TimeoutProtected then slice else 0;
    var forfeiture := if state == Rejected || state == Missed then slice else 0;
    var restoration := if recipients == 0 then forfeiture else 0;
    var kept := CheckedAdd(principal, restoration);
    if kept.None? {
      return None;
    }
    var payout := CheckedAdd(kept.value, bonus);
    if payout.None? {
      return None;
    }
    return Some(Amounts(principal, forfeiture, restoration, bonus, payout.value));
  }

  ghost predicate IsOutcome(r: OutcomeResult, v: Verdicts, slice: int, m: Id) {
    m in v && r == OutcomeResultFor(v, slice, m)
  }

  /** These are the outcomes of the first members. */
  ghost predicate OutcomesSoFar(results: seq<OutcomeResult>, v: Verdicts, slice: int, members: seq<MemberInput>) {
    && |results| <= |members|
    && (forall j | 0 <= j < |results| :: IsOutcome(results[j], v, slice, members[j].id))
  }

  lemma NoOutcomesYet(v: Verdicts, slice: int, members: seq<MemberInput>)
    ensures OutcomesSoFar([], v, slice, members)
  {
  }

  lemma OneMoreOutcome(results: seq<OutcomeResult>, v: Verdicts, slice: int, members: seq<MemberInput>,
                       r: OutcomeResult)
    requires OutcomesSoFar(results, v, slice, members) && |results| < |members|
    requires IsOutcome(r, v, slice, members[|results|].id)
    ensures OutcomesSoFar(results + [r], v, slice, members)
  {
    hide IsOutcome;
  }

  ghost predicate Fits(v: Verdicts, slice: int, totals: map<Id, Amounts>, m: Id)
    requires m in totals
  {
    && AmountsOf(v, slice, m).Within(MAX_SAFE_INTEGER)
    && totals[m].Plus(AmountsOf(v, slice, m)).Within(MAX_SAFE_INTEGER)
  }

  ghost predicate AllFit(v: Verdicts, slice: int, totals: map<Id, Amounts>)
    requires v.Keys == totals.Keys
  {
    forall m | m in v :: Fits(v, slice, totals, m)
  }

  /** What the running totals are once the members in `done` are added. */
  ghost predicate Added(sums: map<Id, Amounts>, totals: map<Id, Amounts>, done: set<Id>, v: Verdicts, slice: int) {
    && sums.Keys == totals.Keys
    && (forall m | m in totals :: sums[m] == if m in done then totals[m].Plus(AmountsOf(v, slice, m)) else totals[m])
  }

  lemma AddOne(sums: map<Id, Amounts>, totals: map<Id, Amounts>, done: set<Id>, v: Verdicts, slice: int, m: Id)
    requires Added(sums, totals, done, v, slice) && m in totals && m !in done
    ensures sums[m] == totals[m]
    ensures Added(sums[m := sums[m].Plus(AmountsOf(v, slice, m))], totals, done + {m}, v, slice)
  {
  }

  lemma NextMember(members: seq<MemberInput>, i: nat)
    requires i < |members| && DistinctMembers(members)
    ensures members[i].id in MemberIds(members) && members[i].id !in MemberIds(members[..i])
    ensures MemberIds(members[..i + 1]) == MemberIds(members[..i]) + {members[i].id}
  {
    assert members[i] in members;
    assert members[..i + 1] == members[..i] + [members[i]];
  }

  /** The inner loop over the members. */
  method AddOutcomes(verdicts: Verdicts, slice: int, members: seq<MemberInput>, totals: map<Id, Amounts>,
                     bonuses: map<Id, int>, recipients: nat)
    returns (outcomes: Option<seq<OutcomeResult>>, sums: map<Id, Amounts>)
    requires slice > 0 && DistinctMembers(members)
    requires verdicts.Keys == MemberIds(members) == totals.Keys
    requires recipients == |Approvals(verdicts)| && bonuses.Keys == Approvals(verdicts)
    requires forall m | m in bonuses :: bonuses[m] == Bonus(verdicts, slice, m)
    ensures outcomes.Some? ==>
      && |outcomes.value| == |members|
      && OutcomesSoFar(outcomes.value, verdicts, slice, members)
      && Added(sums, totals, MemberIds(members), verdicts, slice)
    ensures AllFit(verdicts, slice, totals) ==> outcomes.Some?
  {
    hide AmountsOf, Bonus, Approvals, DistinctMembers, IsOutcome, OutcomesSoFar;
    NoOutcomesYet(verdicts, slice, members);
    var results: seq<OutcomeResult> := [];
    sums := totals;
    ghost var done: set<Id> := {};
    for i := 0 to |members|
      invariant |results| == i && OutcomesSoFar(results, verdicts, slice, members)
      invariant done == MemberIds(members[..i])
      invariant Added(sums, totals, done, verdicts, slice)
    {
      var m := members[i].id;
      NextMember(members, i);
      AddOne(sums, totals, done, verdicts, slice, m);
      var step := AddMember(verdicts, slice, m, bonuses, recipients, sums[m]);
      if step.None? {
        assert !Fits(verdicts, slice, totals, m);
        return None, totals;
      }
      OneMoreOutcome(results, verdicts, slice, members, step.value.0);
      results := results + [step.value.0];
      sums := sums[m := step.value.1];
      done := done + {m};
    }
    assert members[..|members|] == members;
    outcomes := Some(results);
  }

  /** One turn of the inner loop: a member's outcome, and its running total with that outcome added. */
  method AddMember(verdicts: Verdicts, slice: int, m: Id, bonuses: map<Id, int>, recipients: nat, total: Amounts)
    returns (r: Option<(OutcomeResult, Amounts)>)
    requires slice > 0 && m in verdicts
    requires recipients == |Approvals(verdicts)| && bonuses.Keys == Approvals(verdicts)
    requires forall m | m in bonuses :: bonuses[m] == Bonus(verdicts, slice, m)
    ensures r.Some? ==> IsOutcome(r.value.0, verdicts, slice, m)
    ensures r.Some? ==> r.value.1 == total.Plus(AmountsOf(verdicts, slice, m))
    ensures (&& AmountsOf(verdicts, slice, m).Within(MAX_SAFE_INTEGER)
             && total.Plus(AmountsOf(verdicts, slice, m)).Within(MAX_SAFE_INTEGER)) ==> r.Some?
  {
    KeptFits(verdicts, slice, m);
    var amounts := OutcomeAmounts(verdicts[m], slice, recipients, if m in bonuses then bonuses[m] else 0);
    if amounts.None? {
      return None;
    }
    var sum := CheckedPlus(total, amounts.value);
    if sum.None? {
      return None;
    }
    return Some((OutcomeResult(m, verdicts[m], amounts.value), sum.value));
  }

  lemma KeptFits(verdicts: Verdicts, slice: int, m: Id)
    requires slice > 0
    ensures 0 <= Principal(verdicts, slice, m) + Restoration(verdicts, slice, m) <= Payout(verdicts, slice, m)
  {
    BonusIsNonNegative(verdicts, slice, m);
  }

  lemma AmountsFit(verdicts: Verdicts, slice: int, members: seq<MemberInput>, totals: map<Id, Amounts>, value: int)
    requires slice > 0 && members != [] && DistinctMembers(members)
    requires verdicts.Keys == MemberIds(members) == totals.Keys
    requires 0 <= value && value + |members| * slice <= MAX_SAFE_INTEGER
    requires forall m | m in totals :: totals[m].Within(value)
    ensures IsSafeInteger(Pool(verdicts, slice)) && AllFit(verdicts, slice, totals)
  {
    DistinctMemberCount(members);
    assert members[0].id in verdicts;
    OutcomeIsBounded(verdicts, slice, members[0].id);
    forall m | m in verdicts ensures Fits(verdicts, slice, totals, m) {
      OutcomeIsBounded(verdicts, slice, m);
      WithinPlus(totals[m], AmountsOf(verdicts, slice, m), value, |members| * slice);
    }
  }

  lemma OccurrenceResultIs(o: OccurrenceInput, slice: int, members: seq<MemberInput>, outcomes: seq<OutcomeResult>)
    requires MemberIds(members) <= VerdictsOf(o.outcomes).Keys && |outcomes| == |members|
    requires MemberIds(members) <= OutcomeIds(o.outcomes)
    requires OutcomesSoFar(outcomes, VerdictsOf(o.outcomes), slice, members)
    ensures OccurrenceResultFor(o, slice, members).outcomes == outcomes
  {
  }

  lemma VerdictsSoFar(occurrences: seq<OccurrenceInput>, k: nat)
    requires k < |occurrences|
    ensures AllVerdicts(occurrences[..k + 1])[..k] == AllVerdicts(occurrences[..k])
    ensures AllVerdicts(occurrences[..k + 1])[k] == VerdictsOf(occurrences[k].outcomes)
  {
  }

  ghost predicate AreTotals(totals: map<Id, Amounts>, occurrences: seq<OccurrenceInput>, slice: int,
                            members: seq<MemberInput>) {
    && totals.Keys == MemberIds(members)
    && (forall m | m in totals :: totals[m] == TotalOf(AllVerdicts(occurrences), slice, m))
  }

  lemma TotalsStep(before: map<Id, Amounts>, after: map<Id, Amounts>, occurrences: seq<OccurrenceInput>, k: nat,
                   slice: int, members: seq<MemberInput>)
    requires k < |occurrences| && AreTotals(before, occurrences[..k], slice, members)
    requires Added(after, before, MemberIds(members), VerdictsOf(occurrences[k].outcomes), slice)
    ensures AreTotals(after, occurrences[..k + 1], slice, members)
  {
    VerdictsSoFar(occurrences, k);
  }

  lemma TotalsSoFarAreBounded(occurrences: seq<OccurrenceInput>, k: nat, slice: int, members: seq<MemberInput>)
    requires slice > 0 && k <= |occurrences| && DistinctMembers(members)
    requires forall i | 0 <= i < k :: CompleteOutcomes(occurrences[i].outcomes, MemberIds(members))
    ensures forall m | m in MemberIds(members) ::
              TotalOf(AllVerdicts(occurrences[..k]), slice, m).Within(|members| * (slice * k))
  {
    var vs := AllVerdicts(occurrences[..k]);
    DistinctMemberCount(members);
    forall i | 0 <= i < k ensures vs[i].Keys == MemberIds(members) {
      VerdictsCoverOutcomes(occurrences[i].outcomes);
    }
    forall m | m in MemberIds(members) ensures TotalOf(vs, slice, m).Within(|members| * (slice * k)) {
      TotalIsBounded(vs, slice, MemberIds(members), m);
    }
  }

  /** The value of the first `k + 1` occurrences never exceeds what was deposited in all. */
  lemma ValueFits(n: nat, slice: int, k: nat, count: nat)
    requires slice > 0 && k < count
    ensures 0 <= n * (slice * k)
    ensures n * (slice * k) + n * slice <= n * (slice * count)
  {
    ValueStep(n, slice, k);
    MultiplyMonotone(k, k + 1, slice);
    MultiplyMonotone(k + 1, count, slice);
    MultiplyMonotone(slice * k, slice * k, n);
    MultiplyMonotone(slice * (k + 1), slice * count, n);
  }

  /** Before occurrence `k` the totals are bounded, and in an accepted input there is room for it. */
  lemma RoomLeft(input: Input, results: seq<OccurrenceResult>, totals: map<Id, Amounts>)
    requires input.slice > 0 && |results| < |input.occurrences| && DistinctMembers(input.members)
    requires forall i | 0 <= i < |results| :: IsResult(results[i], input.occurrences[i], input.slice, input.members)
    requires AreTotals(totals, input.occurrences[..|results|], input.slice, input.members)
    ensures var value := |input.members| * (input.slice * |results|);
            && 0 <= value
            && (forall m | m in totals :: totals[m].Within(value))
            && (Accepts(input) ==> value + |input.members| * input.slice <= MAX_SAFE_INTEGER)
    ensures Accepts(input) ==>
              CompleteOutcomes(input.occurrences[|results|].outcomes, MemberIds(input.members))
  {
    var k := |results|;
    TotalsSoFarAreBounded(input.occurrences, k, input.slice, input.members);
    ValueFits(|input.members|, input.slice, k, |input.occurrences|);
    assert input.occurrences[k] in input.occurrences;
  }

  /** The outer loop. It fails only on a malformed occurrence or when the deposits are not a safe integer. */
  method SettleOccurrences(input: Input, initial: map<Id, Amounts>)
    returns (r: Result<(seq<OccurrenceResult>, map<Id, Amounts>), Error>)
    requires input.slice > 0 && input.members != [] && DistinctMembers(input.members)
    requires initial.Keys == MemberIds(input.members) && forall m | m in initial :: initial[m] == NO_AMOUNTS
    ensures r.Ok? ==>
      && DistinctOccurrences(input.occurrences)
      && |r.value.0| == |input.occurrences|
      && (forall i | 0 <= i < |input.occurrences| ::
            IsResult(r.value.0[i], input.occurrences[i], input.slice, input.members))
      && AreTotals(r.value.1, input.occurrences, input.slice, input.members)
    ensures Accepts(input) ==> r.Ok?
    ensures r.Err? ==> r.error != DoesNotConserve
  {
    var occurrences, slice, members := input.occurrences, input.slice, input.members;
    var seen: set<Id> := {};
    var results: seq<OccurrenceResult> := [];
    var totals := initial;
    for k := 0 to |occurrences|
      invariant DistinctUpTo(occurrences, k)
      invariant seen == set i | 0 <= i < k :: occurrences[i].id
      invariant |results| == k
      invariant forall i | 0 <= i < k :: IsResult(results[i], occurrences[i], slice, members)
      invariant AreTotals(totals, occurrences[..k], slice, members)
    {
      var occurrence := occurrences[k];
      if occurrence.id == EMPTY_ID || occurrence.id in seen {
        return Err(OccurrencesNotUnique);
      }
      seen := seen + {occurrence.id};
      RoomLeft(input, results, totals);
      var settled := SettleOccurrence(occurrence, slice, members, totals, |members| * (slice * k));
      if settled.Err? {
        return Err(settled.error);
      }
      TotalsStep(totals, settled.value.1, occurrences, k, slice, members);
      results := results + [settled.value.0];
      totals := settled.value.1;
    }
    assert occurrences[..|occurrences|] == occurrences;
    return Ok((results, totals));
  }

  /** Adding up a list of amounts under the guard, as `reduce` does. */
  method AddAll(amounts: seq<int>) returns (r: Option<int>)
    requires forall i | 0 <= i < |amounts| :: amounts[i] >= 0
    ensures r.Some? <==> SumSeq(amounts) <= MAX_SAFE_INTEGER
    ensures r.Some? ==> r.value == SumSeq(amounts)
  {
    var total := 0;
    for i := 0 to |amounts|
      invariant total == SumSeq(amounts[..i]) && 0 <= total <= MAX_SAFE_INTEGER
    {
      assert amounts[..i + 1][..i] == amounts[..i];
      PrefixSum(amounts, i + 1);
      var next := CheckedAdd(total, amounts[i]);
      if next.None? {
        return None;
      }
      total := next.value;
    }
    assert amounts[..|amounts|] == amounts;
    return Some(total);
  }

  function SumSeq(s: seq<int>): int {
    if s == [] then 0 else SumSeq(s[..|s| - 1]) + s[|s| - 1]
  }

  lemma {:induction false} PrefixSum(s: seq<int>, k: nat)
    requires k <= |s| && forall i | 0 <= i < |s| :: s[i] >= 0
    ensures 0 <= SumSeq(s[..k]) <= SumSeq(s)
    decreases |s|
  {
    if k == |s| {
      assert s[..k] == s;
      if s != [] { PrefixSum(s[..|s| - 1], |s| - 1); assert s[..|s| - 1][..|s| - 1] == s[..|s| - 1]; }
    } else {
      PrefixSum(s[..|s| - 1], k);
      assert s[..|s| - 1][..k] == s[..k];
    }
  }

  lemma {:induction false} ConstantSum(s: seq<int>, c: int)
    requires forall i | 0 <= i < |s| :: s[i] == c
    ensures SumSeq(s) == |s| * c
  {
    if s != [] {
      ConstantSum(s[..|s| - 1], c);
      MultiplyAdd(|s| - 1, 1, c);
    }
  }

  /** A sum along the member list is a sum over the member set. */
  lemma {:induction false} MemberSum(members: seq<MemberInput>, amounts: seq<int>, f: Id -> int)
    requires DistinctMembers(members) && |amounts| == |members|
    requires forall i | 0 <= i < |members| :: amounts[i] == f(members[i].id)
    ensures SumSeq(amounts) == SumOver(MemberIds(members), f)
  {
    if members != [] {
      var init, last := members[..|members| - 1], members[|members| - 1];
      MemberSum(init, amounts[..|members| - 1], f);
      assert members == init + [last];
      assert MemberIds(members) == MemberIds(init) + {last.id};
      SumOverAdd(MemberIds(init), f, last.id);
    }
  }

  /** The payouts of the members, added up in input order, equal the deposits. */
  lemma PayoutSum(input: Input, payouts: seq<int>)
    requires WellFormed(input) && |payouts| == |input.members|
    requires forall i | 0 <= i < |payouts| ::
               payouts[i] == TotalOf(AllVerdicts(input.occurrences), input.slice, input.members[i].id).payout
    ensures SumSeq(payouts) == TotalDeposit(input)
    ensures forall i | 0 <= i < |payouts| :: payouts[i] >= 0
  {
    var vs := AllVerdicts(input.occurrences);
    MemberSum(input.members, payouts, (m: Id) => TotalOf(vs, input.slice, m).payout);
    SettlementConserves(input, 0);
    VerdictsNameMembers(input);
    forall i | 0 <= i < |payouts| ensures payouts[i] >= 0 {
      assert input.members[i].id in MemberIds(input.members);
      TotalIsBounded(vs, input.slice, MemberIds(input.members), input.members[i].id);
    }
  }

  /** `calculateSettlement`: it succeeds exactly on the well-formed inputs whose deposits add up to a safe
      integer, then returns the settlement of the rules; the conservation check never fires. */
  method CalculateSettlement(input: Input) returns (r: Result<Settlement, Error>)
    ensures r.Ok? <==> Accepts(input)
    ensures r.Ok? ==> r.value == SettlementOf(input)
    ensures r.Err? ==> r.error != DoesNotConserve
  {
    if !IsSafeInteger(input.slice) || input.slice <= 0 {
      UnsafeSlice(input);
      return Err(SliceNotPositive);
    }
    if input.members == [] {
      return Err(NoMembers);
    }
    if input.occurrences == [] {
      return Err(NoOccurrences);
    }
    var allocation := CheckedMultiply(input.slice, |input.occurrences|);
    if allocation.None? {
      UnsafeSlice(input);
      return Err(AllocationTooLarge);
    }
    var initial := CollectMembers(input.members, allocation.value);
    if initial.Err? {
      DepositsAreSafe(input);
      return Err(initial.error);
    }
    var settled := SettleOccurrences(input, initial.value);
    if settled.Err? {
      return Err(settled.error);
    }
    assert WellFormed(input);
    var members := MemberResults(input, settled.value.1);
    var sums := AddTotals(input, members);
    if sums.Err? {
      return Err(sums.error);
    }
    return Ok(Settlement(input.slice, sums.value.0, sums.value.1, settled.value.0, members));
  }

  /** The two final sums over the members and the conservation check between them. */
  method AddTotals(input: Input, members: seq<MemberResult>) returns (r: Result<(int, int), Error>)
    requires WellFormed(input) && |members| == |input.members|
    requires forall i | 0 <= i < |members| ::
               && members[i].deposit == input.members[i].deposit
               && members[i].amounts == TotalOf(AllVerdicts(input.occurrences), input.slice, input.members[i].id)
    ensures r.Ok? <==> TotalDeposit(input) <= MAX_SAFE_INTEGER
    ensures r.Ok? ==> r.value == (TotalDeposit(input), TotalDeposit(input))
    ensures r.Err? ==> r.error == AmountTooLarge
  {
    var deposits := seq(|members|, i requires 0 <= i < |members| => members[i].deposit);
    var payouts := seq(|members|, i requires 0 <= i < |members| => members[i].amounts.payout);
    DepositSum(input, deposits);
    PayoutSum(input, payouts);
    var totalDeposit := AddAll(deposits);
    if totalDeposit.None? {
      return Err(AmountTooLarge);
    }
    var totalPayout := AddAll(payouts);
    if totalPayout.None? {
      return Err(AmountTooLarge);
    }
    if totalDeposit.value != totalPayout.value {
      return Err(DoesNotConserve);
    }
    return Ok((totalDeposit.value, totalPayout.value));
  }

  lemma DepositSum(input: Input, deposits: seq<int>)
    requires WellFormed(input) && |deposits| == |input.members|
    requires forall i | 0 <= i < |deposits| :: deposits[i] == input.members[i].deposit
    ensures SumSeq(deposits) == TotalDeposit(input)
    ensures forall i | 0 <= i < |deposits| :: deposits[i] >= 0
  {
    var allocation := input.slice * |input.occurrences|;
    MultiplyMonotone(1, |input.occurrences|, input.slice);
    forall i | 0 <= i < |deposits| ensures deposits[i] == allocation {
      assert input.members[i] in input.members;
    }
    ConstantSum(deposits, allocation);
  }

  function MemberResults(input: Input, totals: map<Id, Amounts>): (r: seq<MemberResult>)
    requires totals.Keys == MemberIds(input.members)
    ensures |r| == |input.members|
    ensures forall i | 0 <= i < |r| :: input.members[i].id in totals &&
              r[i] == MemberResult(input.members[i].id, input.members[i].deposit, totals[input.members[i].id])
  {
    assert forall i | 0 <= i < |input.members| :: input.members[i].id in MemberIds(input.members);
    seq(|input.members|, i requires 0 <= i < |input.members| =>
      MemberResult(input.members[i].id, input.members[i].deposit, totals[input.members[i].id]))
  }

  lemma UnsafeSlice(input: Input)
    requires input.slice <= 0 || !IsSafeInteger(input.slice) || !IsSafeInteger(input.slice * |input.occurrences|)
    ensures !Accepts(input)
  {
    if Accepts(input) { DepositsAreSafe(input); }
  }

  lemma DepositsAreSafe(input: Input)
    ensures Accepts(input) ==>
      && IsSafeInteger(input.slice)
      && 0 < input.slice * |input.occurrences| <= MAX_SAFE_INTEGER
  {
    if Accepts(input) {
      MultiplyMonotone(1, |input.occurrences|, input.slice);
      MultiplyMonotone(1, |input.members|, input.slice * |input.occurrences|);
    }
  }
}
