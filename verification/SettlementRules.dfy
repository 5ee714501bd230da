/** What `calculateSettlement` promises, stated per member and per occurrence without any loop. */
module SettlementRules {
  import opened Basics

  datatype OutcomeState = Approved | TimeoutProtected | Rejected | Missed

  datatype MemberInput = MemberInput(id: Id, deposit: int)
  datatype OutcomeInput = OutcomeInput(member: Id, state: OutcomeState)
  datatype OccurrenceInput = OccurrenceInput(id: Id, outcomes: seq<OutcomeInput>)
  datatype Input = Input(slice: int, members: seq<MemberInput>, occurrences: seq<OccurrenceInput>)

  /** The five luna amounts kept per outcome and, added up, per member. */
  datatype Amounts = Amounts(principal: int, forfeiture: int, restoration: int, bonus: int, payout: int) {
    function Plus(that: Amounts): Amounts {
      Amounts(principal + that.principal, forfeiture + that.forfeiture, restoration + that.restoration,
              bonus + that.bonus, payout + that.payout)
    }

    predicate Within(bound: int) {
      && 0 <= principal <= bound
      && 0 <= forfeiture <= bound
      && 0 <= restoration <= bound
      && 0 <= bonus <= bound
      && 0 <= payout <= bound
    }
  }

  const NO_AMOUNTS := Amounts(0, 0, 0, 0, 0)

  datatype ClosingState = Closed | ClosedNoBonusRecipient
  datatype OutcomeResult = OutcomeResult(member: Id, state: OutcomeState, amounts: Amounts)
  datatype OccurrenceResult = OccurrenceResult(
    id: Id, state: ClosingState, pool: int, recipients: nat, outcomes: seq<OutcomeResult>)
  datatype MemberResult = MemberResult(id: Id, deposit: int, amounts: Amounts)
  datatype Settlement = Settlement(
    slice: int, totalDeposit: int, totalPayout: int,
    occurrences: seq<OccurrenceResult>, members: seq<MemberResult>)

  /** Who ended an occurrence in which state. */
  type Verdicts = map<Id, OutcomeState>

  function Approvals(v: Verdicts): set<Id> {
    set m | m in v && v[m] == Approved
  }

  function Forfeits(v: Verdicts): set<Id> {
    set m | m in v && (v[m] == Rejected || v[m] == Missed)
  }

  function Pool(v: Verdicts, slice: int): int {
    |Forfeits(v)| * slice
  }

  /** How many members of `s` have a smaller identifier than `m`. */
  function Rank(s: set<Id>, m: Id): nat {
    |set a | a in s && a < m|
  }

  function Bonus(v: Verdicts, slice: int, m: Id): int {
    var approved := Approvals(v);
    if m in approved then
      assert approved != {};
      Pool(v, slice) / |approved| + (if Rank(approved, m) < Pool(v, slice) % |approved| then 1 else 0)
    else 0
  }

  function Principal(v: Verdicts, slice: int, m: Id): int {
    if m in v && (v[m] == Approved || v[m] == TimeoutProtected) then slice else 0
  }

  function Forfeiture(v: Verdicts, slice: int, m: Id): int {
    if m in Forfeits(v) then slice else 0
  }

  function Restoration(v: Verdicts, slice: int, m: Id): int {
    if Approvals(v) == {} then Forfeiture(v, slice, m) else 0
  }

  function Payout(v: Verdicts, slice: int, m: Id): int {
    Principal(v, slice, m) + Restoration(v, slice, m) + Bonus(v, slice, m)
  }

  function AmountsOf(v: Verdicts, slice: int, m: Id): Amounts {
    Amounts(Principal(v, slice, m), Forfeiture(v, slice, m), Restoration(v, slice, m), Bonus(v, slice, m),
            Payout(v, slice, m))
  }

  /** A member's amounts over several occurrences. */
  function TotalOf(vs: seq<Verdicts>, slice: int, m: Id): Amounts {
    if vs == [] then NO_AMOUNTS
    else TotalOf(vs[..|vs| - 1], slice, m).Plus(AmountsOf(vs[|vs| - 1], slice, m))
  }

  // ---------------------------------------------------------------------------------------------
  // One occurrence: the pool is handed out exactly, in slices differing by at most one luna.
  // ---------------------------------------------------------------------------------------------

  lemma RankWithoutLargest(s: set<Id>, top: Id, m: Id)
    requires top in s && m in s && m != top
    requires forall a | a in s :: a <= top
    ensures Rank(s, m) == Rank(s - {top}, m)
  {
    assert (set a | a in s && a < m) == (set a | a in s - {top} && a < m);
  }

  lemma RankOfLargest(s: set<Id>, top: Id)
    requires top in s
    requires forall a | a in s :: a <= top
    ensures Rank(s, top) == |s| - 1
  {
    assert (set a | a in s && a < top) == s - {top};
  }

  lemma {:induction false} LargestExists(s: set<Id>) returns (top: Id)
    requires s != {}
    ensures top in s && forall a | a in s :: a <= top
    decreases |s|
  {
    var x :| x in s;
    if s == {x} {
      top := x;
    } else {
      assert s == s - {x} + {x};
      var rest := LargestExists(s - {x});
      top := if rest < x then x else rest;
    }
  }

  /** Exactly `min(r, |s|)` members of a set have a rank below `r`. */
  lemma {:induction false} CountBelowRank(s: set<Id>, r: nat)
    ensures SumOver(s, m => if Rank(s, m) < r then 1 else 0) == if r < |s| then r else |s|
    decreases |s|
  {
    if s != {} {
      var f := m => if Rank(s, m) < r then 1 else 0;
      var top := LargestExists(s);
      var rest := s - {top};
      var g := m => if Rank(rest, m) < r then 1 else 0;
      SumOverRemove(s, f, top);
      RankOfLargest(s, top);
      forall m | m in rest ensures f(m) == g(m) { RankWithoutLargest(s, top, m); }
      SumOverSame(rest, f, g);
      CountBelowRank(rest, r);
    }
  }

  lemma DivMod(p: int, n: int)
    requires n > 0
    ensures n * (p / n) + p % n == p && 0 <= p % n < n
  {
  }

  /** The bonuses of an occurrence use up its forfeiture pool to the last luna. */
  lemma BonusesExhaustPool(v: Verdicts, slice: int)
    requires Approvals(v) != {} && slice >= 0
    ensures SumOver(v.Keys, m => Bonus(v, slice, m)) == Pool(v, slice)
  {
    var approved := Approvals(v);
    var pool := Pool(v, slice);
    var n := |approved|;
    assert n > 0;
    var all := m => Bonus(v, slice, m);
    var base := (m: Id) => pool / n;
    var extra := m => if Rank(approved, m) < pool % n then 1 else 0;
    DivMod(pool, n);
    SumOverSplit(v.Keys, approved, all);
    SumOverConstant(v.Keys - approved, all, 0);
    SumOverPlus(approved, base, extra, all);
    SumOverConstant(approved, base, pool / n);
    CountBelowRank(approved, pool % n);
  }

  /** Two bonuses of an occurrence differ by at most one luna, and the smaller identifier never gets less. */
  lemma BonusesAreFair(v: Verdicts, slice: int, a: Id, b: Id)
    requires a in Approvals(v) && b in Approvals(v) && a < b
    ensures Bonus(v, slice, b) <= Bonus(v, slice, a) <= Bonus(v, slice, b) + 1
    ensures Bonus(v, slice, a) - Pool(v, slice) / |Approvals(v)| in {0, 1}
  {
    var approved := Approvals(v);
    var belowA := set x | x in approved && x < a;
    var belowB := set x | x in approved && x < b;
    SubsetSize(belowA, belowB);
  }

  lemma {:induction false} SubsetSize<A>(s: set<A>, t: set<A>)
    requires s <= t
    ensures |s| <= |t|
    decreases |s|
  {
    if s != {} {
      var x :| x in s;
      SubsetSize(s - {x}, t - {x});
    }
  }

  lemma MultiplyAdd(a: int, b: int, c: int)
    ensures (a + b) * c == a * c + b * c
    ensures c * (a + b) == c * a + c * b
  {
  }

  lemma MultiplyMonotone(a: int, b: int, c: int)
    requires 0 <= a <= b && 0 <= c
    ensures 0 <= a * c <= b * c
  {
  }

  lemma PrincipalsKeepSlices(v: Verdicts, slice: int)
    ensures SumOver(v.Keys, m => Principal(v, slice, m)) == (|v| - |Forfeits(v)|) * slice
  {
    var principal := m => Principal(v, slice, m);
    var forfeits := Forfeits(v);
    SumOverSplit(v.Keys, forfeits, principal);
    SumOverConstant(forfeits, principal, 0);
    SumOverConstant(v.Keys - forfeits, principal, slice);
    assert |v.Keys - forfeits| == |v| - |forfeits|;
  }

  lemma ForfeitsComeBack(v: Verdicts, slice: int)
    requires slice >= 0
    ensures SumOver(v.Keys, m => Restoration(v, slice, m) + Bonus(v, slice, m)) == Pool(v, slice)
  {
    var returned := m => Restoration(v, slice, m) + Bonus(v, slice, m);
    if Approvals(v) == {} {
      SumOverSplit(v.Keys, Forfeits(v), returned);
      SumOverConstant(Forfeits(v), returned, slice);
      SumOverConstant(v.Keys - Forfeits(v), returned, 0);
    } else {
      SumOverSame(v.Keys, returned, m => Bonus(v, slice, m));
      BonusesExhaustPool(v, slice);
    }
  }

  /** Each occurrence pays out one slice per member, no more and no less. */
  lemma OccurrenceConserves(v: Verdicts, slice: int)
    requires slice >= 0
    ensures SumOver(v.Keys, m => Payout(v, slice, m)) == |v| * slice
  {
    SumOverPlus(v.Keys, m => Principal(v, slice, m), m => Restoration(v, slice, m) + Bonus(v, slice, m),
                m => Payout(v, slice, m));
    PrincipalsKeepSlices(v, slice);
    ForfeitsComeBack(v, slice);
    MultiplyAdd(|v| - |Forfeits(v)|, |Forfeits(v)|, slice);
  }

  lemma BonusIsNonNegative(v: Verdicts, slice: int, m: Id)
    requires slice >= 0
    ensures Bonus(v, slice, m) >= 0
  {
    assert Pool(v, slice) >= 0;
    if m in Approvals(v) { DivMod(Pool(v, slice), |Approvals(v)|); }
  }

  /** No amount of an occurrence exceeds the value of that occurrence. */
  lemma OutcomeIsBounded(v: Verdicts, slice: int, m: Id)
    requires slice >= 0 && m in v
    ensures AmountsOf(v, slice, m).Within(|v| * slice)
    ensures 0 <= Pool(v, slice) <= |v| * slice
  {
    forall x | x in v ensures Payout(v, slice, x) >= 0 { BonusIsNonNegative(v, slice, x); }
    BonusIsNonNegative(v, slice, m);
    SumOverBoundsTerm(v.Keys, x => Payout(v, slice, x), m);
    OccurrenceConserves(v, slice);
    SubsetSize(Forfeits(v), v.Keys);
    MultiplyMonotone(|Forfeits(v)|, |v|, slice);
    MultiplyMonotone(1, |v|, slice);
  }

  // ---------------------------------------------------------------------------------------------
  // A better verdict never costs its member anything.
  // ---------------------------------------------------------------------------------------------

  /** With everyone else's verdict fixed: missed or rejected, then protected, then approved never lowers
      the payout; and a protected slice neither enters nor leaves the pool. */
  lemma BetterVerdictNeverLowersPayout(v: Verdicts, slice: int, m: Id, lost: OutcomeState)
    requires slice >= 0 && lost in {Rejected, Missed}
    ensures Payout(v[m := lost], slice, m) <= Payout(v[m := TimeoutProtected], slice, m)
    ensures Payout(v[m := TimeoutProtected], slice, m) == slice <= Payout(v[m := Approved], slice, m)
    ensures Pool(v[m := TimeoutProtected], slice) == Pool(v[m := Approved], slice)
    ensures Pool(v[m := lost], slice) == Pool(v[m := TimeoutProtected], slice) + slice
  {
    var p := v[m := TimeoutProtected];
    assert Forfeits(v[m := Approved]) == Forfeits(p);
    assert Forfeits(v[m := lost]) == Forfeits(p) + {m};
    assert m !in Forfeits(p);
    assert (|Forfeits(p)| + 1) * slice == |Forfeits(p)| * slice + slice;
    BonusIsNonNegative(v[m := Approved], slice, m);
  }

  // ---------------------------------------------------------------------------------------------
  // Whole settlements.
  // ---------------------------------------------------------------------------------------------

  function MemberIds(members: seq<MemberInput>): set<Id> {
    set member | member in members :: member.id
  }

  function OutcomeIds(outcomes: seq<OutcomeInput>): set<Id> {
    set outcome | outcome in outcomes :: outcome.member
  }

  /** The verdict map the outcomes of an occurrence describe. */
  function VerdictsOf(outcomes: seq<OutcomeInput>): Verdicts {
    if outcomes == [] then map[]
    else
      var last := outcomes[|outcomes| - 1];
      VerdictsOf(outcomes[..|outcomes| - 1])[last.member := last.state]
  }

  function AllVerdicts(occurrences: seq<OccurrenceInput>): seq<Verdicts> {
    seq(|occurrences|, i requires 0 <= i < |occurrences| => VerdictsOf(occurrences[i].outcomes))
  }

  predicate DistinctOutcomes(outcomes: seq<OutcomeInput>) {
    forall i, j | 0 <= i < j < |outcomes| :: outcomes[i].member != outcomes[j].member
  }

  predicate DistinctMembers(members: seq<MemberInput>) {
    && (forall i | 0 <= i < |members| :: members[i].id != EMPTY_ID)
    && (forall i, j | 0 <= i < j < |members| :: members[i].id != members[j].id)
  }

  /** The first `k` occurrences have identifiers, all different. */
  predicate DistinctUpTo(occurrences: seq<OccurrenceInput>, k: nat)
    requires k <= |occurrences|
  {
    && (forall i | 0 <= i < k :: occurrences[i].id != EMPTY_ID)
    && (forall i, j | 0 <= i < j < k :: occurrences[i].id != occurrences[j].id)
  }

  predicate DistinctOccurrences(occurrences: seq<OccurrenceInput>) {
    DistinctUpTo(occurrences, |occurrences|)
  }

  /** Every member exactly once. */
  predicate CompleteOutcomes(outcomes: seq<OutcomeInput>, ids: set<Id>) {
    DistinctOutcomes(outcomes) && OutcomeIds(outcomes) == ids
  }

  /** Everything `calculateSettlement` demands of its input except that the amounts stay safe. */
  predicate WellFormed(input: Input) {
    && input.slice > 0
    && input.members != []
    && input.occurrences != []
    && DistinctMembers(input.members)
    && (forall member | member in input.members :: member.deposit == input.slice * |input.occurrences|)
    && DistinctOccurrences(input.occurrences)
    && (forall o | o in input.occurrences :: CompleteOutcomes(o.outcomes, MemberIds(input.members)))
  }

  /** Everything the members of a well-formed input deposited. */
  function TotalDeposit(input: Input): int {
    |input.members| * (input.slice * |input.occurrences|)
  }

  /** The inputs for which a settlement exists. */
  predicate Accepts(input: Input) {
    WellFormed(input) && TotalDeposit(input) <= MAX_SAFE_INTEGER
  }

  function OutcomeResultFor(v: Verdicts, slice: int, m: Id): OutcomeResult
    requires m in v
  {
    OutcomeResult(m, v[m], AmountsOf(v, slice, m))
  }

  lemma {:induction false} VerdictsCoverOutcomes(outcomes: seq<OutcomeInput>)
    ensures VerdictsOf(outcomes).Keys == OutcomeIds(outcomes)
  {
    if outcomes != [] {
      var init, last := outcomes[..|outcomes| - 1], outcomes[|outcomes| - 1];
      VerdictsCoverOutcomes(init);
      assert outcomes == init + [last];
    }
  }

  function OccurrenceResultFor(o: OccurrenceInput, slice: int, members: seq<MemberInput>): OccurrenceResult
    requires MemberIds(members) <= OutcomeIds(o.outcomes)
  {
    VerdictsCoverOutcomes(o.outcomes);
    var v := VerdictsOf(o.outcomes);
    OccurrenceResult(
      o.id, if Approvals(v) == {} then ClosedNoBonusRecipient else Closed, Pool(v, slice), |Approvals(v)|,
      seq(|members|, i requires 0 <= i < |members| =>
        assert members[i].id in MemberIds(members);
        OutcomeResultFor(v, slice, members[i].id)))
  }

  /** The settlement of an input: every amount by its rule, and what was deposited paid out in full. */
  function SettlementOf(input: Input): Settlement
    requires WellFormed(input)
  {
    Settlement(
      input.slice, TotalDeposit(input), TotalDeposit(input),
      seq(|input.occurrences|, i requires 0 <= i < |input.occurrences| =>
        OccurrenceResultFor(input.occurrences[i], input.slice, input.members)),
      seq(|input.members|, i requires 0 <= i < |input.members| =>
        MemberResult(input.members[i].id, input.members[i].deposit,
                     TotalOf(AllVerdicts(input.occurrences), input.slice, input.members[i].id))))
  }

  /** One more occurrence is worth one more slice per member. */
  lemma ValueStep(n: int, slice: int, k: int)
    ensures n * (slice * (k + 1)) == n * (slice * k) + n * slice
  {
    MultiplyAdd(k, 1, slice);
    MultiplyAdd(slice * k, slice, n);
  }

  lemma TotalStep(vs: seq<Verdicts>, slice: int, ids: set<Id>)
    requires vs != []
    ensures SumOver(ids, m => TotalOf(vs, slice, m).payout)
         == SumOver(ids, m => TotalOf(vs[..|vs| - 1], slice, m).payout)
          + SumOver(ids, m => Payout(vs[|vs| - 1], slice, m))
  {
    SumOverPlus(ids, m => TotalOf(vs[..|vs| - 1], slice, m).payout, m => Payout(vs[|vs| - 1], slice, m),
                m => TotalOf(vs, slice, m).payout);
  }

  /** Over any number of occurrences the payouts of the members add up to a slice per member and occurrence. */
  lemma {:induction false} RunConserves(vs: seq<Verdicts>, slice: int, ids: set<Id>)
    requires slice >= 0
    requires forall v | v in vs :: v.Keys == ids
    ensures SumOver(ids, m => TotalOf(vs, slice, m).payout) == |ids| * (slice * |vs|)
  {
    if vs == [] {
      SumOverConstant(ids, m => TotalOf(vs, slice, m).payout, 0);
    } else {
      var init, last := vs[..|vs| - 1], vs[|vs| - 1];
      assert last.Keys == ids;
      RunConserves(init, slice, ids);
      TotalStep(vs, slice, ids);
      OccurrenceConserves(last, slice);
      ValueStep(|ids|, slice, |init|);
    }
  }

  /** No running total exceeds the value of the occurrences added up so far. */
  lemma {:induction false} TotalIsBounded(vs: seq<Verdicts>, slice: int, ids: set<Id>, m: Id)
    requires slice >= 0 && m in ids
    requires forall v | v in vs :: v.Keys == ids
    ensures TotalOf(vs, slice, m).Within(|ids| * (slice * |vs|))
  {
    if vs != [] {
      var init, last := vs[..|vs| - 1], vs[|vs| - 1];
      assert last.Keys == ids;
      TotalIsBounded(init, slice, ids, m);
      OutcomeIsBounded(last, slice, m);
      ValueStep(|ids|, slice, |init|);
      WithinPlus(TotalOf(init, slice, m), AmountsOf(last, slice, m), |ids| * (slice * |init|), |ids| * slice);
    }
  }

  lemma WithinPlus(a: Amounts, b: Amounts, boundA: int, boundB: int)
    requires a.Within(boundA) && b.Within(boundB)
    ensures a.Plus(b).Within(boundA + boundB)
  {
  }

  lemma {:induction false} DistinctMemberCount(members: seq<MemberInput>)
    requires DistinctMembers(members)
    ensures |MemberIds(members)| == |members|
  {
    if members != [] {
      var init, last := members[..|members| - 1], members[|members| - 1];
      DistinctMemberCount(init);
      assert members == init + [last];
      assert MemberIds(members) == MemberIds(init) + {last.id};
      assert last.id !in MemberIds(init);
    }
  }

  /** The verdicts of a well-formed input name exactly its members. */
  lemma VerdictsNameMembers(input: Input)
    requires WellFormed(input)
    ensures forall v | v in AllVerdicts(input.occurrences) :: v.Keys == MemberIds(input.members)
    ensures |MemberIds(input.members)| == |input.members|
  {
    DistinctMemberCount(input.members);
    forall i | 0 <= i < |input.occurrences|
      ensures AllVerdicts(input.occurrences)[i].Keys == MemberIds(input.members)
    {
      VerdictsCoverOutcomes(input.occurrences[i].outcomes);
      assert input.occurrences[i] in input.occurrences;
    }
  }

  /** Settling hands out exactly what was deposited: in each occurrence a slice per member, and in total
      the sum of all deposits. */
  lemma SettlementConserves(input: Input, k: nat)
    requires WellFormed(input) && k < |input.occurrences|
    ensures SumOver(MemberIds(input.members), m => Payout(AllVerdicts(input.occurrences)[k], input.slice, m))
         == |input.members| * input.slice
    ensures SumOver(MemberIds(input.members), m => TotalOf(AllVerdicts(input.occurrences), input.slice, m).payout)
         == TotalDeposit(input)
  {
    VerdictsNameMembers(input);
    var vs := AllVerdicts(input.occurrences);
    assert vs[k] in vs;
    OccurrenceConserves(vs[k], input.slice);
    RunConserves(vs, input.slice, MemberIds(input.members));
  }

  // ---------------------------------------------------------------------------------------------
  // The order in which members and outcomes are listed is irrelevant.
  // ---------------------------------------------------------------------------------------------

  lemma {:induction false} VerdictsLookUp(outcomes: seq<OutcomeInput>, m: Id, s: OutcomeState)
    requires DistinctOutcomes(outcomes)
    ensures OutcomeInput(m, s) in outcomes <==> m in VerdictsOf(outcomes) && VerdictsOf(outcomes)[m] == s
  {
    if outcomes != [] {
      var init, last := outcomes[..|outcomes| - 1], outcomes[|outcomes| - 1];
      assert outcomes == init + [last];
      VerdictsLookUp(init, m, s);
      if last.member == m { NotListedEarlier(outcomes, s); }
    }
  }

  lemma NotListedEarlier(outcomes: seq<OutcomeInput>, s: OutcomeState)
    requires DistinctOutcomes(outcomes) && outcomes != []
    ensures OutcomeInput(outcomes[|outcomes| - 1].member, s) !in outcomes[..|outcomes| - 1]
  {
  }

  /** Listing the same outcomes in another order gives the same verdicts. */
  lemma VerdictsIgnoreOrder(a: seq<OutcomeInput>, b: seq<OutcomeInput>)
    requires DistinctOutcomes(a) && DistinctOutcomes(b)
    requires multiset(a) == multiset(b)
    ensures VerdictsOf(a) == VerdictsOf(b)
  {
    assert forall o :: o in a <==> o in multiset(a);
    assert forall o :: o in b <==> o in multiset(b);
    forall m | m in VerdictsOf(a) ensures m in VerdictsOf(b) && VerdictsOf(b)[m] == VerdictsOf(a)[m] {
      VerdictsLookUp(a, m, VerdictsOf(a)[m]);
      VerdictsLookUp(b, m, VerdictsOf(a)[m]);
    }
    forall m | m in VerdictsOf(b) ensures m in VerdictsOf(a) {
      VerdictsLookUp(b, m, VerdictsOf(b)[m]);
      VerdictsLookUp(a, m, VerdictsOf(b)[m]);
    }
  }

  /** The same members and occurrences, listed in another order. */
  predicate Reordered(a: Input, b: Input) {
    && a.slice == b.slice
    && multiset(a.members) == multiset(b.members)
    && |a.occurrences| == |b.occurrences|
    && (forall k | 0 <= k < |a.occurrences| ::
          && a.occurrences[k].id == b.occurrences[k].id
          && multiset(a.occurrences[k].outcomes) == multiset(b.occurrences[k].outcomes))
  }

  lemma ReorderedVerdicts(a: Input, b: Input)
    requires WellFormed(a) && WellFormed(b) && Reordered(a, b)
    ensures AllVerdicts(a.occurrences) == AllVerdicts(b.occurrences)
  {
    forall k | 0 <= k < |a.occurrences|
      ensures VerdictsOf(a.occurrences[k].outcomes) == VerdictsOf(b.occurrences[k].outcomes)
    {
      VerdictsIgnoreOrder(a.occurrences[k].outcomes, b.occurrences[k].outcomes);
    }
  }

  /** Two inputs that list the same members and outcomes in different orders settle every member alike,
      in every occurrence and in total. */
  lemma SettlementIgnoresOrder(a: Input, b: Input, i: nat, j: nat, k: nat)
    requires WellFormed(a) && WellFormed(b) && Reordered(a, b)
    requires i < |a.members| && j < |b.members| && a.members[i].id == b.members[j].id
    requires k < |a.occurrences|
    ensures SettlementOf(a).members[i] == SettlementOf(b).members[j]
    ensures SettlementOf(a).occurrences[k].outcomes[i] == SettlementOf(b).occurrences[k].outcomes[j]
    ensures SettlementOf(a).totalPayout == SettlementOf(b).totalPayout
  {
    ReorderedVerdicts(a, b);
    assert AllVerdicts(a.occurrences)[k] == AllVerdicts(b.occurrences)[k];
    assert a.members[i] in a.members && b.members[j] in b.members;
    assert |a.members| == |multiset(a.members)| == |multiset(b.members)| == |b.members|;
  }
}
