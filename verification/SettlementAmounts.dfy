/** The amounts of a settlement read off its input: what each verdict is worth, and the totals as sums. */
module SettlementAmounts {
  import opened Basics
  import opened SettlementRules

  // ---------------------------------------------------------------------------------------------
  // One outcome.
  // ---------------------------------------------------------------------------------------------

  /** The members an occurrence ended for in one of these states. */
  function Ended(outcomes: seq<OutcomeInput>, states: set<OutcomeState>): set<Id> {
    set o | o in outcomes && o.state in states :: o.member
  }

  /** What a member gets who ended in this state, next to `approved` others and `lost` slices in the pool. */
  predicate Worth(state: OutcomeState, slice: int, approved: nat, lost: nat, a: Amounts) {
    match state
    case Approved =>
      && approved > 0 && a.principal == slice && a.forfeiture == 0 && a.restoration == 0
      && a.bonus - lost * slice / approved in {0, 1} && a.payout == slice + a.bonus
    case TimeoutProtected => a == Amounts(slice, 0, 0, 0, slice)
    case _ => a == if approved == 0 then Amounts(0, slice, slice, 0, slice) else Amounts(0, slice, 0, 0, 0)
  }

  lemma EndedAre(outcomes: seq<OutcomeInput>)
    requires DistinctOutcomes(outcomes)
    ensures Approvals(VerdictsOf(outcomes)) == Ended(outcomes, {Approved})
    ensures Forfeits(VerdictsOf(outcomes)) == Ended(outcomes, {Rejected, Missed})
  {
    hide VerdictsOf, DistinctOutcomes;
    var v := VerdictsOf(outcomes);
    forall m ensures m in Approvals(v) <==> m in Ended(outcomes, {Approved}) {
      VerdictsLookUp(outcomes, m, Approved);
      assert m in Ended(outcomes, {Approved}) <==> OutcomeInput(m, Approved) in outcomes;
    }
    forall m ensures m in Forfeits(v) <==> m in Ended(outcomes, {Rejected, Missed}) {
      VerdictsLookUp(outcomes, m, Rejected);
      VerdictsLookUp(outcomes, m, Missed);
      assert m in Ended(outcomes, {Rejected, Missed})
        <==> OutcomeInput(m, Rejected) in outcomes || OutcomeInput(m, Missed) in outcomes;
    }
  }

  lemma AmountsAreWorth(v: Verdicts, slice: int, m: Id)
    requires m in v
    ensures Worth(v[m], slice, |Approvals(v)|, |Forfeits(v)|, AmountsOf(v, slice, m))
  {
    if Approvals(v) == {} {
      assert m !in Approvals(v);
    } else {
      assert |Approvals(v)| > 0;
    }
  }

  /** An accepted input: the occurrence results of its settlement are about the same occurrences and members, each
      outcome repeats the given verdict, and its amounts are what that verdict is worth. */
  lemma OutcomeIsWorth(input: Input, k: nat, i: nat)
    requires WellFormed(input) && k < |input.occurrences| && i < |input.members|
    ensures |SettlementOf(input).occurrences| == |input.occurrences|
    ensures var result, given := SettlementOf(input).occurrences[k], input.occurrences[k].outcomes;
            var approved, lost := |Ended(given, {Approved})|, |Ended(given, {Rejected, Missed})|;
            && result.id == input.occurrences[k].id && |result.outcomes| == |input.members|
            && result.pool == lost * input.slice && result.recipients == approved
            && result.state == (if approved > 0 then Closed else ClosedNoBonusRecipient)
            && result.outcomes[i].member == input.members[i].id
            && OutcomeInput(result.outcomes[i].member, result.outcomes[i].state) in given
            && Worth(result.outcomes[i].state, input.slice, approved, lost, result.outcomes[i].amounts)
  {
    hide VerdictsOf, AmountsOf, Worth, TotalOf, DistinctOutcomes;
    var given, m := input.occurrences[k].outcomes, input.members[i].id;
    assert input.occurrences[k] in input.occurrences && input.members[i] in input.members;
    VerdictsCoverOutcomes(given);
    EndedAre(given);
    AmountsAreWorth(VerdictsOf(given), input.slice, m);
    VerdictsLookUp(given, m, VerdictsOf(given)[m]);
    NoneIsEmpty(Approvals(VerdictsOf(given)));
  }

  lemma NoneIsEmpty(s: set<Id>)
    ensures s == {} <==> |s| == 0
  {
  }

  // ---------------------------------------------------------------------------------------------
  // The totals.
  // ---------------------------------------------------------------------------------------------

  /** The positions in a list of this length. */
  function Positions(n: nat): (r: set<nat>)
    ensures forall k: nat :: k in r <==> k < n
  {
    if n == 0 then {} else Positions(n - 1) + {n - 1}
  }

  /** The amounts of member `i` in occurrence `k`. */
  function AmountsAt(s: Settlement, i: nat, k: nat): Amounts {
    if k < |s.occurrences| && i < |s.occurrences[k].outcomes| then s.occurrences[k].outcomes[i].amounts else NO_AMOUNTS
  }

  lemma {:induction false} PositionCount(n: nat)
    ensures |Positions(n)| == n
  {
    if n > 0 { PositionCount(n - 1); }
  }

  ghost predicate Additive(f: Amounts -> int) {
    && f(NO_AMOUNTS) == 0
    && (forall a: Amounts, b: Amounts {:trigger a.Plus(b)} :: f(a.Plus(b)) == f(a) + f(b))
  }

  /** Any additive reading of a total is the sum of its readings. */
  lemma {:induction false} TotalIsSum(vs: seq<Verdicts>, slice: int, m: Id, f: Amounts -> int, g: nat -> int)
    requires Additive(f) && forall k: nat | k < |vs| :: g(k) == f(AmountsOf(vs[k], slice, m))
    ensures f(TotalOf(vs, slice, m)) == SumOver(Positions(|vs|), g)
  {
    hide AmountsOf;
    if vs != [] {
      var n: nat := |vs| - 1;
      TotalIsSum(vs[..n], slice, m, f, g);
      SumOverAdd(Positions(n), g, n);
      assert TotalOf(vs, slice, m) == TotalOf(vs[..n], slice, m).Plus(AmountsOf(vs[n], slice, m));
    }
  }

  lemma AmountsAtIs(input: Input, i: nat, k: nat)
    requires WellFormed(input) && k < |input.occurrences| && i < |input.members|
    ensures k < |AllVerdicts(input.occurrences)|
    ensures AmountsAt(SettlementOf(input), i, k)
         == AmountsOf(AllVerdicts(input.occurrences)[k], input.slice, input.members[i].id)
  {
    hide VerdictsOf, AmountsOf, TotalOf, DistinctOutcomes;
    assert input.occurrences[k] in input.occurrences && input.members[i] in input.members;
    assert SettlementOf(input).occurrences[k] == OccurrenceResultFor(input.occurrences[k], input.slice, input.members);
    VerdictsCoverOutcomes(input.occurrences[k].outcomes);
    assert SettlementOf(input).occurrences[k].outcomes[i]
        == OutcomeResultFor(VerdictsOf(input.occurrences[k].outcomes), input.slice, input.members[i].id);
  }

  lemma FieldIsSum(input: Input, i: nat, f: Amounts -> int, g: nat -> int)
    requires WellFormed(input) && i < |input.members| && Additive(f)
    requires forall k: nat | k < |input.occurrences| :: g(k) == f(AmountsAt(SettlementOf(input), i, k))
    ensures f(SettlementOf(input).members[i].amounts) == SumOver(Positions(|input.occurrences|), g)
  {
    hide AmountsOf, TotalOf, AmountsAt, Additive, WellFormed;
    forall k: nat | k < |input.occurrences|
      ensures g(k) == f(AmountsOf(AllVerdicts(input.occurrences)[k], input.slice, input.members[i].id))
    {
      AmountsAtIs(input, i, k);
    }
    TotalIsSum(AllVerdicts(input.occurrences), input.slice, input.members[i].id, f, g);
  }

  /** Each of the five totals of a member is the sum of that amount over the occurrences. */
  lemma TotalsAreSums(input: Input, i: nat)
    requires WellFormed(input) && i < |input.members|
    ensures var s, all := SettlementOf(input), Positions(|input.occurrences|);
            && s.members[i].id == input.members[i].id && s.members[i].deposit == input.members[i].deposit
            && s.members[i].amounts.principal == SumOver(all, (k: nat) => AmountsAt(s, i, k).principal)
            && s.members[i].amounts.forfeiture == SumOver(all, (k: nat) => AmountsAt(s, i, k).forfeiture)
            && s.members[i].amounts.restoration == SumOver(all, (k: nat) => AmountsAt(s, i, k).restoration)
            && s.members[i].amounts.bonus == SumOver(all, (k: nat) => AmountsAt(s, i, k).bonus)
            && s.members[i].amounts.payout == SumOver(all, (k: nat) => AmountsAt(s, i, k).payout)
  {
    hide AmountsOf, TotalOf, AmountsAt, WellFormed;
    var s := SettlementOf(input);
    FieldIsSum(input, i, (a: Amounts) => a.principal, (k: nat) => AmountsAt(s, i, k).principal);
    FieldIsSum(input, i, (a: Amounts) => a.forfeiture, (k: nat) => AmountsAt(s, i, k).forfeiture);
    FieldIsSum(input, i, (a: Amounts) => a.restoration, (k: nat) => AmountsAt(s, i, k).restoration);
    FieldIsSum(input, i, (a: Amounts) => a.bonus, (k: nat) => AmountsAt(s, i, k).bonus);
    FieldIsSum(input, i, (a: Amounts) => a.payout, (k: nat) => AmountsAt(s, i, k).payout);
  }

  // ---------------------------------------------------------------------------------------------
  // What the verdicts of a member add up to.
  // ---------------------------------------------------------------------------------------------

  /** The verdict given on a member in an occurrence. */
  predicate Given(input: Input, k: nat, m: Id, states: set<OutcomeState>) {
    k < |input.occurrences| && exists o :: o in input.occurrences[k].outcomes && o.member == m && o.state in states
  }

  /** In how many occurrences the member ended in one of these states. */
  function GivenIn(input: Input, m: Id, states: set<OutcomeState>): set<nat> {
    set k | k in Positions(|input.occurrences|) && Given(input, k, m, states)
  }

  /** The occurrences nobody is approved in. */
  function Unapproved(input: Input): set<nat> {
    set k | k in Positions(|input.occurrences|) && Ended(input.occurrences[k].outcomes, {Approved}) == {}
  }

  const KEPT: set<OutcomeState> := {Approved, TimeoutProtected}
  const LOST: set<OutcomeState> := {Rejected, Missed}

  /** A sum that is `c` on some positions and nothing on the others. */
  lemma SumOfSome(all: set<nat>, some: set<nat>, f: nat -> int, c: int)
    requires some <= all && forall k | k in all :: f(k) == if k in some then c else 0
    ensures SumOver(all, f) == |some| * c
  {
    SumOverSplit(all, some, f);
    SumOverConstant(some, f, c);
    SumOverConstant(all - some, f, 0);
  }

  /** One occurrence in terms of the verdict given there. */
  lemma AmountsByVerdict(input: Input, i: nat, k: nat)
    requires WellFormed(input) && k < |input.occurrences| && i < |input.members|
    ensures var a, m := AmountsAt(SettlementOf(input), i, k), input.members[i].id;
            && Given(input, k, m, KEPT) == !Given(input, k, m, LOST)
            && a.principal == (if Given(input, k, m, KEPT) then input.slice else 0)
            && a.forfeiture == (if Given(input, k, m, LOST) then input.slice else 0)
            && a.restoration == (if Given(input, k, m, LOST) && k in Unapproved(input) then input.slice else 0)
            && (if Given(input, k, m, {Approved}) then a.bonus >= 0 else a.bonus == 0)
            && a.payout == a.principal + a.restoration + a.bonus
  {
    hide WellFormed, TotalOf, AmountsOf, SettlementOf;
    OutcomeIsWorth(input, k, i);
    var given := input.occurrences[k].outcomes;
    var r := SettlementOf(input).occurrences[k].outcomes[i];
    AboutInput(input, k);
    OneVerdict(given, r.member, r.state);
    NoneIsEmpty(Ended(given, {Approved}));
    if r.state == Approved { QuotientIsNonNegative(|Ended(given, LOST)|, input.slice, |Ended(given, {Approved})|); }
  }

  lemma AboutInput(input: Input, k: nat)
    requires WellFormed(input) && k < |input.occurrences|
    ensures input.slice > 0 && DistinctOutcomes(input.occurrences[k].outcomes)
  {
    assert input.occurrences[k] in input.occurrences;
  }

  lemma OneVerdict(outcomes: seq<OutcomeInput>, m: Id, state: OutcomeState)
    requires DistinctOutcomes(outcomes) && OutcomeInput(m, state) in outcomes
    ensures forall o | o in outcomes && o.member == m :: o.state == state
  {
  }

  lemma QuotientIsNonNegative(lost: nat, slice: int, approved: nat)
    requires slice > 0 && approved > 0
    ensures lost * slice / approved >= 0
  {
  }

  /** A member keeps a slice for every occurrence that ended approved or protected and forfeits one for every other,
      which together make up the deposit; forfeited slices come back where nobody is approved; bonuses are only for
      approvals; and the payout is what was kept, came back and was won. */
  lemma TotalsByVerdicts(input: Input, i: nat)
    requires WellFormed(input) && i < |input.members|
    ensures var a, m := SettlementOf(input).members[i].amounts, input.members[i].id;
            && a.principal == |GivenIn(input, m, KEPT)| * input.slice
            && a.forfeiture == |GivenIn(input, m, LOST)| * input.slice
            && a.principal + a.forfeiture == input.members[i].deposit == SettlementOf(input).members[i].deposit
            && a.restoration == |GivenIn(input, m, LOST) * Unapproved(input)| * input.slice
            && (if GivenIn(input, m, {Approved}) == {} then a.bonus == 0 else a.bonus >= 0)
            && a.payout == a.principal + a.restoration + a.bonus
  {
    hide WellFormed, SettlementOf, AmountsAt, Given, Unapproved;
    var s, all, m := SettlementOf(input), Positions(|input.occurrences|), input.members[i].id;
    forall k: nat | k < |input.occurrences| { AmountsByVerdict(input, i, k); }
    TotalsAreSums(input, i);
    SumOfSome(all, GivenIn(input, m, KEPT), (k: nat) => AmountsAt(s, i, k).principal, input.slice);
    SumOfSome(all, GivenIn(input, m, LOST), (k: nat) => AmountsAt(s, i, k).forfeiture, input.slice);
    SumOfSome(all, GivenIn(input, m, LOST) * Unapproved(input), (k: nat) => AmountsAt(s, i, k).restoration,
              input.slice);
    BonusTotal(input, i);
    PayoutTotal(input, i);
    DepositIsKeptAndLost(input, i);
  }

  lemma BonusTotal(input: Input, i: nat)
    requires WellFormed(input) && i < |input.members|
    ensures var bonus := SettlementOf(input).members[i].amounts.bonus;
            if GivenIn(input, input.members[i].id, {Approved}) == {} then bonus == 0 else bonus >= 0
  {
    hide WellFormed, SettlementOf, AmountsAt, Given, Unapproved;
    var s, all, m := SettlementOf(input), Positions(|input.occurrences|), input.members[i].id;
    TotalsAreSums(input, i);
    forall k: nat | k < |input.occurrences| { AmountsByVerdict(input, i, k); }
    if GivenIn(input, m, {Approved}) == {} {
      forall k | k in all ensures AmountsAt(s, i, k).bonus == 0 {
        assert k !in GivenIn(input, m, {Approved});
      }
      SumOverConstant(all, (k: nat) => AmountsAt(s, i, k).bonus, 0);
    } else {
      SumOverNonNegative(all, (k: nat) => AmountsAt(s, i, k).bonus);
    }
  }

  lemma PayoutTotal(input: Input, i: nat)
    requires WellFormed(input) && i < |input.members|
    ensures var a := SettlementOf(input).members[i].amounts; a.payout == a.principal + a.restoration + a.bonus
  {
    hide WellFormed, SettlementOf, AmountsAt, Given, Unapproved;
    var s, all := SettlementOf(input), Positions(|input.occurrences|);
    TotalsAreSums(input, i);
    forall k: nat | k < |input.occurrences| { AmountsByVerdict(input, i, k); }
    var kept := (k: nat) => AmountsAt(s, i, k).principal + AmountsAt(s, i, k).restoration;
    SumOverPlus(all, (k: nat) => AmountsAt(s, i, k).principal, (k: nat) => AmountsAt(s, i, k).restoration, kept);
    SumOverPlus(all, kept, (k: nat) => AmountsAt(s, i, k).bonus, (k: nat) => AmountsAt(s, i, k).payout);
  }

  lemma DepositIsKeptAndLost(input: Input, i: nat)
    requires WellFormed(input) && i < |input.members|
    ensures var a := SettlementOf(input).members[i].amounts;
            a.principal + a.forfeiture == input.members[i].deposit
  {
    hide SettlementOf, AmountsAt, Given, Unapproved, CompleteOutcomes;
    var s, all := SettlementOf(input), Positions(|input.occurrences|);
    TotalsAreSums(input, i);
    forall k: nat | k < |input.occurrences| { AmountsByVerdict(input, i, k); }
    SumOverPlus(all, (k: nat) => AmountsAt(s, i, k).principal, (k: nat) => AmountsAt(s, i, k).forfeiture,
                (k: nat) => input.slice);
    SumOverConstant(all, (k: nat) => input.slice, input.slice);
    PositionCount(|input.occurrences|);
    assert input.members[i] in input.members;
  }
}
