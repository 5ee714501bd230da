/** What the postings of a settlement do to every account: they empty the participant, occurrence and bonus
    accounts into the payout liabilities. */
module SettlementPostings {
  import opened Basics
  import opened Ledger
  import opened S = SettlementRules
  import opened Finalization
  import Invariants

  // ---------------------------------------------------------------------------------------------
  // One outcome.
  // ---------------------------------------------------------------------------------------------

  lemma NetOfSingle(e: Entry, a: Account)
    ensures Net([e], a) == Effect(e, a)
  {
    NetOfOne([], e, a);
    assert [] + [e] == [e];
  }

  lemma NetOfIfPositive(e: Entry, a: Account)
    requires e.amount >= 0
    ensures Net(IfPositive(e), a) == Effect(e, a)
  {
    NetOfSingle(e, a);
  }

  lemma NetOfFive(b0: Book, b1: Book, b2: Book, b3: Book, b4: Book, a: Account)
    ensures Net(b0 + b1 + b2 + b3 + b4, a) == Net(b0, a) + Net(b1, a) + Net(b2, a) + Net(b3, a) + Net(b4, a)
  {
    NetOfMany(b0, b1, a);
    NetOfMany(b0 + b1, b2, a);
    NetOfMany(b0 + b1 + b2, b3, a);
    NetOfMany(b0 + b1 + b2 + b3, b4, a);
  }

  /** What an outcome of member `m` in occurrence `o` does to an account. */
  function OutcomeNet(slice: int, o: Id, m: Id, amounts: Amounts, a: Account): int {
    match a
    case Participant(n) => if n == m then -slice else 0
    case OccurrenceShare(p, n) => if p == o && n == m then slice - amounts.principal - amounts.forfeiture else 0
    case BonusPool(p) => if p == o then amounts.forfeiture - amounts.restoration - amounts.bonus else 0
    case PayoutDue(n) => if n == m then amounts.principal + amounts.restoration + amounts.bonus else 0
    case _ => 0
  }

  predicate NonNegative(amounts: Amounts) {
    amounts.principal >= 0 && amounts.forfeiture >= 0 && amounts.restoration >= 0 && amounts.bonus >= 0
  }

  lemma NetOfOutcome(slice: int, o: Id, r: OutcomeResult, a: Account)
    requires NonNegative(r.amounts)
    ensures Net(OutcomePostings(slice, o, r), a) == OutcomeNet(slice, o, r.member, r.amounts, a)
  {
    hide Net, IfPositive;
    var m, amounts := r.member, r.amounts;
    var e0 := Entry(PrincipalAllocation(o, m), Participant(m), OccurrenceShare(o, m), slice);
    var e1 := Entry(PrincipalProtection(o, m), OccurrenceShare(o, m), PayoutDue(m), amounts.principal);
    var e2 := Entry(ProvisionalForfeiture(o, m), OccurrenceShare(o, m), BonusPool(o), amounts.forfeiture);
    var e3 := Entry(ZeroRecipientRestoration(o, m), BonusPool(o), PayoutDue(m), amounts.restoration);
    var e4 := Entry(BonusEntitlement(o, m), BonusPool(o), PayoutDue(m), amounts.bonus);
    NetOfSingle(e0, a);
    NetOfIfPositive(e1, a);
    NetOfIfPositive(e2, a);
    NetOfIfPositive(e3, a);
    NetOfIfPositive(e4, a);
    NetOfFive([e0], IfPositive(e1), IfPositive(e2), IfPositive(e3), IfPositive(e4), a);
  }

  // ---------------------------------------------------------------------------------------------
  // One occurrence.
  // ---------------------------------------------------------------------------------------------

  /** The outcomes are those of the members, in their order, by the rules. */
  predicate ByRule(v: Verdicts, slice: int, members: seq<MemberInput>, outcomes: seq<OutcomeResult>) {
    && |outcomes| == |members|
    && (forall j | 0 <= j < |members| ::
          members[j].id in v && outcomes[j] == OutcomeResultFor(v, slice, members[j].id))
  }

  function MemberNet(v: Verdicts, slice: int, o: Id, a: Account): Id -> int {
    (m: Id) => OutcomeNet(slice, o, m, AmountsOf(v, slice, m), a)
  }

  lemma AmountsAreNonNegative(v: Verdicts, slice: int, m: Id)
    requires slice >= 0
    ensures NonNegative(AmountsOf(v, slice, m))
  {
    BonusIsNonNegative(v, slice, m);
  }

  lemma {:induction false} NetOfOccurrence(v: Verdicts, slice: int, o: Id, members: seq<MemberInput>,
                                           outcomes: seq<OutcomeResult>, a: Account)
    requires slice >= 0 && DistinctMembers(members) && ByRule(v, slice, members, outcomes)
    ensures Net(OccurrencePostings(slice, o, outcomes), a) == SumOver(MemberIds(members), MemberNet(v, slice, o, a))
    decreases |members|
  {
    hide OutcomePostings, OutcomeNet, AmountsOf, DistinctMembers;
    if members != [] {
      var k := |members| - 1;
      var init, last := members[..k], members[k];
      LastMember(members);
      NetOfOccurrence(v, slice, o, init, outcomes[..k], a);
      NetOfMany(OccurrencePostings(slice, o, outcomes[..k]), OutcomePostings(slice, o, outcomes[k]), a);
      AmountsAreNonNegative(v, slice, last.id);
      NetOfOutcome(slice, o, outcomes[k], a);
      SumOverAdd(MemberIds(init), MemberNet(v, slice, o, a), last.id);
    }
  }

  lemma LastMember(members: seq<MemberInput>)
    requires members != [] && DistinctMembers(members)
    ensures var k := |members| - 1;
            && DistinctMembers(members[..k])
            && members[k].id !in MemberIds(members[..k])
            && MemberIds(members) == MemberIds(members[..k]) + {members[k].id}
  {
    var k := |members| - 1;
    assert members == members[..k] + [members[k]];
  }

  /** What an occurrence does to an account in the end. */
  function OccurrenceNet(v: Verdicts, slice: int, ids: set<Id>, a: Account): int {
    match a
    case Participant(n) => if n in ids then -slice else 0
    case PayoutDue(n) => if n in ids then Payout(v, slice, n) else 0
    case _ => 0
  }

  /** A sum with one term. */
  lemma SumOfOne(s: set<Id>, f: Id -> int, n: Id)
    requires forall m | m in s && m != n :: f(m) == 0
    ensures SumOver(s, f) == if n in s then f(n) else 0
  {
    if n in s {
      SumOverRemove(s, f, n);
    }
    SumOverConstant(s - {n}, f, 0);
    assert n !in s ==> s - {n} == s;
  }

  lemma SlicesAreSplit(v: Verdicts, slice: int, m: Id)
    requires m in v
    ensures Principal(v, slice, m) + Forfeiture(v, slice, m) == slice
  {
    match v[m] {
      case Approved => case TimeoutProtected => case Rejected => case Missed =>
    }
  }

  /** The bonus pool of an occurrence receives the forfeited slices and gives them all back. */
  lemma PoolIsEmptied(v: Verdicts, slice: int, o: Id)
    requires slice >= 0
    ensures SumOver(v.Keys, MemberNet(v, slice, o, BonusPool(o))) == 0
  {
    var into := m => Forfeiture(v, slice, m);
    var back := m => Restoration(v, slice, m) + Bonus(v, slice, m);
    var forfeits := Forfeits(v);
    SumOverPlus(v.Keys, MemberNet(v, slice, o, BonusPool(o)), back, into);
    ForfeitsComeBack(v, slice);
    SumOverSplit(v.Keys, forfeits, into);
    SumOverConstant(forfeits, into, slice);
    SumOverConstant(v.Keys - forfeits, into, 0);
  }

  lemma OccurrenceShifts(v: Verdicts, slice: int, o: Id, a: Account)
    requires slice >= 0
    ensures SumOver(v.Keys, MemberNet(v, slice, o, a)) == OccurrenceNet(v, slice, v.Keys, a)
  {
    hide SumOver;
    var f := MemberNet(v, slice, o, a);
    match a {
      case Participant(n) => SumOfOne(v.Keys, f, n);
      case PayoutDue(n) => SumOfOne(v.Keys, f, n);
      case OccurrenceShare(p, n) =>
        SumOfOne(v.Keys, f, n);
        if n in v { SlicesAreSplit(v, slice, n); }
      case BonusPool(p) =>
        if p == o { PoolIsEmptied(v, slice, o); } else { SumOverConstant(v.Keys, f, 0); }
      case _ => SumOverConstant(v.Keys, f, 0);
    }
  }

  // ---------------------------------------------------------------------------------------------
  // All occurrences.
  // ---------------------------------------------------------------------------------------------

  /** The first `k` occurrence results follow the rules. */
  predicate AllByRule(vs: seq<Verdicts>, slice: int, members: seq<MemberInput>, results: seq<OccurrenceResult>) {
    && |results| == |vs|
    && (forall k | 0 <= k < |vs| ::
          vs[k].Keys == MemberIds(members) && ByRule(vs[k], slice, members, results[k].outcomes))
  }

  /** What a settlement does to an account: each member's deposit leaves, each member's payout arrives, and the
      occurrence and bonus accounts in between end as they began. */
  function SettlementNet(vs: seq<Verdicts>, slice: int, ids: set<Id>, a: Account): int {
    match a
    case Participant(n) => if n in ids then -(slice * |vs|) else 0
    case PayoutDue(n) => if n in ids then TotalOf(vs, slice, n).payout else 0
    case _ => 0
  }

  lemma SettlementNetStep(vs: seq<Verdicts>, slice: int, ids: set<Id>, a: Account)
    requires vs != []
    ensures var k := |vs| - 1;
            SettlementNet(vs, slice, ids, a) ==
              SettlementNet(vs[..k], slice, ids, a) + OccurrenceNet(vs[k], slice, ids, a)
  {
    MultiplyAdd(|vs| - 1, 1, slice);
  }

  lemma {:induction false} NetOfPostings(vs: seq<Verdicts>, slice: int, members: seq<MemberInput>,
                                         results: seq<OccurrenceResult>, a: Account)
    requires slice >= 0 && DistinctMembers(members) && AllByRule(vs, slice, members, results)
    ensures Net(Postings(slice, results), a) == SettlementNet(vs, slice, MemberIds(members), a)
    decreases |vs|
  {
    hide OccurrencePostings, ByRule, OccurrenceNet, DistinctMembers, MemberIds;
    if vs != [] {
      var k := |vs| - 1;
      NetOfPostings(vs[..k], slice, members, results[..k], a);
      NetOfMany(Postings(slice, results[..k]), OccurrencePostings(slice, results[k].id, results[k].outcomes), a);
      NetOfOccurrence(vs[k], slice, results[k].id, members, results[k].outcomes, a);
      OccurrenceShifts(vs[k], slice, results[k].id, a);
      SettlementNetStep(vs, slice, MemberIds(members), a);
    }
  }

  // ---------------------------------------------------------------------------------------------
  // Idempotency keys.
  // ---------------------------------------------------------------------------------------------

  /** All entries are settlement entries of occurrence `o` for members in `ids`, with different keys. */
  ghost predicate KeyedBy(book: Book, o: Id, ids: set<Id>) {
    && Invariants.DistinctKeys(book)
    && (forall k | k in Keys(book) :: Invariants.SettlementKey(k) && k.occurrence == o && k.membership in ids)
  }

  lemma DistinctJoin(a: Book, b: Book)
    requires Invariants.DistinctKeys(a) && Invariants.DistinctKeys(b) && Keys(a) !! Keys(b)
    ensures Invariants.DistinctKeys(a + b)
  {
    forall i, j | 0 <= i < j < |a + b| ensures (a + b)[i].key != (a + b)[j].key {
      if i < |a| <= j {
        assert a[i].key in Keys(a) && b[j - |a|].key in Keys(b);
      }
    }
  }

  lemma OutcomeKeys(slice: int, o: Id, r: OutcomeResult)
    ensures KeyedBy(OutcomePostings(slice, o, r), o, {r.member})
  {
  }

  /** One outcome per member, in their order. */
  predicate NamesMembers(outcomes: seq<OutcomeResult>, members: seq<MemberInput>) {
    && |outcomes| == |members|
    && (forall j | 0 <= j < |members| :: outcomes[j].member == members[j].id)
  }

  lemma LastOutcome(outcomes: seq<OutcomeResult>, members: seq<MemberInput>)
    requires members != [] && NamesMembers(outcomes, members)
    ensures var k := |members| - 1;
            && |outcomes| == |members|
            && NamesMembers(outcomes[..k], members[..k])
            && outcomes[k].member == members[k].id
  {
  }

  lemma KeyedByJoin(a: Book, b: Book, o: Id, ids: set<Id>, m: Id)
    requires KeyedBy(a, o, ids) && KeyedBy(b, o, {m}) && m !in ids
    ensures KeyedBy(a + b, o, ids + {m})
  {
    hide Invariants.DistinctKeys, Keys;
    KeysOfMany(a, b);
    DistinctJoin(a, b);
  }

  lemma NothingKeyed(o: Id, ids: set<Id>)
    ensures KeyedBy([], o, ids)
  {
  }

  lemma {:induction false} OccurrenceKeys(slice: int, o: Id, members: seq<MemberInput>, outcomes: seq<OutcomeResult>)
    requires DistinctMembers(members) && NamesMembers(outcomes, members)
    ensures KeyedBy(OccurrencePostings(slice, o, outcomes), o, MemberIds(members))
    decreases |members|
  {
    hide OutcomePostings, KeyedBy, MemberIds, DistinctMembers;
    if members == [] {
      NothingKeyed(o, MemberIds(members));
    } else {
      var k := |members| - 1;
      LastMember(members);
      LastOutcome(outcomes, members);
      OccurrenceKeys(slice, o, members[..k], outcomes[..k]);
      OutcomeKeys(slice, o, outcomes[k]);
      KeyedByJoin(OccurrencePostings(slice, o, outcomes[..k]), OutcomePostings(slice, o, outcomes[k]), o,
                  MemberIds(members[..k]), members[k].id);
    }
  }

  /** All entries are settlement entries of the listed occurrences, with different keys. */
  ghost predicate KeyedByAll(book: Book, ids: set<Id>) {
    && Invariants.DistinctKeys(book)
    && (forall k | k in Keys(book) :: Invariants.SettlementKey(k) && k.occurrence in ids)
  }

  function ResultIds(results: seq<OccurrenceResult>): set<Id> {
    set r | r in results :: r.id
  }

  /** Results of different occurrences, each naming the members in order. */
  predicate ResultsInOrder(results: seq<OccurrenceResult>, members: seq<MemberInput>) {
    && (forall i, j | 0 <= i < j < |results| :: results[i].id != results[j].id)
    && (forall k | 0 <= k < |results| :: NamesMembers(results[k].outcomes, members))
  }

  lemma LastResult(results: seq<OccurrenceResult>, members: seq<MemberInput>)
    requires results != [] && ResultsInOrder(results, members)
    ensures var k := |results| - 1;
            && ResultsInOrder(results[..k], members)
            && NamesMembers(results[k].outcomes, members)
            && results[k].id !in ResultIds(results[..k])
            && ResultIds(results) == ResultIds(results[..k]) + {results[k].id}
  {
    var k := |results| - 1;
    assert results == results[..k] + [results[k]];
  }

  lemma KeyedByAllJoin(a: Book, b: Book, ids: set<Id>, o: Id, members: set<Id>)
    requires KeyedByAll(a, ids) && KeyedBy(b, o, members) && o !in ids
    ensures KeyedByAll(a + b, ids + {o})
  {
    hide Invariants.DistinctKeys, Keys;
    KeysOfMany(a, b);
    DistinctJoin(a, b);
  }

  lemma NothingKeyedAtAll(ids: set<Id>)
    ensures KeyedByAll([], ids)
  {
  }

  lemma {:induction false} PostingKeys(slice: int, members: seq<MemberInput>, results: seq<OccurrenceResult>)
    requires DistinctMembers(members) && ResultsInOrder(results, members)
    ensures KeyedByAll(Postings(slice, results), ResultIds(results))
    decreases |results|
  {
    hide OccurrencePostings, KeyedBy, KeyedByAll, ResultsInOrder, NamesMembers, ResultIds, DistinctMembers, MemberIds;
    if results == [] {
      NothingKeyedAtAll(ResultIds(results));
    } else {
      var k := |results| - 1;
      LastResult(results, members);
      PostingKeys(slice, members, results[..k]);
      OccurrenceKeys(slice, results[k].id, members, results[k].outcomes);
      KeyedByAllJoin(Postings(slice, results[..k]), OccurrencePostings(slice, results[k].id, results[k].outcomes),
                     ResultIds(results[..k]), results[k].id, MemberIds(members));
    }
  }
}
