/** The cutoff repository as it runs: the credited deposits are selected, sorted in place by chain position, and
    applied or refunded one by one. */
module CutoffRepository {
  import opened Basics
  import opened Ledger
  import opened Rows
  import opened Database
  import opened Cutoff
  import opened CutoffFates
  import CutoffRows
  import I = Invariants
  import T = Transactions

  /** The rows a query returns, in an order of its own. */
  method Select(s: set<Id>) returns (list: seq<Id>)
    ensures Enumerates(list, s)
  {
    list := [];
    var rest := s;
    while rest != {}
      invariant rest <= s && Enumerates(list, s - rest)
      decreases |rest|
    {
      var i :| i in rest;
      ghost var before := list;
      list := list + [i];
      assert Elements(list) == Elements(before) + {i};
      rest := rest - {i};
      assert s - rest == Elements(list);
    }
  }

  // ---------------------------------------------------------------------------------------------
  // Sorting.
  // ---------------------------------------------------------------------------------------------

  /** No listed deposit comes before one that precedes it, and none is listed twice. */
  ghost predicate Ascending(intents: map<Id, Intent>, r: seq<Id>) {
    && (forall i | i in r :: i in intents)
    && (forall j, k | 0 <= j < k < |r| :: r[j] != r[k] && !Precedes(intents[r[k]], intents[r[j]]))
  }

  /** Inserting before the first deposit it precedes keeps the order. */
  lemma InsertKeepsOrder(intents: map<Id, Intent>, r: seq<Id>, x: Id, j: nat)
    requires Ascending(intents, r) && x in intents && x !in r && j <= |r|
    requires j > 0 ==> !Precedes(intents[x], intents[r[j - 1]])
    requires forall k | j <= k < |r| :: Precedes(intents[x], intents[r[k]])
    ensures Ascending(intents, r[..j] + [x] + r[j..])
  {
    var s := r[..j] + [x] + r[j..];
    forall a, b | 0 <= a < b < |s| ensures s[a] != s[b] && !Precedes(intents[s[b]], intents[s[a]]) {
      if a < j {
        assert s[a] == r[a];
        if b == j { assert s[b] == x; EarlierToo(intents, r, x, j, a); }
        else if b < j { assert s[b] == r[b]; }
        else { assert s[b] == r[b - 1]; }
      } else if a == j {
        assert s[a] == x && s[b] == r[b - 1];
      } else {
        assert s[a] == r[a - 1] && s[b] == r[b - 1];
      }
    }
  }

  /** What does not precede the last one precedes none of the earlier ones. */
  lemma EarlierToo(intents: map<Id, Intent>, r: seq<Id>, x: Id, j: nat, a: nat)
    requires Ascending(intents, r) && x in intents && a < j <= |r|
    requires !Precedes(intents[x], intents[r[j - 1]])
    ensures r[a] in intents && !Precedes(intents[x], intents[r[a]])
  {
    assert r[j - 1] in r && r[a] in r;
    if a < j - 1 { assert !Precedes(intents[r[j - 1]], intents[r[a]]); }
  }

  /** One turn of the sort: element `i` moves down to its place among the first `i`. */
  method InsertInPlace(valid: array<Id>, i: nat, intents: map<Id, Intent>)
    requires i < valid.Length && Ascending(intents, valid[..i]) && valid[i] in intents && valid[i] !in valid[..i]
    modifies valid
    ensures Ascending(intents, valid[..i + 1])
    ensures Elements(valid[..i + 1]) == Elements(old(valid[..i + 1]))
    ensures valid[i + 1..] == old(valid[i + 1..])
  {
    ghost var r := valid[..i];
    ghost var rest := valid[i + 1..];
    var x := valid[i];
    var j := i;
    hide Precedes;
    while j > 0 && Precedes(intents[x], intents[valid[j - 1]])
      invariant 0 <= j <= i
      invariant valid[..j] == r[..j] && valid[j + 1..i + 1] == r[j..] && valid[i + 1..] == rest
      invariant forall k | j <= k < i :: r[k] in intents && Precedes(intents[x], intents[r[k]])
    {
      assert valid[j - 1] == r[j - 1] && r[j - 1] in r;
      ghost var tail := valid[j + 1..i + 1];
      valid[j] := valid[j - 1];
      j := j - 1;
      assert valid[j + 1..i + 1] == [r[j]] + tail == r[j..];
    }
    if j > 0 { assert valid[j - 1] == r[j - 1] && r[j - 1] in r; }
    valid[j] := x;
    assert valid[..i + 1] == valid[..j] + [x] + valid[j + 1..i + 1];
    InsertKeepsOrder(intents, r, x, j);
    SameElements(r, x, j);
    assert old(valid[..i + 1]) == r + [x];
  }

  lemma SameElements(r: seq<Id>, x: Id, j: nat)
    requires j <= |r|
    ensures Elements(r[..j] + [x] + r[j..]) == Elements(r + [x])
  {
    assert r == r[..j] + r[j..];
  }

  /** `valid.sort(compareFinalizedDeposits)`. */
  method SortByChain(valid: array<Id>, intents: map<Id, Intent>)
    requires Elements(valid[..]) <= intents.Keys
    requires forall j, k | 0 <= j < k < valid.Length :: valid[j] != valid[k]
    modifies valid
    ensures Elements(valid[..]) == old(Elements(valid[..]))
    ensures InChainOrder(intents, old(Elements(valid[..])), valid[..])
  {
    hide Precedes;
    ghost var all := valid[..];
    for i := 0 to valid.Length
      invariant Ascending(intents, valid[..i])
      invariant Elements(valid[..i]) == Elements(all[..i]) && valid[i..] == all[i..]
    {
      assert valid[i] == valid[i..][0] == all[i];
      Fresh(all, i);
      assert valid[i] in Elements(all);
      assert valid[i] !in valid[..i] by { assert valid[i] !in Elements(valid[..i]); }
      ghost var before := valid[..i + 1];
      assert before == valid[..i] + [all[i]] && all[..i + 1] == all[..i] + [all[i]];
      ElementsOfOne(valid[..i], all[i]);
      ElementsOfOne(all[..i], all[i]);
      assert valid[i + 1..] == valid[i..][1..] == all[i + 1..];
      InsertInPlace(valid, i, intents);
    }
    assert valid[..valid.Length] == valid[..] && all[..valid.Length] == all;
  }

  lemma ElementsOfOne(list: seq<Id>, x: Id)
    ensures Elements(list + [x]) == Elements(list) + {x}
  {
  }

  lemma Fresh(all: seq<Id>, i: nat)
    requires i < |all| && forall j, k | 0 <= j < k < |all| :: all[j] != all[k]
    ensures all[i] !in Elements(all[..i])
  {
  }

  // ---------------------------------------------------------------------------------------------
  // The transactions.
  // ---------------------------------------------------------------------------------------------

  method CloseEntryArtifacts(database: Database)
    modifies database`memberships
    ensures database.memberships == CloseEntry(old(database.memberships))
  {
    database.memberships := map m | m in database.memberships ::
      var r := database.memberships[m];
      if r.state in {Applied, AcceptedUnfunded, FundingFailed} then r.(state := ApplicationExpired) else r;
    database.memberships := map m | m in database.memberships ::
      var r := database.memberships[m];
      if r.state == DepositPending then r.(state := MembershipState.ExcludedAtCutoff) else r;
  }

  method QueueDepositRefund(database: Database, i: Id, state: Option<MembershipState>)
    requires i in database.intents && database.intents[i].membership in database.memberships
    modifies database
    ensures database.Rows() == QueueRefund(old(database.Rows()), i, state)
  {
    hide Keys;
    var deposit := database.intents[i];
    if i !in database.refunds {
      database.refunds := database.refunds[i := NewRefundLeg(deposit)];
    }
    database.InsertEntry(RefundEntry(i, deposit));
    database.intents := database.intents[i := deposit.(state := RefundPending)];
    if state.Some? {
      var membership := database.memberships[deposit.membership];
      database.memberships := database.memberships[deposit.membership := membership.(state := state.value)];
    }
  }

  /** The next deposit of a loop and the ones after it. */
  lemma NextListed(db: Db, list: seq<Id>, j: nat)
    requires j < |list| && Listed(db, list[j..])
    ensures list[j] in db.intents && db.intents[list[j]].membership in db.memberships
    ensures list[j..][0] == list[j] && list[j..][1..] == list[j + 1..] && list[..j] + [list[j]] == list[..j + 1]
    ensures list[j..] != [] && Listed(db, list[j + 1..])
  {
    assert list[j] == list[j..][0] && list[j] in list[j..];
    assert forall i | i in list[j + 1..] :: i in list[j..] by {
      assert list[j..] == [list[j]] + list[j + 1..];
    }
  }

  lemma StillListed(before: Db, after: Db, list: seq<Id>)
    requires Listed(before, list) && SameRows(before, after)
    ensures Listed(after, list)
  {
  }

  /** The loop over the excluded deposits; it collects the legs. */
  method RefundEach(database: Database, list: seq<Id>, state: MembershipState) returns (legs: seq<Id>)
    requires Listed(database.Rows(), list)
    modifies database
    ensures database.Rows() == RefundAll(old(database.Rows()), list, state)
    ensures legs == list
  {
    hide QueueRefund, Listed, SameRows;
    legs := [];
    for j := 0 to |list|
      invariant legs == list[..j]
      invariant Listed(database.Rows(), list[j..])
      invariant RefundAll(database.Rows(), list[j..], state) == RefundAll(old(database.Rows()), list, state)
    {
      NextListed(database.Rows(), list, j);
      ghost var before := database.Rows();
      QueueDepositRefund(database, list[j], Some(state));
      StillListed(before, database.Rows(), list[j + 1..]);
      legs := legs + [list[j]];
    }
  }

  /** The loop over the included deposits; in an alpha Pod it collects their legs. */
  method IncludeEach(database: Database, list: seq<Id>) returns (legs: seq<Id>)
    requires Listed(database.Rows(), list)
    modifies database
    ensures database.Rows() == IncludeAll(old(database.Rows()), list)
    ensures legs == if old(database.pod).contract.mode == FullRefundAlpha then list else []
  {
    hide Include, Listed, SameRows;
    legs := [];
    for j := 0 to |list|
      invariant database.pod == old(database.pod)
      invariant legs == if database.pod.contract.mode == FullRefundAlpha then list[..j] else []
      invariant Listed(database.Rows(), list[j..])
      invariant IncludeAll(database.Rows(), list[j..]) == IncludeAll(old(database.Rows()), list)
    {
      NextListed(database.Rows(), list, j);
      ghost var before := database.Rows();
      IncludeDeposit(database, list[j]);
      StillListed(before, database.Rows(), list[j + 1..]);
      if database.pod.contract.mode == FullRefundAlpha {
        legs := legs + [list[j]];
      }
    }
  }

  method IncludeDeposit(database: Database, i: Id)
    requires i in database.intents && database.intents[i].membership in database.memberships
    modifies database
    ensures database.Rows() == Include(old(database.Rows()), i) && database.pod == old(database.pod)
  {
    hide QueueRefund;
    var deposit := database.intents[i];
    database.intents := database.intents[i := deposit.(state := AppliedToRoster)];
    database.memberships := database.memberships[deposit.membership :=
      database.memberships[deposit.membership].(state := RosterLocked)];
    if database.pod.contract.mode == FullRefundAlpha {
      QueueDepositRefund(database, i, None);
    }
  }

  /** The loop over the funded deposits: late ones go to review, the others are valid. It stops at a valid deposit
      without its chain position. */
  method SelectValid(database: Database, funded: seq<Id>, opensAt: Time) returns (valid: seq<Id>, ordered: bool)
    requires forall j, k | 0 <= j < k < |funded| :: funded[j] != funded[k]
    requires Elements(funded) == Credited(database.Rows())
    modifies database`intents
    ensures var late := LateDeposits(old(database.Rows()), opensAt);
            var due := Credited(old(database.Rows())) - late;
            && (ordered <==> forall i | i in due :: !Unordered(old(database.intents)[i]))
            && (ordered ==> Enumerates(valid, due) && database.intents == MarkLate(old(database.intents), late))
  {
    valid := [];
    ghost var before := database.Rows();
    ghost var late := LateDeposits(before, opensAt);
    assert MarkLate(before.intents, {}) == before.intents;
    assert Elements(funded[..0]) == {};
    for j := 0 to |funded|
      invariant Enumerates(valid, Elements(funded[..j]) - late)
      invariant database.intents == MarkLate(before.intents, Elements(funded[..j]) * late)
      invariant forall i | i in Elements(funded[..j]) - late :: i in before.intents && !Unordered(before.intents[i])
    {
      assert funded[..j + 1] == funded[..j] + [funded[j]];
      ElementsOfOne(funded[..j], funded[j]);
      Fresh(funded, j);
      assert funded[j] in Elements(funded);
      SplitOff(funded[..j], funded[j], late);
      var deposit := database.intents[funded[j]];
      if deposit.finalizedAt.None? || deposit.finalizedAt.value > opensAt {
        MarkOne(before.intents, Elements(funded[..j]) * late, funded[j]);
        database.intents := database.intents[funded[j] :=
          deposit.(state := ExceptionReview, exception := Some(FinalizedAfterCutoff))];
      } else {
        if deposit.block.None? || deposit.index.None? || deposit.hash.None? {
          return valid, false;
        }
        OneMore(valid, Elements(funded[..j]) - late, funded[j]);
        valid := valid + [funded[j]];
      }
    }
    assert funded[..|funded|] == funded;
    assert Elements(funded) * late == late;
    ordered := true;
  }

  lemma SplitOff(list: seq<Id>, x: Id, late: set<Id>)
    ensures Elements(list + [x]) - late == Elements(list) - late + (if x in late then {} else {x})
    ensures Elements(list + [x]) * late == Elements(list) * late + (if x in late then {x} else {})
  {
    ElementsOfOne(list, x);
  }

  lemma MarkOne(intents: map<Id, Intent>, late: set<Id>, i: Id)
    requires i in intents && i !in late
    ensures MarkLate(intents, late)[i] == intents[i]
    ensures MarkLate(intents, late + {i})
         == MarkLate(intents, late)[i := intents[i].(state := ExceptionReview, exception := Some(FinalizedAfterCutoff))]
  {
  }

  lemma OneMore(list: seq<Id>, s: set<Id>, x: Id)
    requires Enumerates(list, s) && x !in s
    ensures Enumerates(list + [x], s + {x})
  {
    ElementsOfOne(list, x);
    assert forall k | 0 <= k < |list| :: list[k] in Elements(list);
  }

  /** The deposits in their only chain order. */
  method Rank(intents: map<Id, Intent>, valid: seq<Id>, ghost s: set<Id>) returns (ranked: seq<Id>)
    requires Enumerates(valid, s) && s <= intents.Keys && HashesDiffer(intents, s)
    ensures ranked == ChainOrder(intents, s)
  {
    hide InChainOrder, HashesDiffer, ChainOrder;
    var list := new Id[|valid|](j requires 0 <= j < |valid| => valid[j]);
    assert list[..] == valid;
    SortByChain(list, intents);
    ranked := list[..];
    ChainOrderIsUnique(intents, s, ranked, ChainOrder(intents, s));
  }

  /** The locked roster read back in chain order, and the refund legs in the order of the query. */
  method CurrentResult(database: Database) returns (roster: seq<Id>, legs: seq<Id>)
    requires database.Valid()
    ensures roster == CurrentRoster(database.Rows())
    ensures Enumerates(legs, database.refunds.Keys)
  {
    hide I.Inv, LockedDeposits, ChainOrder, HashesDiffer;
    var rows := database.Rows();
    var included := Select(LockedDeposits(rows));
    LockedAreOrdered(rows);
    OrderedHashesDiffer(rows, LockedDeposits(rows));
    var ranked := Rank(rows.intents, included, LockedDeposits(rows));
    roster := MembershipsOf(rows.intents, ranked);
    legs := Select(database.refunds.Keys);
  }

  /** The two loops, once the valid deposits are ranked. */
  method LockAndRefund(database: Database, ranked: seq<Id>) returns (k: nat, legs: seq<Id>)
    requires Listed(database.Rows(), ranked)
    modifies database
    ensures k == IncludedCount(old(database.pod).contract, |ranked|)
    ensures database.Rows() == Decide(old(database.Rows()), ranked)
    ensures legs == RefundList(old(database.Rows()), ranked, k)
  {
    hide IncludeAll, RefundAll;
    var minimum, maximum := database.pod.contract.minParticipants, database.pod.contract.maxParticipants;
    k := 0;
    if |ranked| >= minimum {
      k := if |ranked| < maximum then |ranked| else maximum;
    }
    assert forall i | i in ranked[..k] :: i in ranked;
    assert forall i | i in ranked[k..] :: i in ranked;
    var seated := IncludeEach(database, ranked[..k]);
    var refunded :=
      RefundEach(database, ranked[k..], if k > 0 then MembershipState.ExcludedAtCutoff else MemberRefundPending);
    assert ranked == ranked[..k] + ranked[k..];
    legs := seated + refunded;
    database.pod := database.pod.(state := if k > 0 then LockedScheduled else CancelledRefunding);
  }

  lemma CreditedIsListed(before: Db, begin: Db, valid: set<Id>, ranked: seq<Id>)
    requires valid <= Credited(before) && before.occurrences != [] && begin == BeginCutoff(before)
    requires forall i :: i in ranked <==> i in valid
    ensures Listed(begin, ranked) && Listed(before, ranked)
  {
  }

  method ApplyPodCutoff(database: Database, now: Time)
    returns (reply: Reply, included: seq<Id>, legs: seq<Id>)
    requires database.Valid() && database.clock <= now
    modifies database
    ensures database.Valid()
    ensures Step(database.Rows(), reply) == ApplyCutoff(T.Wait(old(database.Rows()), now), now)
    ensures reply == Nothing ==>
              included == CurrentRoster(database.Rows()) && Enumerates(legs, database.refunds.Keys)
    ensures reply == Done ==>
              var before := T.Wait(old(database.Rows()), now);
              && before.occurrences != []
              && Listed(before, Ranked(before))
              && Listed(before, Ranked(before)[..IncludedCount(before.pod.contract, |Ranked(before)|)])
              && included == MembershipsOf(before.intents,
                                           Ranked(before)[..IncludedCount(before.pod.contract, |Ranked(before)|)])
              && legs == RefundList(before, Ranked(before), IncludedCount(before.pod.contract, |Ranked(before)|))
    ensures reply != Thrown ==> CutoffRows.ListsSeats(database.Rows(), included)
  {
    hide I.Inv, CurrentRoster, ChainOrder, Decide, MarkLate, CloseEntry, InChainOrder, IncludedCount, HashesDiffer,
         Enumerates, Unordered, CutoffRows.ListsSeats;
    database.Begin(now);
    var before := database.Rows();
    ApplyCutoffKeeps(before, now);
    if database.pod.state in {LockedScheduled, CancelledRefunding, PodState.Cancelled} {
      included, legs := CurrentResult(database);
      CutoffRows.RosterListsSeats(before);
      return Nothing, included, legs;
    }
    if database.pod.state != EnrollmentOpen {
      return Thrown, [], [];
    }
    if database.occurrences == [] || now < database.occurrences[0].opensAt {
      return Thrown, [], [];
    }
    var opensAt := database.occurrences[0].opensAt;
    database.pod := database.pod.(state := CutoffEvaluating);
    CloseEntryArtifacts(database);
    SameCredited(before, database.Rows(), opensAt);
    var funded := Select(Credited(database.Rows()));
    EnumeratesIs(funded, Credited(before));
    var valid, ordered := SelectValid(database, funded, opensAt);
    ghost var due := Credited(before) - LateDeposits(before, opensAt);
    RankedNames(before);
    if !ordered {
      database.Rollback(before);
      return Thrown, [], [];
    }
    OrderedHashesDiffer(before, due);
    var ranked := Rank(before.intents, valid, due);
    CreditedIsListed(before, database.Rows(), due, ranked);
    var k, refunded := LockAndRefund(database, ranked);
    assert forall i | i in ranked[..k] :: i in ranked;
    included := MembershipsOf(before.intents, ranked[..k]);
    CutoffRows.CutoffListsSeats(before, now);
    return Done, included, refunded;
  }

  lemma EnumeratesIs(list: seq<Id>, s: set<Id>)
    requires Enumerates(list, s)
    ensures Elements(list) == s && forall j, k | 0 <= j < k < |list| :: list[j] != list[k]
  {
  }

  lemma SameCredited(before: Db, after: Db, opensAt: Time)
    requires after.intents == before.intents && after.memberships == CloseEntry(before.memberships)
    ensures Credited(after) == Credited(before) && LateDeposits(after, opensAt) == LateDeposits(before, opensAt)
  {
  }

  lemma RankedNames(db: Db)
    requires db.occurrences != []
    ensures forall i :: i in Ranked(db) <==> i in Credited(db) - LateDeposits(db, db.occurrences[0].opensAt)
  {
  }

  /** `cancelEnrollmentPod`; `order` is the order in which the query returned the credited deposits. */
  method CancelEnrollmentPod(database: Database, now: Time, user: Id) returns (reply: Reply, ghost order: seq<Id>)
    requires database.Valid() && database.clock <= now
    modifies database
    ensures database.Valid()
    ensures var before := T.Wait(old(database.Rows()), now);
            && T.Allowed(before, T.Cancel(user, order))
            && Step(database.Rows(), reply) == CancelEnrollment(before, user, order)
  {
    hide I.Inv, CloseEntry, Enumerates, RefundAll;
    database.Begin(now);
    ghost var before := database.Rows();
    var funded := Select(Credited(database.Rows()));
    order := funded;
    EnumeratesIs(funded, Credited(before));
    AllListed(before, funded);
    CancelEnrollmentKeeps(before, user, funded);
    if user != database.pod.creator || database.pod.state != EnrollmentOpen {
      return Nothing, order;
    }
    CloseEntryArtifacts(database);
    ClosedListed(before, database.Rows(), funded);
    var legs := RefundEach(database, funded, MemberRefundPending);
    database.pod := database.pod.(state := if funded != [] then CancelledRefunding else PodState.Cancelled);
    return Done, order;
  }

  lemma AllListed(db: Db, list: seq<Id>)
    requires Elements(list) == Credited(db)
    ensures Listed(db, list)
  {
    assert forall i | i in list :: i in Elements(list);
  }

  lemma ClosedListed(before: Db, after: Db, list: seq<Id>)
    requires Listed(before, list) && after.intents == before.intents
    requires after.memberships == CloseEntry(before.memberships)
    ensures Listed(after, list)
  {
  }
}
