/** The canonical form under a contract's hash: undefined entries dropped and keys sorted, at every depth. */
module CanonicalContract {

  /** The names JavaScript lists first in every object, by their number. */
  type ArrayIndex = n: nat | n < 0xFFFF_FFFF

  /** A property name: an array index, or another name with its place in the collation order of `localeCompare`. The
      text determines the place, but different texts may share one. */
  datatype Key = Index(number: ArrayIndex) | Name(text: nat, place: nat)

  /** Where a name stands in an object whose names were inserted in collation order. */
  function Rank(k: Key): nat {
    if k.Index? then k.number else 0xFFFF_FFFF + k.place
  }

  datatype Field = Field(key: Key, value: Json)

  /** A value; the fields of an object are listed in insertion order. */
  datatype Json =
    | Undefined
    | Scalar(literal: int)
    | Arr(items: seq<Json>)
    | Obj(fields: seq<Field>)

  // ---------------------------------------------------------------------------------------------
  // The canonical form.
  // ---------------------------------------------------------------------------------------------

  /** The entries whose value is defined. */
  function Defined(fields: seq<Field>): seq<Field> {
    if fields == [] then []
    else
      var last := fields[|fields| - 1];
      Defined(fields[..|fields| - 1]) + if last.value.Undefined? then [] else [last]
  }

  /** Stable insertion: after every field that does not come later. */
  function Insert(sorted: seq<Field>, f: Field): seq<Field> {
    if sorted == [] then [f]
    else
      var last := sorted[|sorted| - 1];
      if Rank(last.key) <= Rank(f.key) then sorted + [f]
      else Insert(sorted[..|sorted| - 1], f) + [last]
  }

  /** The stable sort by rank; `SortedThenListed` says why this is what the code builds. */
  function Sort(fields: seq<Field>): seq<Field> {
    if fields == [] then []
    else Insert(Sort(fields[..|fields| - 1]), fields[|fields| - 1])
  }

  /** `stableValue`. */
  function Canonical(v: Json): Json {
    match v
    case Arr(items) => Arr(seq(|items|, i requires 0 <= i < |items| => Canonical(items[i])))
    case Obj(fields) =>
      Obj(Sort(Defined(seq(|fields|, i requires 0 <= i < |fields| =>
        Field(fields[i].key, Canonical(fields[i].value))))))
    case _ => v
  }

  /** The fields of an object with canonical values, before they are filtered and sorted. */
  function Mapped(fields: seq<Field>): seq<Field> {
    seq(|fields|, i requires 0 <= i < |fields| => Field(fields[i].key, Canonical(fields[i].value)))
  }

  // ---------------------------------------------------------------------------------------------
  // What may differ.
  // ---------------------------------------------------------------------------------------------

  predicate DistinctKeys(fields: seq<Field>) {
    forall i, j | 0 <= i < j < |fields| :: fields[i].key != fields[j].key
  }

  /** A JavaScript value: no object has a key twice. */
  predicate WellFormed(v: Json) {
    match v
    case Arr(items) => forall i | 0 <= i < |items| :: WellFormed(items[i])
    case Obj(fields) => DistinctKeys(fields) && forall i | 0 <= i < |fields| :: WellFormed(fields[i].value)
    case _ => true
  }

  /** The object has this key with a defined value. */
  predicate HasDefined(fields: seq<Field>, key: Key) {
    exists i :: 0 <= i < |fields| && fields[i].key == key && !fields[i].value.Undefined?
  }

  /** The object has a defined field with the key and the content of `f`. */
  predicate Matched(f: Field, fields: seq<Field>)
    decreases f
  {
    exists j :: 0 <= j < |fields| && fields[j].key == f.key && !fields[j].value.Undefined?
                && Same(f.value, fields[j].value)
  }

  /** The same content: equal but for the order of keys and for undefined entries, at any depth. */
  predicate Same(a: Json, b: Json)
    decreases a
  {
    match (a, b)
    case (Arr(xs), Arr(ys)) => |xs| == |ys| && forall i | 0 <= i < |xs| :: Same(xs[i], ys[i])
    case (Obj(xs), Obj(ys)) =>
      && (forall i | 0 <= i < |xs| && !xs[i].value.Undefined? :: Matched(xs[i], ys))
      && (forall j | 0 <= j < |ys| && !ys[j].value.Undefined? :: HasDefined(xs, ys[j].key))
    case (_, _) => a == b
  }

  /** No two different keys of the object collate alike. */
  predicate NoTie(fields: seq<Field>) {
    forall i, j | 0 <= i < j < |fields| && !fields[i].value.Undefined? && !fields[j].value.Undefined? ::
      Rank(fields[i].key) != Rank(fields[j].key)
  }

  /** No object at any depth has a tie. */
  predicate NoTies(v: Json) {
    match v
    case Arr(items) => forall i | 0 <= i < |items| :: NoTies(items[i])
    case Obj(fields) => NoTie(fields) && forall i | 0 <= i < |fields| :: NoTies(fields[i].value)
    case _ => true
  }

  // ---------------------------------------------------------------------------------------------
  // Sorting.
  // ---------------------------------------------------------------------------------------------

  predicate Ordered(fields: seq<Field>) {
    forall i, j | 0 <= i < j < |fields| :: Rank(fields[i].key) <= Rank(fields[j].key)
  }

  lemma {:induction false} InsertElements(sorted: seq<Field>, f: Field)
    ensures multiset(Insert(sorted, f)) == multiset(sorted) + multiset{f}
  {
    if sorted != [] {
      var init, last := sorted[..|sorted| - 1], sorted[|sorted| - 1];
      assert sorted == init + [last];
      InsertElements(init, f);
    }
  }

  lemma InInsert(sorted: seq<Field>, f: Field, x: Field)
    ensures x in Insert(sorted, f) <==> x in sorted || x == f
  {
    InsertElements(sorted, f);
    assert x in Insert(sorted, f) <==> x in multiset(Insert(sorted, f));
  }

  /** A later field may follow what is ordered. */
  lemma AppendOrdered(sorted: seq<Field>, f: Field)
    requires Ordered(sorted) && forall x | x in sorted :: Rank(x.key) <= Rank(f.key)
    ensures Ordered(sorted + [f])
  {
  }

  lemma LastIsLargest(sorted: seq<Field>)
    requires sorted != [] && Ordered(sorted)
    ensures Ordered(sorted[..|sorted| - 1])
    ensures forall x | x in sorted :: Rank(x.key) <= Rank(sorted[|sorted| - 1].key)
  {
  }

  lemma {:induction false} InsertOrders(sorted: seq<Field>, f: Field)
    requires Ordered(sorted)
    ensures Ordered(Insert(sorted, f))
  {
    if sorted == [] {
      assert Insert(sorted, f) == [f];
    } else {
      var init, last := sorted[..|sorted| - 1], sorted[|sorted| - 1];
      LastIsLargest(sorted);
      hide Ordered;
      if Rank(last.key) <= Rank(f.key) {
        AppendOrdered(sorted, f);
      } else {
        InsertOrders(init, f);
        forall x | x in Insert(init, f) ensures Rank(x.key) <= Rank(last.key) { InInsert(init, f, x); }
        AppendOrdered(Insert(init, f), last);
      }
    }
  }

  lemma {:induction false} SortElements(fields: seq<Field>)
    ensures multiset(Sort(fields)) == multiset(fields)
  {
    if fields != [] {
      var init, last := fields[..|fields| - 1], fields[|fields| - 1];
      assert fields == init + [last];
      SortElements(init);
      InsertElements(Sort(init), last);
    }
  }

  lemma {:induction false} SortOrders(fields: seq<Field>)
    ensures Ordered(Sort(fields))
  {
    if fields != [] {
      SortOrders(fields[..|fields| - 1]);
      InsertOrders(Sort(fields[..|fields| - 1]), fields[|fields| - 1]);
    }
  }

  lemma InSort(fields: seq<Field>, f: Field)
    ensures f in Sort(fields) <==> f in fields
  {
    SortElements(fields);
    assert f in Sort(fields) <==> f in multiset(Sort(fields));
    assert f in fields <==> f in multiset(fields);
  }

  /** Sorting what is sorted changes nothing. */
  lemma {:induction false} SortedStays(fields: seq<Field>)
    requires Ordered(fields)
    ensures Sort(fields) == fields
  {
    if fields != [] {
      var init, last := fields[..|fields| - 1], fields[|fields| - 1];
      SortedStays(init);
      assert fields == init + [last];
    }
  }

  predicate StrictlyOrdered(fields: seq<Field>) {
    forall i, j | 0 <= i < j < |fields| :: Rank(fields[i].key) < Rank(fields[j].key)
  }

  /** There is only one way to list fields in strictly ascending order. */
  lemma {:induction false} OrderIsUnique(a: seq<Field>, b: seq<Field>)
    requires StrictlyOrdered(a) && StrictlyOrdered(b) && forall f :: f in a <==> f in b
    ensures a == b
    decreases |a|
  {
    assert a != [] ==> a[0] in b;
    assert b != [] ==> b[0] in a;
    if a != [] {
      var j :| 0 <= j < |b| && b[j] == a[0];
      var i :| 0 <= i < |a| && a[i] == b[0];
      assert a[0] == b[0];
      forall f ensures f in a[1..] <==> f in b[1..] {
        TailOf(a, f);
        TailOf(b, f);
      }
      OrderIsUnique(a[1..], b[1..]);
      assert a == [a[0]] + a[1..] && b == [b[0]] + b[1..];
    }
  }

  lemma TailOf(a: seq<Field>, f: Field)
    requires a != [] && StrictlyOrdered(a)
    ensures f in a[1..] <==> f in a && f != a[0]
  {
    if f in a && f != a[0] {
      var k :| 0 <= k < |a| && a[k] == f;
      assert a[1..][k - 1] == f;
    }
    if f in a[1..] {
      var k :| 0 <= k < |a[1..]| && a[1..][k] == f;
      assert a[k + 1] == f;
    }
  }

  lemma {:induction false} InDefined(fields: seq<Field>, f: Field)
    ensures f in Defined(fields) <==> f in fields && !f.value.Undefined?
  {
    if fields != [] {
      InDefined(fields[..|fields| - 1], f);
      assert fields == fields[..|fields| - 1] + [fields[|fields| - 1]];
    }
  }

  // ---------------------------------------------------------------------------------------------
  // Sorting by collation and then listing the object.
  // ---------------------------------------------------------------------------------------------

  function InsertBy(sorted: seq<Field>, f: Field, order: Key -> nat): seq<Field> {
    if sorted == [] then [f]
    else
      var last := sorted[|sorted| - 1];
      if order(last.key) <= order(f.key) then sorted + [f]
      else InsertBy(sorted[..|sorted| - 1], f, order) + [last]
  }

  function SortBy(fields: seq<Field>, order: Key -> nat): seq<Field> {
    if fields == [] then []
    else InsertBy(SortBy(fields[..|fields| - 1], order), fields[|fields| - 1], order)
  }

  /** How JavaScript lists an object: array indices by number, then the other names as they were inserted. */
  function ListingPlace(k: Key): nat {
    if k.Index? then k.number else 0xFFFF_FFFF
  }

  /** A collation of all names that orders the names that are no array indices by their place. */
  ghost predicate Collation(order: Key -> nat) {
    forall k: Key, l: Key | k.Name? && l.Name? :: order(k) <= order(l) <==> k.place <= l.place
  }

  predicate OrderedBy(fields: seq<Field>, order: Key -> nat) {
    forall i, j | 0 <= i < j < |fields| :: order(fields[i].key) <= order(fields[j].key)
  }

  predicate NoneAbove(fields: seq<Field>, bound: nat, order: Key -> nat) {
    forall i | 0 <= i < |fields| :: order(fields[i].key) <= bound
  }

  lemma {:induction false} InsertByBounded(sorted: seq<Field>, f: Field, order: Key -> nat, c: Key -> nat, bound: nat)
    requires NoneAbove(sorted, bound, c) && c(f.key) <= bound
    ensures NoneAbove(InsertBy(sorted, f, order), bound, c)
  {
    if sorted != [] { InsertByBounded(sorted[..|sorted| - 1], f, order, c, bound); }
  }

  lemma {:induction false} SortByBounded(fields: seq<Field>, order: Key -> nat, c: Key -> nat, bound: nat)
    requires NoneAbove(fields, bound, c)
    ensures NoneAbove(SortBy(fields, order), bound, c)
  {
    if fields != [] {
      SortByBounded(fields[..|fields| - 1], order, c, bound);
      InsertByBounded(SortBy(fields[..|fields| - 1], order), fields[|fields| - 1], order, c, bound);
    }
  }

  lemma {:induction false} InsertByOrders(sorted: seq<Field>, f: Field, order: Key -> nat)
    requires OrderedBy(sorted, order)
    ensures OrderedBy(InsertBy(sorted, f, order), order)
  {
    if sorted != [] {
      var init, last := sorted[..|sorted| - 1], sorted[|sorted| - 1];
      InsertByOrders(init, f, order);
      if order(last.key) > order(f.key) { InsertByBounded(init, f, order, order, order(last.key)); }
    }
  }

  lemma {:induction false} SortByOrders(fields: seq<Field>, order: Key -> nat)
    ensures OrderedBy(SortBy(fields, order), order)
  {
    if fields != [] {
      SortByOrders(fields[..|fields| - 1], order);
      InsertByOrders(SortBy(fields[..|fields| - 1], order), fields[|fields| - 1], order);
    }
  }

  /** Fields of different rank can be inserted in either order. */
  lemma {:induction false} InsertsCommute(fields: seq<Field>, f: Field, g: Field)
    requires Rank(f.key) != Rank(g.key)
    ensures Insert(Insert(fields, f), g) == Insert(Insert(fields, g), f)
  {
    if fields != [] {
      InsertsCommute(fields[..|fields| - 1], f, g);
    }
  }

  /** Behind names that collate no later, the listing puts a field where its rank does. */
  lemma {:induction false} ListedByRank(fields: seq<Field>, f: Field, c: Key -> nat)
    requires Collation(c) && NoneAbove(fields, c(f.key), c)
    ensures InsertBy(fields, f, ListingPlace) == Insert(fields, f)
  {
    if fields != [] {
      ListedByRank(fields[..|fields| - 1], f, c);
    }
  }

  lemma SortBySnoc(fields: seq<Field>, f: Field, order: Key -> nat)
    ensures SortBy(fields + [f], order) == InsertBy(SortBy(fields, order), f, order)
  {
    hide InsertBy;
    assert (fields + [f])[..|fields|] == fields;
  }

  lemma LastBounds(sorted: seq<Field>, order: Key -> nat, bound: nat)
    requires sorted != [] && OrderedBy(sorted, order)
    ensures var init, last := sorted[..|sorted| - 1], sorted[|sorted| - 1];
            && OrderedBy(init, order) && NoneAbove(init, order(last.key), order)
            && (order(last.key) <= bound ==> NoneAbove(sorted, bound, order))
  {
  }

  /** Listing after an insertion by collation is inserting by rank after the listing. */
  lemma {:induction false} ListingAfterInsert(sorted: seq<Field>, f: Field, c: Key -> nat)
    requires Collation(c) && OrderedBy(sorted, c)
    ensures SortBy(InsertBy(sorted, f, c), ListingPlace) == Insert(SortBy(sorted, ListingPlace), f)
  {
    if sorted == [] {
      assert SortBy([f], ListingPlace) == [f];
    } else {
      LastBounds(sorted, c, c(f.key));
      if c(sorted[|sorted| - 1].key) <= c(f.key) {
        ListingBehind(sorted, f, c);
      } else {
        ListingAfterInsert(sorted[..|sorted| - 1], f, c);
        ListingBefore(sorted, f, c);
      }
    }
  }

  lemma ListingBehind(sorted: seq<Field>, f: Field, c: Key -> nat)
    requires Collation(c) && NoneAbove(sorted, c(f.key), c)
    ensures SortBy(sorted + [f], ListingPlace) == Insert(SortBy(sorted, ListingPlace), f)
  {
    hide SortBy, InsertBy, Insert, NoneAbove, Collation;
    SortByBounded(sorted, ListingPlace, c, c(f.key));
    ListedByRank(SortBy(sorted, ListingPlace), f, c);
    SortBySnoc(sorted, f, ListingPlace);
  }

  lemma ListingBefore(sorted: seq<Field>, f: Field, c: Key -> nat)
    requires Collation(c) && OrderedBy(sorted, c) && sorted != [] && c(f.key) < c(sorted[|sorted| - 1].key)
    requires var init := sorted[..|sorted| - 1];
             SortBy(InsertBy(init, f, c), ListingPlace) == Insert(SortBy(init, ListingPlace), f)
    ensures SortBy(InsertBy(sorted, f, c), ListingPlace) == Insert(SortBy(sorted, ListingPlace), f)
  {
    hide SortBy, Insert, NoneAbove, Collation, OrderedBy;
    var init, last := sorted[..|sorted| - 1], sorted[|sorted| - 1];
    LastBounds(sorted, c, c(last.key));
    InsertByBounded(init, f, c, c, c(last.key));
    ListingBehind(init, last, c);
    ListingBehind(InsertBy(init, f, c), last, c);
    RanksDiffer(f.key, last.key, c);
    InsertsCommute(SortBy(init, ListingPlace), f, last);
    assert sorted == init + [last];
  }

  lemma RanksDiffer(k: Key, l: Key, c: Key -> nat)
    requires Collation(c) && c(k) < c(l)
    ensures Rank(k) != Rank(l)
  {
  }

  /** Whatever place array indices take in the collation: sorting by it, and listing the object built from that, is
      the one stable sort by rank. */
  lemma {:induction false} SortedThenListed(fields: seq<Field>, c: Key -> nat)
    requires Collation(c)
    ensures SortBy(SortBy(fields, c), ListingPlace) == Sort(fields)
  {
    if fields != [] {
      var init, last := fields[..|fields| - 1], fields[|fields| - 1];
      SortedThenListed(init, c);
      SortByOrders(init, c);
      ListingAfterInsert(SortBy(init, c), last, c);
    }
  }

  // ---------------------------------------------------------------------------------------------
  // The canonical form of an object.
  // ---------------------------------------------------------------------------------------------

  function CanonicalFields(fields: seq<Field>): seq<Field> {
    Sort(Defined(Mapped(fields)))
  }

  lemma CanonicalOfObject(fields: seq<Field>)
    ensures Canonical(Obj(fields)) == Obj(CanonicalFields(fields))
  {
    assert Mapped(fields)
        == seq(|fields|, i requires 0 <= i < |fields| => Field(fields[i].key, Canonical(fields[i].value)));
  }

  lemma UndefinedStays(v: Json)
    ensures Canonical(v).Undefined? <==> v.Undefined?
  {
  }

  /** A canonical field stems from the defined field with its key. */
  lemma InCanonical(fields: seq<Field>, f: Field)
    ensures f in CanonicalFields(fields)
       <==> exists i :: 0 <= i < |fields| && !fields[i].value.Undefined? && f.key == fields[i].key
                        && f.value == Canonical(fields[i].value)
  {
    InSort(Defined(Mapped(fields)), f);
    InDefined(Mapped(fields), f);
    if f in CanonicalFields(fields) {
      var i :| 0 <= i < |fields| && Mapped(fields)[i] == f;
      UndefinedStays(fields[i].value);
    }
    if i :| 0 <= i < |fields| && !fields[i].value.Undefined? && f.key == fields[i].key
            && f.value == Canonical(fields[i].value) {
      assert Mapped(fields)[i] == f;
      UndefinedStays(fields[i].value);
    }
  }

  lemma AllDefined(fields: seq<Field>, k: nat)
    requires k < |CanonicalFields(fields)|
    ensures var f := CanonicalFields(fields)[k];
            && !f.value.Undefined?
            && exists i :: 0 <= i < |fields| && f.value == Canonical(fields[i].value)
  {
    var f := CanonicalFields(fields)[k];
    InCanonical(fields, f);
    var i :| 0 <= i < |fields| && !fields[i].value.Undefined? && f.value == Canonical(fields[i].value);
    UndefinedStays(fields[i].value);
  }

  lemma {:induction false} DefinedStays(fields: seq<Field>)
    requires forall k | 0 <= k < |fields| :: !fields[k].value.Undefined?
    ensures Defined(fields) == fields
  {
    if fields != [] {
      DefinedStays(fields[..|fields| - 1]);
      assert fields == fields[..|fields| - 1] + [fields[|fields| - 1]];
    }
  }

  /** The canonical form is its own canonical form. */
  lemma {:induction false} CanonicalIsIdempotent(v: Json)
    ensures Canonical(Canonical(v)) == Canonical(v)
    decreases v
  {
    match v
    case Arr(items) =>
      forall i | 0 <= i < |items| ensures Canonical(Canonical(items[i])) == Canonical(items[i]) {
        CanonicalIsIdempotent(items[i]);
      }
    case Obj(fields) =>
      var once := CanonicalFields(fields);
      CanonicalOfObject(fields);
      CanonicalOfObject(once);
      forall k | 0 <= k < |once| ensures !once[k].value.Undefined? && Canonical(once[k].value) == once[k].value {
        AllDefined(fields, k);
        var i :| 0 <= i < |fields| && once[k].value == Canonical(fields[i].value);
        CanonicalIsIdempotent(fields[i].value);
      }
      assert Mapped(once) == once;
      DefinedStays(once);
      SortOrders(Defined(Mapped(fields)));
      SortedStays(once);
    case _ =>
  }

  // ---------------------------------------------------------------------------------------------
  // Same content, same form.
  // ---------------------------------------------------------------------------------------------

  /** Values with different content have different canonical forms. */
  lemma {:induction false} FormTellsContent(a: Json, b: Json)
    requires Canonical(a) == Canonical(b)
    ensures Same(a, b)
    decreases a
  {
    match (a, b)
    case (Arr(xs), Arr(ys)) =>
      forall i | 0 <= i < |xs| ensures Same(xs[i], ys[i]) {
        assert Canonical(a).items[i] == Canonical(b).items[i];
        FormTellsContent(xs[i], ys[i]);
      }
    case (Obj(xs), Obj(ys)) =>
      CanonicalOfObject(xs);
      CanonicalOfObject(ys);
      forall i | 0 <= i < |xs| && !xs[i].value.Undefined? ensures Matched(xs[i], ys) {
        var j := Counterpart(xs, ys, i);
        FormTellsContent(xs[i].value, ys[j].value);
      }
      forall j | 0 <= j < |ys| && !ys[j].value.Undefined? ensures HasDefined(xs, ys[j].key) {
        var i := Counterpart(ys, xs, j);
      }
    case (_, _) =>
  }

  /** Objects with one canonical form have each other's fields. */
  lemma Counterpart(xs: seq<Field>, ys: seq<Field>, i: nat) returns (j: nat)
    requires CanonicalFields(xs) == CanonicalFields(ys) && i < |xs| && !xs[i].value.Undefined?
    ensures j < |ys| && ys[j].key == xs[i].key && !ys[j].value.Undefined?
    ensures Canonical(ys[j].value) == Canonical(xs[i].value)
  {
    var f := Field(xs[i].key, Canonical(xs[i].value));
    InCanonical(xs, f);
    InCanonical(ys, f);
    j :| 0 <= j < |ys| && !ys[j].value.Undefined? && f.key == ys[j].key && f.value == Canonical(ys[j].value);
  }

  lemma AppendStrict(sorted: seq<Field>, f: Field)
    requires StrictlyOrdered(sorted) && forall x | x in sorted :: Rank(x.key) < Rank(f.key)
    ensures StrictlyOrdered(sorted + [f])
  {
  }

  lemma LastIsStrictlyLargest(sorted: seq<Field>)
    requires sorted != [] && StrictlyOrdered(sorted)
    ensures StrictlyOrdered(sorted[..|sorted| - 1])
    ensures forall x | x in sorted[..|sorted| - 1] :: Rank(x.key) < Rank(sorted[|sorted| - 1].key)
  {
  }

  lemma {:induction false} InsertStrict(sorted: seq<Field>, f: Field)
    requires StrictlyOrdered(sorted) && forall x | x in sorted :: Rank(x.key) != Rank(f.key)
    ensures StrictlyOrdered(Insert(sorted, f))
  {
    if sorted == [] {
      assert Insert(sorted, f) == [f];
    } else {
      var init, last := sorted[..|sorted| - 1], sorted[|sorted| - 1];
      LastIsStrictlyLargest(sorted);
      assert sorted == init + [last];
      hide StrictlyOrdered;
      if Rank(last.key) <= Rank(f.key) {
        AppendStrict(sorted, f);
      } else {
        InsertStrict(init, f);
        forall x | x in Insert(init, f) ensures Rank(x.key) < Rank(last.key) { InInsert(init, f, x); }
        AppendStrict(Insert(init, f), last);
      }
    }
  }

  lemma {:induction false} SortStrict(fields: seq<Field>)
    requires forall i, j | 0 <= i < j < |fields| :: Rank(fields[i].key) != Rank(fields[j].key)
    ensures StrictlyOrdered(Sort(fields))
  {
    if fields != [] {
      var init, last := fields[..|fields| - 1], fields[|fields| - 1];
      SortStrict(init);
      forall x | x in Sort(init) ensures Rank(x.key) != Rank(last.key) { InSort(init, x); }
      InsertStrict(Sort(init), last);
    }
  }

  lemma {:induction false} DefinedHasNoTie(fields: seq<Field>)
    requires NoTie(fields)
    ensures forall i, j | 0 <= i < j < |Defined(fields)| ::
              Rank(Defined(fields)[i].key) != Rank(Defined(fields)[j].key)
  {
    if fields != [] {
      var init, last := fields[..|fields| - 1], fields[|fields| - 1];
      DefinedHasNoTie(init);
      forall k | 0 <= k < |Defined(init)|
        ensures Defined(init)[k] in init && !Defined(init)[k].value.Undefined?
      {
        InDefined(init, Defined(init)[k]);
      }
    }
  }

  /** Without a tie the canonical fields are strictly ordered. */
  lemma CanonicalIsStrict(fields: seq<Field>)
    requires NoTie(fields)
    ensures StrictlyOrdered(CanonicalFields(fields))
  {
    forall i | 0 <= i < |fields| ensures Mapped(fields)[i].value.Undefined? <==> fields[i].value.Undefined? {
      UndefinedStays(fields[i].value);
    }
    DefinedHasNoTie(Mapped(fields));
    SortStrict(Defined(Mapped(fields)));
  }

  lemma TiesCarryOver(xs: seq<Field>, ys: seq<Field>)
    requires NoTie(xs) && DistinctKeys(ys)
    requires forall j | 0 <= j < |ys| && !ys[j].value.Undefined? :: HasDefined(xs, ys[j].key)
    ensures NoTie(ys)
  {
    forall j, k | 0 <= j < k < |ys| && !ys[j].value.Undefined? && !ys[k].value.Undefined?
      ensures Rank(ys[j].key) != Rank(ys[k].key)
    {
      assert HasDefined(xs, ys[j].key) && HasDefined(xs, ys[k].key);
      var a :| 0 <= a < |xs| && xs[a].key == ys[j].key && !xs[a].value.Undefined?;
      var b :| 0 <= b < |xs| && xs[b].key == ys[k].key && !xs[b].value.Undefined?;
    }
  }

  /** Every defined field of `xs` has its key in `ys`, with the same canonical value. */
  predicate FoundIn(xs: seq<Field>, ys: seq<Field>) {
    forall i | 0 <= i < |xs| && !xs[i].value.Undefined? ::
      exists j :: 0 <= j < |ys| && ys[j].key == xs[i].key && !ys[j].value.Undefined?
                  && Canonical(xs[i].value) == Canonical(ys[j].value)
  }

  lemma FoundCanonical(xs: seq<Field>, ys: seq<Field>, f: Field)
    requires FoundIn(xs, ys) && f in CanonicalFields(xs)
    ensures f in CanonicalFields(ys)
  {
    hide CanonicalFields;
    InCanonical(xs, f);
    InCanonical(ys, f);
    var i :| 0 <= i < |xs| && !xs[i].value.Undefined? && f.key == xs[i].key && f.value == Canonical(xs[i].value);
  }

  lemma ObjectsAgree(xs: seq<Field>, ys: seq<Field>)
    requires FoundIn(xs, ys) && FoundIn(ys, xs) && NoTie(xs) && NoTie(ys)
    ensures CanonicalFields(xs) == CanonicalFields(ys)
  {
    hide CanonicalFields, FoundIn, NoTie, StrictlyOrdered;
    CanonicalIsStrict(xs);
    CanonicalIsStrict(ys);
    forall f ensures f in CanonicalFields(xs) <==> f in CanonicalFields(ys) {
      if f in CanonicalFields(xs) { FoundCanonical(xs, ys, f); }
      if f in CanonicalFields(ys) { FoundCanonical(ys, xs, f); }
    }
    OrderIsUnique(CanonicalFields(xs), CanonicalFields(ys));
  }

  lemma AboutSame(xs: seq<Field>, ys: seq<Field>)
    ensures Same(Obj(xs), Obj(ys))
       <==> && (forall i | 0 <= i < |xs| && !xs[i].value.Undefined? :: Matched(xs[i], ys))
            && (forall j | 0 <= j < |ys| && !ys[j].value.Undefined? :: HasDefined(xs, ys[j].key))
  {
    hide Matched, HasDefined;
  }

  /** The field of `ys` that a defined field of `xs` corresponds to. */
  lemma SameField(f: Field, ys: seq<Field>) returns (j: nat)
    requires Matched(f, ys)
    ensures j < |ys| && ys[j].key == f.key && !ys[j].value.Undefined? && Same(f.value, ys[j].value)
  {
    hide Same;
    j :| 0 <= j < |ys| && ys[j].key == f.key && !ys[j].value.Undefined? && Same(f.value, ys[j].value);
  }

  lemma KeyHolder(xs: seq<Field>, key: Key) returns (i: nat)
    requires HasDefined(xs, key)
    ensures i < |xs| && xs[i].key == key && !xs[i].value.Undefined?
  {
    i :| 0 <= i < |xs| && xs[i].key == key && !xs[i].value.Undefined?;
  }

  lemma KeysDiffer(fields: seq<Field>, j: nat, k: nat)
    requires DistinctKeys(fields) && j < |fields| && k < |fields| && fields[j].key == fields[k].key
    ensures j == k
  {
  }

  lemma AboutObject(fields: seq<Field>)
    ensures WellFormed(Obj(fields))
       <==> DistinctKeys(fields) && forall i | 0 <= i < |fields| :: WellFormed(fields[i].value)
    ensures NoTies(Obj(fields)) <==> NoTie(fields) && forall i | 0 <= i < |fields| :: NoTies(fields[i].value)
  {
  }

  lemma {:induction false} ObjectContentFixesForm(xs: seq<Field>, ys: seq<Field>)
    requires Same(Obj(xs), Obj(ys)) && WellFormed(Obj(ys)) && NoTies(Obj(xs))
    ensures Canonical(Obj(xs)) == Canonical(Obj(ys))
    decreases Obj(xs), 0
  {
    hide CanonicalFields, Canonical, Same, Matched, HasDefined, WellFormed, NoTies, NoTie, DistinctKeys;
    CanonicalOfObject(xs);
    CanonicalOfObject(ys);
    AboutObject(xs);
    AboutObject(ys);
    AboutSame(xs, ys);
    forall i | 0 <= i < |xs| && !xs[i].value.Undefined?
      ensures exists j :: 0 <= j < |ys| && ys[j].key == xs[i].key && !ys[j].value.Undefined?
                          && Canonical(xs[i].value) == Canonical(ys[j].value)
    {
      var j := SameField(xs[i], ys);
      ContentFixesForm(xs[i].value, ys[j].value);
    }
    forall j | 0 <= j < |ys| && !ys[j].value.Undefined?
      ensures exists i :: 0 <= i < |xs| && xs[i].key == ys[j].key && !xs[i].value.Undefined?
                          && Canonical(ys[j].value) == Canonical(xs[i].value)
    {
      var i := KeyHolder(xs, ys[j].key);
      var k := SameField(xs[i], ys);
      KeysDiffer(ys, j, k);
      ContentFixesForm(xs[i].value, ys[j].value);
    }
    TiesCarryOver(xs, ys);
    ObjectsAgree(xs, ys);
  }

  /** Values that differ only in key order and undefined entries have one canonical form, unless keys tie. */
  lemma {:induction false} ContentFixesForm(a: Json, b: Json)
    requires Same(a, b) && WellFormed(b) && NoTies(a)
    ensures Canonical(a) == Canonical(b)
    decreases a, 1
  {
    match (a, b)
    case (Arr(xs), Arr(ys)) =>
      forall i | 0 <= i < |xs| ensures Canonical(xs[i]) == Canonical(ys[i]) {
        ContentFixesForm(xs[i], ys[i]);
      }
    case (Obj(xs), Obj(ys)) => ObjectContentFixesForm(xs, ys);
    case (_, _) =>
  }

  // ---------------------------------------------------------------------------------------------
  // Ties.
  // ---------------------------------------------------------------------------------------------

  /** Every object listed backwards. */
  function Flip(v: Json): Json {
    match v
    case Arr(items) => Arr(seq(|items|, i requires 0 <= i < |items| => Flip(items[i])))
    case Obj(fields) =>
      Obj(seq(|fields|, i requires 0 <= i < |fields| =>
        Field(fields[|fields| - 1 - i].key, Flip(fields[|fields| - 1 - i].value))))
    case _ => v
  }

  lemma {:induction false} FlipIsSame(v: Json)
    ensures Same(v, Flip(v)) && (Flip(v).Undefined? <==> v.Undefined?)
    ensures WellFormed(v) ==> WellFormed(Flip(v))
    decreases v
  {
    match v
    case Arr(items) => forall i | 0 <= i < |items| ensures Same(items[i], Flip(items[i])) &&
                                                         (WellFormed(items[i]) ==> WellFormed(Flip(items[i]))) {
        FlipIsSame(items[i]);
      }
    case Obj(fields) =>
      forall i | 0 <= i < |fields|
        ensures Same(fields[i].value, Flip(fields[i].value))
        ensures Flip(fields[i].value).Undefined? <==> fields[i].value.Undefined?
        ensures WellFormed(fields[i].value) ==> WellFormed(Flip(fields[i].value))
      {
        FlipIsSame(fields[i].value);
      }
      FlippedFields(fields);
    case _ =>
  }

  /** The fields of a flipped object, one by one. */
  lemma FlippedFields(fields: seq<Field>)
    requires forall i | 0 <= i < |fields| ::
               && Same(fields[i].value, Flip(fields[i].value))
               && (Flip(fields[i].value).Undefined? <==> fields[i].value.Undefined?)
               && (WellFormed(fields[i].value) ==> WellFormed(Flip(fields[i].value)))
    ensures Same(Obj(fields), Flip(Obj(fields)))
    ensures WellFormed(Obj(fields)) ==> WellFormed(Flip(Obj(fields)))
  {
    hide Same, Matched, HasDefined, Flip, WellFormed, DistinctKeys;
    var n, flipped := |fields|, Flipped(fields);
    FlipOfObject(fields);
    AboutSame(fields, flipped);
    AboutObject(fields);
    AboutObject(flipped);
    forall i | 0 <= i < n && !fields[i].value.Undefined? ensures Matched(fields[i], flipped) {
      MatchedAt(fields[i], flipped, n - 1 - i);
    }
    forall j | 0 <= j < n && !flipped[j].value.Undefined? ensures HasDefined(fields, flipped[j].key) {
      DefinedAt(fields, n - 1 - j);
    }
    if DistinctKeys(fields) { FlippedKeys(fields); }
  }

  lemma MatchedAt(f: Field, fields: seq<Field>, j: nat)
    requires j < |fields| && fields[j].key == f.key && !fields[j].value.Undefined? && Same(f.value, fields[j].value)
    ensures Matched(f, fields)
  {
    hide Same;
  }

  lemma DefinedAt(fields: seq<Field>, j: nat)
    requires j < |fields| && !fields[j].value.Undefined?
    ensures HasDefined(fields, fields[j].key)
  {
  }

  lemma FlippedKeys(fields: seq<Field>)
    requires DistinctKeys(fields)
    ensures DistinctKeys(Flipped(fields))
  {
    hide Flip;
  }

  function Flipped(fields: seq<Field>): seq<Field> {
    seq(|fields|, i requires 0 <= i < |fields| =>
      Field(fields[|fields| - 1 - i].key, Flip(fields[|fields| - 1 - i].value)))
  }

  lemma FlipOfObject(fields: seq<Field>)
    ensures Flip(Obj(fields)) == Obj(Flipped(fields))
  {
    assert Flipped(fields) == Flip(Obj(fields)).fields;
  }

  /** A field with key `k` stands before one with key `l`. */
  predicate KeyBefore(fields: seq<Field>, k: Key, l: Key) {
    exists i, j :: 0 <= i < j < |fields| && fields[i].key == k && fields[j].key == l
  }

  predicate HasKey(fields: seq<Field>, k: Key) {
    exists i :: 0 <= i < |fields| && fields[i].key == k
  }

  /** With distinct keys the order of two keys is one or the other. */
  lemma OneOrder(fields: seq<Field>, k: Key, l: Key)
    requires DistinctKeys(fields) && k != l
    ensures !(KeyBefore(fields, k, l) && KeyBefore(fields, l, k))
  {
  }

  lemma {:induction false} InsertKeepsKeys(sorted: seq<Field>, f: Field, k: Key)
    ensures HasKey(Insert(sorted, f), k) <==> HasKey(sorted, k) || f.key == k
  {
    forall x ensures x in Insert(sorted, f) <==> x in sorted || x == f { InInsert(sorted, f, x); }
    KeyOf(Insert(sorted, f), k);
    KeyOf(sorted, k);
  }

  lemma KeyOf(fields: seq<Field>, k: Key)
    ensures HasKey(fields, k) <==> exists x :: x in fields && x.key == k
  {
    if x :| x in fields && x.key == k {
      var i :| 0 <= i < |fields| && fields[i] == x;
    }
    if i :| 0 <= i < |fields| && fields[i].key == k {
      assert fields[i] in fields;
    }
  }

  lemma AppendKeepsOrder(init: seq<Field>, last: Field, k: Key, l: Key)
    ensures KeyBefore(init + [last], k, l) <==> KeyBefore(init, k, l) || (HasKey(init, k) && last.key == l)
  {
    var all := init + [last];
    if KeyBefore(init, k, l) {
      var i, j :| 0 <= i < j < |init| && init[i].key == k && init[j].key == l;
      assert all[i].key == k && all[j].key == l;
    }
    if HasKey(init, k) && last.key == l {
      var i :| 0 <= i < |init| && init[i].key == k;
      assert all[i].key == k && all[|init|].key == l;
    }
    if KeyBefore(all, k, l) {
      var i, j :| 0 <= i < j < |all| && all[i].key == k && all[j].key == l;
      assert init[i].key == k;
      if j < |init| { assert init[j].key == l; }
    }
  }

  /** Inserting keeps the order there is, and puts the new field after every key that ranks no higher. */
  lemma {:induction false} InsertIsStable(sorted: seq<Field>, f: Field, k: Key, l: Key)
    requires Ordered(sorted)
    ensures KeyBefore(sorted, k, l) ==> KeyBefore(Insert(sorted, f), k, l)
    ensures HasKey(sorted, k) && Rank(k) <= Rank(f.key) ==> KeyBefore(Insert(sorted, f), k, f.key)
    decreases |sorted|
  {
    if sorted != [] {
      hide KeyBefore, HasKey;
      var init, last := sorted[..|sorted| - 1], sorted[|sorted| - 1];
      assert sorted == init + [last];
      AppendKeepsOrder(sorted, f, k, l);
      AppendKeepsOrder(sorted, f, k, f.key);
      if Rank(last.key) > Rank(f.key) {
        InsertIsStable(init, f, k, l);
        InsertKeepsKeys(init, f, k);
        AppendKeepsOrder(Insert(init, f), last, k, l);
        AppendKeepsOrder(Insert(init, f), last, k, f.key);
        AppendKeepsOrder(init, last, k, l);
        KeyOfAppend(init, last, k);
      }
    } else {
      assert !HasKey(sorted, k) && !KeyBefore(sorted, k, l);
    }
  }

  lemma KeyOfAppend(init: seq<Field>, last: Field, k: Key)
    ensures HasKey(init + [last], k) <==> HasKey(init, k) || last.key == k
  {
    var all := init + [last];
    if HasKey(init, k) {
      var i :| 0 <= i < |init| && init[i].key == k;
      assert all[i].key == k;
    }
    assert all[|init|].key == last.key;
    if HasKey(all, k) {
      var i :| 0 <= i < |all| && all[i].key == k;
      if i < |init| { assert init[i].key == k; }
    }
  }

  lemma {:induction false} SortKeepsKeys(fields: seq<Field>, k: Key)
    ensures HasKey(Sort(fields), k) <==> HasKey(fields, k)
  {
    if fields != [] {
      hide HasKey;
      var init, last := fields[..|fields| - 1], fields[|fields| - 1];
      SortKeepsKeys(init, k);
      InsertKeepsKeys(Sort(init), last, k);
      KeyOfAppend(init, last, k);
      assert fields == init + [last];
    }
  }

  /** The sort is stable: keys that tie keep their order. */
  lemma {:induction false} SortIsStable(fields: seq<Field>, k: Key, l: Key)
    requires KeyBefore(fields, k, l) && Rank(k) <= Rank(l)
    ensures KeyBefore(Sort(fields), k, l)
  {
    hide KeyBefore, HasKey;
    NothingBefore(fields, k, l);
    var init, last := fields[..|fields| - 1], fields[|fields| - 1];
    assert fields == init + [last];
    AppendKeepsOrder(init, last, k, l);
    SortOrders(init);
    if KeyBefore(init, k, l) {
      SortIsStable(init, k, l);
      InsertIsStable(Sort(init), last, k, l);
    } else {
      SortKeepsKeys(init, k);
      InsertIsStable(Sort(init), last, k, l);
    }
  }

  lemma NothingBefore(fields: seq<Field>, k: Key, l: Key)
    requires KeyBefore(fields, k, l)
    ensures fields != []
  {
  }

  // ---------------------------------------------------------------------------------------------
  // A tie shows.
  // ---------------------------------------------------------------------------------------------

  lemma {:induction false} InsertDistinct(sorted: seq<Field>, f: Field)
    requires DistinctKeys(sorted) && !HasKey(sorted, f.key)
    ensures DistinctKeys(Insert(sorted, f))
  {
    if sorted != [] {
      hide HasKey;
      var init, last := sorted[..|sorted| - 1], sorted[|sorted| - 1];
      assert sorted == init + [last];
      KeyOfAppend(init, last, f.key);
      InsertDistinct(init, f);
      InsertKeepsKeys(init, f, last.key);
      LastIsNew(sorted);
      AppendDistinct(Insert(init, f), last);
      if Rank(last.key) <= Rank(f.key) { AppendDistinct(sorted, f); }
    }
  }

  lemma LastIsNew(sorted: seq<Field>)
    requires sorted != [] && DistinctKeys(sorted)
    ensures !HasKey(sorted[..|sorted| - 1], sorted[|sorted| - 1].key)
  {
  }

  lemma AppendDistinct(fields: seq<Field>, f: Field)
    requires DistinctKeys(fields) && !HasKey(fields, f.key)
    ensures DistinctKeys(fields + [f])
  {
  }

  lemma {:induction false} SortDistinct(fields: seq<Field>)
    requires DistinctKeys(fields)
    ensures DistinctKeys(Sort(fields))
  {
    if fields != [] {
      hide HasKey, DistinctKeys;
      PrefixDistinct(fields);
      var init, last := fields[..|fields| - 1], fields[|fields| - 1];
      SortDistinct(init);
      LastIsNew(fields);
      SortKeepsKeys(init, last.key);
      InsertDistinct(Sort(init), last);
    }
  }

  lemma PrefixDistinct(fields: seq<Field>)
    requires fields != [] && DistinctKeys(fields)
    ensures DistinctKeys(fields[..|fields| - 1])
  {
  }

  lemma {:induction false} DefinedDistinct(fields: seq<Field>)
    requires DistinctKeys(fields)
    ensures DistinctKeys(Defined(fields))
    ensures forall k :: HasKey(Defined(fields), k) ==> HasKey(fields, k)
  {
    if fields != [] {
      hide HasKey, DistinctKeys;
      var init, last := fields[..|fields| - 1], fields[|fields| - 1];
      PrefixDistinct(fields);
      DefinedDistinct(init);
      LastIsNew(fields);
      AppendDistinctUnless(Defined(init), last);
      assert fields == init + [last];
      forall k ensures HasKey(Defined(fields), k) ==> HasKey(fields, k) {
        KeyOfAppend(init, last, k);
        KeyOfAppend(Defined(init), last, k);
      }
    }
  }

  lemma AppendDistinctUnless(fields: seq<Field>, f: Field)
    ensures DistinctKeys(fields) && !HasKey(fields, f.key) ==> DistinctKeys(fields + [f])
    ensures fields + [] == fields
  {
  }

  lemma CanonicalIsDistinct(fields: seq<Field>)
    requires DistinctKeys(fields)
    ensures DistinctKeys(CanonicalFields(fields))
  {
    DefinedDistinct(Mapped(fields));
    SortDistinct(Defined(Mapped(fields)));
  }

  lemma {:induction false} DefinedKeepsOrder(fields: seq<Field>, i: nat, j: nat)
    requires i < j < |fields| && !fields[i].value.Undefined? && !fields[j].value.Undefined?
    ensures KeyBefore(Defined(fields), fields[i].key, fields[j].key)
  {
    hide KeyBefore, HasKey;
    var init, last := fields[..|fields| - 1], fields[|fields| - 1];
    AppendKeepsOrder(Defined(init), last, fields[i].key, fields[j].key);
    if j < |init| {
      DefinedKeepsOrder(init, i, j);
      if last.value.Undefined? { assert Defined(init) + [] == Defined(init); }
    } else {
      InDefined(init, fields[i]);
      assert init[i] == fields[i];
      KeyOf(Defined(init), fields[i].key);
    }
  }

  /** Tied keys keep their insertion order in the canonical form. */
  lemma CanonicalKeepsOrder(fields: seq<Field>, i: nat, j: nat)
    requires i < j < |fields| && !fields[i].value.Undefined? && !fields[j].value.Undefined?
    requires Rank(fields[i].key) == Rank(fields[j].key)
    ensures KeyBefore(CanonicalFields(fields), fields[i].key, fields[j].key)
  {
    hide KeyBefore, Canonical;
    UndefinedStays(fields[i].value);
    UndefinedStays(fields[j].value);
    DefinedKeepsOrder(Mapped(fields), i, j);
    SortIsStable(Defined(Mapped(fields)), fields[i].key, fields[j].key);
  }

  /** A tie in an object shows when the object is listed backwards. */
  lemma TieShows(fields: seq<Field>)
    requires DistinctKeys(fields) && !NoTie(fields)
    ensures CanonicalFields(Flipped(fields)) != CanonicalFields(fields)
  {
    var i, j :| 0 <= i < j < |fields| && !fields[i].value.Undefined? && !fields[j].value.Undefined?
                && Rank(fields[i].key) == Rank(fields[j].key);
    hide KeyBefore, CanonicalFields, Canonical, Flip;
    var n := |fields|;
    FlipIsSame(fields[i].value);
    FlipIsSame(fields[j].value);
    CanonicalKeepsOrder(fields, i, j);
    CanonicalKeepsOrder(Flipped(fields), n - 1 - j, n - 1 - i);
    CanonicalIsDistinct(fields);
    OneOrder(CanonicalFields(fields), fields[i].key, fields[j].key);
  }

  /** A field whose value changes shows in the canonical form. */
  lemma ChildShows(fields: seq<Field>, i: nat)
    requires DistinctKeys(fields) && i < |fields| && !fields[i].value.Undefined?
    requires Canonical(Flip(fields[i].value)) != Canonical(fields[i].value)
    ensures CanonicalFields(Flipped(fields)) != CanonicalFields(fields)
  {
    hide CanonicalFields, Canonical, Flip, DistinctKeys;
    var f := Field(fields[i].key, Canonical(fields[i].value));
    var g := Field(fields[i].key, Canonical(Flip(fields[i].value)));
    InCanonical(fields, f);
    InCanonical(Flipped(fields), g);
    FlipIsSame(fields[i].value);
    assert Flipped(fields)[|fields| - 1 - i] == Field(fields[i].key, Flip(fields[i].value));
    CanonicalIsDistinct(fields);
    OneValue(CanonicalFields(fields), f, g);
  }

  lemma OneValue(fields: seq<Field>, f: Field, g: Field)
    requires DistinctKeys(fields) && f.key == g.key && f != g
    ensures !(f in fields && g in fields)
  {
  }

  /** A value with a tie somewhere has another form when its objects are listed backwards. */
  lemma {:induction false} FlipDiffers(v: Json)
    requires WellFormed(v) && !NoTies(v)
    ensures Canonical(Flip(v)) != Canonical(v)
    decreases v
  {
    match v
    case Arr(items) =>
      var i :| 0 <= i < |items| && !NoTies(items[i]);
      FlipDiffers(items[i]);
      assert Canonical(Flip(v)).items[i] == Canonical(Flip(items[i]));
      assert Canonical(v).items[i] == Canonical(items[i]);
    case Obj(fields) => FlippedObjectDiffers(fields);
    case _ =>
  }

  lemma {:induction false} FlippedObjectDiffers(fields: seq<Field>)
    requires WellFormed(Obj(fields)) && !NoTies(Obj(fields))
    ensures Canonical(Flip(Obj(fields))) != Canonical(Obj(fields))
    decreases Obj(fields), 0
  {
    hide CanonicalFields, Canonical, Flip, WellFormed, NoTies, NoTie, DistinctKeys;
    AboutObject(fields);
    FlipOfObject(fields);
    CanonicalOfObject(fields);
    CanonicalOfObject(Flipped(fields));
    if NoTie(fields) {
      var i :| 0 <= i < |fields| && !NoTies(fields[i].value);
      FlipDiffers(fields[i].value);
      TiesAreDefined(fields[i].value);
      ChildShows(fields, i);
    } else {
      TieShows(fields);
    }
  }

  lemma TiesAreDefined(v: Json)
    requires !NoTies(v)
    ensures !v.Undefined?
  {
  }

  /** The hash input of a contract depends on its content alone exactly when no two keys of one of its objects
      collate alike: then every value with the same content has the same canonical form, and only then. */
  lemma FormIsContentIff(a: Json)
    requires WellFormed(a)
    ensures NoTies(a) <==> forall b: Json :: WellFormed(b) ==> (Canonical(b) == Canonical(a) <==> Same(a, b))
  {
    hide Canonical, WellFormed, NoTies, Same, Flip;
    if NoTies(a) {
      forall b: Json | WellFormed(b) ensures Canonical(b) == Canonical(a) <==> Same(a, b) {
        if Canonical(b) == Canonical(a) { FormTellsContent(a, b); }
        if Same(a, b) { ContentFixesForm(a, b); }
      }
    } else {
      FlipIsSame(a);
      FlipDiffers(a);
      assert WellFormed(Flip(a));
    }
  }

  // ---------------------------------------------------------------------------------------------
  // A contract with a tie.
  // ---------------------------------------------------------------------------------------------

  const ACTIVITY := Name(1, 1)
  const CONFIG := Name(2, 2)
  const COMPOSED := Field(Name(3, 3), Scalar(10))
  const DECOMPOSED := Field(Name(4, 3), Scalar(20))

  /** A contract with these fields as the configuration of its activity. */
  function Configured(fields: seq<Field>): Json {
    Obj([Field(ACTIVITY, Obj([Field(CONFIG, Obj(fields))]))])
  }

  /** Two configurations with one content, differing only in the order of two names that collate alike, as a composed
      and a decomposed letter do, give the contract two hash inputs. */
  lemma TiedConfigurations()
    ensures var a, b := Configured([COMPOSED, DECOMPOSED]), Configured([DECOMPOSED, COMPOSED]);
            WellFormed(a) && WellFormed(b) && Same(a, b) && !NoTies(a) && Canonical(a) != Canonical(b)
  {
    hide Same, Canonical, NoTies, WellFormed;
    var a, b := Obj([COMPOSED, DECOMPOSED]), Obj([DECOMPOSED, COMPOSED]);
    SameConfiguration();
    TiedObject();
    OneField(CONFIG, a, b);
    OneField(ACTIVITY, Obj([Field(CONFIG, a)]), Obj([Field(CONFIG, b)]));
  }

  lemma SameConfiguration()
    ensures var a, b := Obj([COMPOSED, DECOMPOSED]), Obj([DECOMPOSED, COMPOSED]);
            WellFormed(a) && WellFormed(b) && Same(a, b)
  {
    hide Same, Matched, HasDefined;
    var a, b := [COMPOSED, DECOMPOSED], [DECOMPOSED, COMPOSED];
    SameScalar();
    MatchedAt(a[0], b, 1);
    MatchedAt(a[1], b, 0);
    DefinedAt(a, 0);
    DefinedAt(a, 1);
    AboutSame(a, b);
  }

  lemma SameScalar()
    ensures Same(COMPOSED.value, COMPOSED.value) && Same(DECOMPOSED.value, DECOMPOSED.value)
  {
  }

  /** The configuration itself has two forms. */
  lemma TiedObject()
    ensures !NoTies(Obj([COMPOSED, DECOMPOSED]))
    ensures Canonical(Obj([COMPOSED, DECOMPOSED])) != Canonical(Obj([DECOMPOSED, COMPOSED]))
  {
    var a := [COMPOSED, DECOMPOSED];
    assert Rank(a[0].key) == Rank(a[1].key);
    assert Flip(COMPOSED.value) == COMPOSED.value && Flip(DECOMPOSED.value) == DECOMPOSED.value;
    assert Flipped(a) == [DECOMPOSED, COMPOSED];
    CanonicalOfObject(a);
    CanonicalOfObject(Flipped(a));
    TieShows(a);
  }

  /** An object with one field carries over what holds of its value. */
  lemma OneField(key: Key, v: Json, w: Json)
    requires WellFormed(v) && WellFormed(w) && Same(v, w) && !NoTies(v) && Canonical(v) != Canonical(w)
    requires !v.Undefined? && !w.Undefined?
    ensures var a, b := Obj([Field(key, v)]), Obj([Field(key, w)]);
            WellFormed(a) && WellFormed(b) && Same(a, b) && !NoTies(a) && Canonical(a) != Canonical(b)
  {
    hide Same, Canonical, NoTies, NoTie, Matched, HasDefined, CanonicalFields;
    var xs, ys := [Field(key, v)], [Field(key, w)];
    AboutObject(xs);
    AboutObject(ys);
    AboutSame(xs, ys);
    MatchedAt(xs[0], ys, 0);
    DefinedAt(xs, 0);
    assert NoTies(xs[0].value) ==> NoTies(v);
    CanonicalOfObject(xs);
    CanonicalOfObject(ys);
    OneFieldForm(key, v);
    OneFieldForm(key, w);
  }

  lemma OneFieldForm(key: Key, v: Json)
    requires !v.Undefined?
    ensures CanonicalFields([Field(key, v)]) == [Field(key, Canonical(v))]
  {
    hide Canonical;
    UndefinedStays(v);
    var f := Field(key, Canonical(v));
    assert Mapped([Field(key, v)]) == [f];
    assert [f][..0] == [];
    assert Defined([f]) == [f];
    assert Sort([f]) == [f];
  }
}
