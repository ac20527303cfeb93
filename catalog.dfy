/** The catalog page's `filtered_products` (frontend-leptos/src/pages/catalog.rs):
    a case-insensitive substring filter, then a stable sort by name or price
    or, for "Newest", a reversal of the fetched order; and the mapping from
    the sort `<select>` value to a sort order.

    `StableSort` is the reference for Rust's stable `sort_by`: insertion
    sort, which places each element after every earlier element that does
    not compare greater. The lemmas show it sorted, a permutation and
    stable. That every stable sort by the same comparison gives this same
    list is a known fact that is not proved here. */
module Catalog {
  import opened Wrappers
  import opened Text
  import opened ProductTypes

  // ---------------------------------------------------------------------------
  // The sort <select>

  /** The `match value.as_str()` of the select's change handler. */
  function SortOrderFromSelect(value: string): ProductSortOrder {
    if value == "name_asc" then NameAsc
    else if value == "name_desc" then NameDesc
    else if value == "price_asc" then PriceAsc
    else if value == "price_desc" then PriceDesc
    else Newest
  }

  /** The `value` attribute of each `<option>`. */
  function OptionValue(order: ProductSortOrder): string {
    match order
    case Newest => "newest"
    case NameAsc => "name_asc"
    case NameDesc => "name_desc"
    case PriceAsc => "price_asc"
    case PriceDesc => "price_desc"
  }

  /** Choosing an option selects the order it is labelled with, and every
      value other than the four named ones selects Newest. */
  lemma SelectRoundTrip(order: ProductSortOrder, value: string)
    ensures SortOrderFromSelect(OptionValue(order)) == order
    ensures SortOrderFromSelect(value) == Newest <==>
      value != "name_asc" && value != "name_desc" && value != "price_asc" && value != "price_desc"
  {
    match order
    case Newest => assert OptionValue(order)[0] == 'n' && OptionValue(order)[1] == 'e';
    case _ =>
  }

  // ---------------------------------------------------------------------------
  // The search filter

  /** The `retain` predicate, for a query already lower-cased. */
  predicate Matches(p: Product, query: string) {
    || Contains(Lower(p.name), query)
    || (p.description.Some? && Contains(Lower(p.description.value), query))
  }

  function Searched(products: seq<Product>, query: string): seq<Product> {
    if products == [] then []
    else if Matches(products[0], query) then [products[0]] + Searched(products[1..], query)
    else Searched(products[1..], query)
  }

  /** What survives the search box: everything for an empty query. */
  function Kept(products: seq<Product>, query: string): seq<Product> {
    var q := Lower(query);
    if q == "" then products else Searched(products, q)
  }

  lemma {:induction false} SearchedDistributes(a: seq<Product>, b: seq<Product>, query: string)
    ensures Searched(a + b, query) == Searched(a, query) + Searched(b, query)
  {
    if a == [] {
      assert a + b == b;
    } else {
      assert (a + b)[0] == a[0] && (a + b)[1..] == a[1..] + b;
      SearchedDistributes(a[1..], b, query);
    }
  }

  /** The filter keeps exactly the matching products, adds and duplicates
      nothing, and keeps their order (it distributes over concatenation). */
  lemma {:induction false} SearchedMeaning(products: seq<Product>, query: string)
    ensures forall p :: p in Searched(products, query) <==> p in products && Matches(p, query)
    ensures multiset(Searched(products, query)) <= multiset(products)
    ensures (forall i :: 0 <= i < |products| ==> Matches(products[i], query)) ==> Searched(products, query) == products
  {
    if products != [] {
      SearchedMeaning(products[1..], query);
      assert products == [products[0]] + products[1..];
    }
  }

  /** An empty query keeps every product; a query is matched against
      lower-cased names and descriptions, so its own case does not matter. */
  lemma KeptMeaning(products: seq<Product>, query: string)
    ensures Lower(query) == "" ==> Kept(products, query) == products
    ensures Kept(products, query) == Kept(products, Lower(query))
    ensures forall p :: p in Kept(products, query) <==> p in products && (Lower(query) == "" || Matches(p, Lower(query)))
  {
    SearchedMeaning(products, Lower(query));
    LowerIdempotent(query);
  }

  lemma {:induction false} LowerIdempotent(s: string)
    ensures Lower(Lower(s)) == Lower(s)
  {
    assert forall i :: 0 <= i < |s| ==> LowerChar(LowerChar(s[i])) == LowerChar(s[i]);
  }

  // ---------------------------------------------------------------------------
  // The comparison and the reference sort

  /** `a` may stay before `b`: the `sort_by` closure does not answer Greater.
      Names compare as Rust's `String::cmp`; prices are finite. Newest is
      never sorted, and every pair is in order for it. */
  predicate Le(order: ProductSortOrder, a: Product, b: Product) {
    match order
    case NameAsc => LexLe(a.name, b.name)
    case NameDesc => LexLe(b.name, a.name)
    case PriceAsc => a.price <= b.price
    case PriceDesc => b.price <= a.price
    case Newest => true
  }

  /** `a` and `b` compare Equal. */
  predicate SameKey(order: ProductSortOrder, a: Product, b: Product) {
    Le(order, a, b) && Le(order, b, a)
  }

  lemma LeTotal(order: ProductSortOrder, a: Product, b: Product)
    ensures Le(order, a, b) || Le(order, b, a)
  {
    LexLeTotal(a.name, b.name);
  }

  lemma LeTransitive(order: ProductSortOrder, a: Product, b: Product, c: Product)
    requires Le(order, a, b) && Le(order, b, c)
    ensures Le(order, a, c)
  {
    match order
    case NameAsc => LexLeTransitive(a.name, b.name, c.name);
    case NameDesc => LexLeTransitive(c.name, b.name, a.name);
    case _ =>
  }

  /** For the name orders, comparing Equal means having the same name. */
  lemma SameKeyIsSameName(order: ProductSortOrder, a: Product, b: Product)
    requires order == NameAsc || order == NameDesc
    ensures SameKey(order, a, b) <==> a.name == b.name
  {
    if SameKey(order, a, b) {
      LexLeAntisymmetric(a.name, b.name);
    } else {
      LexLeTotal(a.name, b.name);
      if a.name == b.name {
        LexLeReflexive(a.name);
      }
    }
  }

  lemma {:induction false} LexLeReflexive(s: string)
    ensures LexLe(s, s)
  {
    if |s| > 0 {
      LexLeReflexive(s[1..]);
    }
  }

  ghost predicate Sorted(order: ProductSortOrder, s: seq<Product>) {
    forall i, j :: 0 <= i < j < |s| ==> Le(order, s[i], s[j])
  }

  /** Insert `x` after every element of `s` that does not compare greater. */
  function Insert(order: ProductSortOrder, x: Product, s: seq<Product>): seq<Product>
    decreases |s|
  {
    if s == [] || Le(order, s[|s| - 1], x) then s + [x]
    else Insert(order, x, s[..|s| - 1]) + [s[|s| - 1]]
  }

  function StableSort(order: ProductSortOrder, s: seq<Product>): seq<Product>
    decreases |s|
  {
    if s == [] then [] else Insert(order, s[|s| - 1], StableSort(order, s[..|s| - 1]))
  }

  /** The elements of `s` that compare Equal to `p`, in order. */
  function WithKeyOf(order: ProductSortOrder, s: seq<Product>, p: Product): seq<Product>
    decreases |s|
  {
    if s == [] then []
    else WithKeyOf(order, s[..|s| - 1], p) + (if SameKey(order, s[|s| - 1], p) then [s[|s| - 1]] else [])
  }

  lemma {:induction false} WithKeyOfDistributes(order: ProductSortOrder, a: seq<Product>, b: seq<Product>, p: Product)
    ensures WithKeyOf(order, a + b, p) == WithKeyOf(order, a, p) + WithKeyOf(order, b, p)
    decreases |b|
  {
    if b == [] {
      assert a + b == a;
    } else {
      var b' := b[..|b| - 1];
      assert (a + b)[..|a + b| - 1] == a + b' && (a + b)[|a + b| - 1] == b[|b| - 1];
      WithKeyOfDistributes(order, a, b', p);
    }
  }

  lemma {:induction false} InsertPermutes(order: ProductSortOrder, x: Product, s: seq<Product>)
    ensures multiset(Insert(order, x, s)) == multiset(s) + multiset{x}
    decreases |s|
  {
    if !(s == [] || Le(order, s[|s| - 1], x)) {
      var s', y := s[..|s| - 1], s[|s| - 1];
      assert s == s' + [y];
      InsertPermutes(order, x, s');
    }
  }

  /** Every element of a sorted list before its last one may precede it. */
  lemma SortedBeforeLast(order: ProductSortOrder, s: seq<Product>, e: Product)
    requires Sorted(order, s) && s != [] && e in multiset(s[..|s| - 1])
    ensures Le(order, e, s[|s| - 1])
  {
    var k :| 0 <= k < |s| - 1 && s[..|s| - 1][k] == e;
    assert s[k] == e;
  }

  lemma {:induction false} InsertSorted(order: ProductSortOrder, x: Product, s: seq<Product>)
    requires Sorted(order, s)
    ensures Sorted(order, Insert(order, x, s))
    decreases |s|
  {
    if s == [] || Le(order, s[|s| - 1], x) {
      if s != [] {
        forall i | 0 <= i < |s| - 1
          ensures Le(order, s[i], x)
        {
          LeTransitive(order, s[i], s[|s| - 1], x);
        }
      }
    } else {
      var s', y := s[..|s| - 1], s[|s| - 1];
      InsertSorted(order, x, s');
      InsertPermutes(order, x, s');
      var ins := Insert(order, x, s');
      LeTotal(order, x, y);
      forall i | 0 <= i < |ins|
        ensures Le(order, ins[i], y)
      {
        assert ins[i] in multiset(ins);
        if ins[i] != x {
          SortedBeforeLast(order, s, ins[i]);
        }
      }
      assert Insert(order, x, s) == ins + [y];
      forall i, j | 0 <= i < j < |ins| + 1
        ensures Le(order, (ins + [y])[i], (ins + [y])[j])
      {
        if j < |ins| {
          assert (ins + [y])[i] == ins[i] && (ins + [y])[j] == ins[j];
        }
      }
    }
  }

  /** When `y` compares greater than `x`, at most one of them has the key of
      `p`, so their key lists commute. */
  lemma KeysOfOutOfOrderCommute(order: ProductSortOrder, x: Product, y: Product, p: Product)
    requires !Le(order, y, x)
    ensures WithKeyOf(order, [x], p) + WithKeyOf(order, [y], p) == WithKeyOf(order, [y], p) + WithKeyOf(order, [x], p)
  {
    assert [x][..0] == [] && [y][..0] == [];
    if SameKey(order, x, p) && SameKey(order, y, p) {
      LeTransitive(order, y, p, x);
    }
  }

  /** One step of `Insert` past an element `y` that compares greater than
      `x` keeps the key lists of `x` and of the rest apart. */
  lemma InsertStableStep(order: ProductSortOrder, x: Product, y: Product, s': seq<Product>, ins: seq<Product>, p: Product)
    requires !Le(order, y, x)
    requires WithKeyOf(order, ins, p) == WithKeyOf(order, s', p) + WithKeyOf(order, [x], p)
    ensures WithKeyOf(order, ins + [y], p) == WithKeyOf(order, s' + [y], p) + WithKeyOf(order, [x], p)
  {
    var a, kx, ky := WithKeyOf(order, s', p), WithKeyOf(order, [x], p), WithKeyOf(order, [y], p);
    calc {
      WithKeyOf(order, ins + [y], p);
      { WithKeyOfDistributes(order, ins, [y], p); }
      (a + kx) + ky;
      a + (kx + ky);
      { KeysOfOutOfOrderCommute(order, x, y, p); }
      a + (ky + kx);
      (a + ky) + kx;
      { WithKeyOfDistributes(order, s', [y], p); }
      WithKeyOf(order, s' + [y], p) + kx;
    }
  }

  /** Inserting `x` places it after every element with the same key. */
  lemma {:induction false} InsertStable(order: ProductSortOrder, x: Product, s: seq<Product>, p: Product)
    ensures WithKeyOf(order, Insert(order, x, s), p) == WithKeyOf(order, s, p) + WithKeyOf(order, [x], p)
    decreases |s|
  {
    if s == [] || Le(order, s[|s| - 1], x) {
      WithKeyOfDistributes(order, s, [x], p);
    } else {
      var s', y := s[..|s| - 1], s[|s| - 1];
      assert s == s' + [y];
      InsertStable(order, x, s', p);
      InsertStableStep(order, x, y, s', Insert(order, x, s'), p);
    }
  }

  lemma {:induction false} StableSortPermutes(order: ProductSortOrder, s: seq<Product>)
    ensures multiset(StableSort(order, s)) == multiset(s)
    decreases |s|
  {
    if s != [] {
      var s', x := s[..|s| - 1], s[|s| - 1];
      StableSortPermutes(order, s');
      InsertPermutes(order, x, StableSort(order, s'));
      assert s == s' + [x];
    }
  }

  lemma {:induction false} StableSortSorted(order: ProductSortOrder, s: seq<Product>)
    ensures Sorted(order, StableSort(order, s))
    decreases |s|
  {
    if s != [] {
      var s', x := s[..|s| - 1], s[|s| - 1];
      StableSortSorted(order, s');
      InsertSorted(order, x, StableSort(order, s'));
    }
  }

  lemma {:induction false} StableSortStable(order: ProductSortOrder, s: seq<Product>, p: Product)
    ensures WithKeyOf(order, StableSort(order, s), p) == WithKeyOf(order, s, p)
    decreases |s|
  {
    if s != [] {
      var s', x := s[..|s| - 1], s[|s| - 1];
      StableSortStable(order, s', p);
      InsertStable(order, x, StableSort(order, s'), p);
      WithKeyOfDistributes(order, s', [x], p);
      assert s == s' + [x];
    }
  }

  /** The reference sort is sorted, a permutation of its input, and stable:
      for every key, the elements with that key appear in their input order. */
  lemma StableSortMeaning(order: ProductSortOrder, s: seq<Product>)
    ensures Sorted(order, StableSort(order, s))
    ensures multiset(StableSort(order, s)) == multiset(s)
    ensures forall p :: WithKeyOf(order, StableSort(order, s), p) == WithKeyOf(order, s, p)
  {
    StableSortSorted(order, s);
    StableSortPermutes(order, s);
    forall p
      ensures WithKeyOf(order, StableSort(order, s), p) == WithKeyOf(order, s, p)
    {
      StableSortStable(order, s, p);
    }
  }

  // ---------------------------------------------------------------------------
  // The closure, step by step on a local list

  /** Inserting into a prefix whose last element compares greater than `x`
      is inserting into the shorter prefix, with that element kept after. */
  lemma InsertPassesGreater(order: ProductSortOrder, x: Product, r: seq<Product>, j: int)
    requires 0 < j <= |r| && !Le(order, r[j - 1], x)
    ensures Insert(order, x, r[..j]) + r[j..] == Insert(order, x, r[..j - 1]) + r[j - 1..]
  {
    assert r[..j][..j - 1] == r[..j - 1];
    assert r[j - 1..] == [r[j - 1]] + r[j..];
  }

  /** `prods.retain(..)` for a non-empty lower-cased query. */
  method RetainMatching(prods: seq<Product>, query: string) returns (r: seq<Product>)
    ensures r == Searched(prods, query)
  {
    r := [];
    var i := 0;
    while i < |prods|
      invariant 0 <= i <= |prods|
      invariant r == Searched(prods[..i], query)
    {
      SearchedDistributes(prods[..i], [prods[i]], query);
      assert prods[..i + 1] == prods[..i] + [prods[i]];
      if Matches(prods[i], query) {
        r := r + [prods[i]];
      }
      i := i + 1;
    }
    assert prods[..i] == prods;
  }

  /** One step of the insertion sort: shift `x` left past every element
      that compares greater. */
  method InsertInto(r: seq<Product>, x: Product, order: ProductSortOrder) returns (r': seq<Product>)
    ensures r' == Insert(order, x, r)
  {
    var j := |r|;
    assert r[..j] == r && r[j..] == [];
    while j > 0 && !Le(order, r[j - 1], x)
      invariant 0 <= j <= |r|
      invariant Insert(order, x, r) == Insert(order, x, r[..j]) + r[j..]
    {
      InsertPassesGreater(order, x, r, j);
      j := j - 1;
    }
    r' := r[..j] + [x] + r[j..];
  }

  /** `prods.sort_by(..)`: insertion sort. */
  method SortBy(prods: seq<Product>, order: ProductSortOrder) returns (r: seq<Product>)
    ensures r == StableSort(order, prods)
    ensures Sorted(order, r) && multiset(r) == multiset(prods)
  {
    r := [];
    var i := 0;
    while i < |prods|
      invariant 0 <= i <= |prods|
      invariant r == StableSort(order, prods[..i])
    {
      assert prods[..i + 1][..i] == prods[..i] && prods[..i + 1][i] == prods[i];
      r := InsertInto(r, prods[i], order);
      i := i + 1;
    }
    assert prods[..i] == prods;
    StableSortMeaning(order, prods);
  }

  /** `prods.reverse()`. */
  method Reverse(prods: seq<Product>) returns (r: seq<Product>)
    ensures |r| == |prods|
    ensures forall i :: 0 <= i < |prods| ==> r[i] == prods[|prods| - 1 - i]
  {
    r := [];
    var i := |prods|;
    while i > 0
      invariant 0 <= i <= |prods|
      invariant |r| == |prods| - i
      invariant forall k :: 0 <= k < |r| ==> r[k] == prods[|prods| - 1 - k]
    {
      i := i - 1;
      r := r + [prods[i]];
    }
  }

  /** The `filtered_products` closure: nothing until the fetch has succeeded;
      then the kept products sorted stably by the chosen order, or reversed
      for Newest. */
  method FilteredProducts(fetched: Option<Result<seq<Product>, string>>, query: string, order: ProductSortOrder)
    returns (r: Option<seq<Product>>)
    ensures r.None? <==> fetched.None? || fetched.value.Failure?
    ensures r.Some? && order != Newest ==>
      var kept := Kept(fetched.value.value, query);
      && r.value == StableSort(order, kept)
      && Sorted(order, r.value)
      && multiset(r.value) == multiset(kept)
      && (forall p :: WithKeyOf(order, r.value, p) == WithKeyOf(order, kept, p))
    ensures r.Some? && order == Newest ==>
      var kept := Kept(fetched.value.value, query);
      |r.value| == |kept| && forall i :: 0 <= i < |kept| ==> r.value[i] == kept[|kept| - 1 - i]
  {
    if fetched.None? || fetched.value.Failure? {
      return None;
    }
    var prods := fetched.value.value;
    var q := Lower(query);
    if q != "" {
      prods := RetainMatching(prods, q);
    }
    if order == Newest {
      prods := Reverse(prods);
    } else {
      prods := SortBy(prods, order);
      StableSortMeaning(order, Kept(fetched.value.value, query));
    }
    r := Some(prods);
  }
}
