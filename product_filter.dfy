// The shop's product list: a category and search filter followed by a sort on
// a copy. The array sort is stable, so each sort mode is a stable sort by a
// numeric key.

module ProductFilter {
  import Seqs
  import Text
  import opened Shop

  /** The kept products: category `'all'` or equal, and the term inside the name or the brand. */
  predicate Matches(p: Product, category: string, term: string)
  {
    && (category == "all" || p.category == category)
    && (Text.Contains(Text.ToLower(p.name), Text.ToLower(term)) || Text.Contains(Text.ToLower(p.brand), Text.ToLower(term)))
  }

  /** `filteredProducts`. */
  function FilterProducts(products: seq<Product>, category: string, term: string): seq<Product>
  {
    Seqs.Filter(products, (p: Product) => Matches(p, category, term))
  }

  /** A product is listed exactly when it is among the products and matches. */
  lemma FilterKeepsExactlyMatches(products: seq<Product>, category: string, term: string, p: Product)
    ensures p in FilterProducts(products, category, term) <==> p in products && Matches(p, category, term)
  {
    var r := FilterProducts(products, category, term);
    if p in r {
      var i :| 0 <= i < |r| && r[i] == p;
    }
    if p in products && Matches(p, category, term) {
      var i :| 0 <= i < |products| && products[i] == p;
    }
  }

  /** The filter keeps the products' order. */
  lemma FilterKeepsOrder(products: seq<Product>, category: string, term: string)
    ensures Seqs.IsSubsequence(FilterProducts(products, category, term), products)
  {
    Seqs.FilterIsSubsequence(products, (p: Product) => Matches(p, category, term));
  }

  /** No search term and category `'all'` list every product. */
  lemma EmptySearchKeepsAll(products: seq<Product>)
    ensures FilterProducts(products, "all", "") == products
  {
    forall i | 0 <= i < |products| ensures Matches(products[i], "all", "")
    {
      Text.ContainsEmpty(Text.ToLower(products[i].name));
    }
    Seqs.FilterKeepsAll(products, (p: Product) => Matches(p, "all", ""));
  }

  /** Search ignores ASCII case: an upper-case term finds what its lower-case form finds. */
  lemma SearchIgnoresCase(products: seq<Product>, category: string, term: string)
    ensures FilterProducts(products, category, Text.ToLower(term)) == FilterProducts(products, category, term)
  {
    var lt := Text.ToLower(term);
    assert Text.ToLower(lt) == Text.ToLower(term) by {
      forall i | 0 <= i < |lt| ensures Text.ToLower(lt)[i] == lt[i] { }
    }
    Seqs.FilterSame(products, (p: Product) => Matches(p, category, lt), (p: Product) => Matches(p, category, term));
  }

  datatype SortMode = Featured | Newest | PriceLow | PriceHigh

  /** `activeSorting`'s value; anything unrecognised sorts as featured. */
  function ModeOf(s: string): SortMode
  {
    if s == "newest" then Newest
    else if s == "price-low" then PriceLow
    else if s == "price-high" then PriceHigh
    else Featured
  }

  /** The key each mode orders by, smallest first. */
  function KeyFn(mode: SortMode): Product -> int
  {
    match mode
    case Featured => (p: Product) => if p.bestseller then 0 else 1
    case Newest => (p: Product) => if p.isNew then 0 else 1
    case PriceLow => (p: Product) => EffectivePrice(p)
    case PriceHigh => (p: Product) => 0 - EffectivePrice(p) as int
  }

  /** Keys never decrease along `s`. */
  predicate Sorted<T>(s: seq<T>, key: T -> int)
  {
    forall i, j :: 0 <= i < j < |s| ==> key(s[i]) <= key(s[j])
  }

  /** `x` placed before the first element whose key is not smaller. */
  function Insert<T>(x: T, s: seq<T>, key: T -> int): (r: seq<T>)
    ensures |r| == |s| + 1
    ensures r[0] == x || (s != [] && r[0] == s[0])
    ensures multiset(r) == multiset(s) + multiset{x}
  {
    if s == [] then [x]
    else if key(x) <= key(s[0]) then [x] + s
    else
      assert s == [s[0]] + s[1..];
      [s[0]] + Insert(x, s[1..], key)
  }

  /** Stable insertion sort by `key`. */
  function SortByKey<T>(s: seq<T>, key: T -> int): (r: seq<T>)
    ensures multiset(r) == multiset(s)
  {
    if s == [] then []
    else
      assert s == [s[0]] + s[1..];
      Insert(s[0], SortByKey(s[1..], key), key)
  }

  /** The elements with key `k`, in order. */
  function WithKey<T(==)>(s: seq<T>, key: T -> int, k: int): seq<T>
  {
    Seqs.Filter(s, (p: T) => key(p) == k)
  }

  /** Inserting into elements whose keys are at least `b` an element whose key is too keeps that bound. */
  lemma {:induction false} InsertAbove<T>(x: T, s: seq<T>, key: T -> int, b: int)
    requires b <= key(x) && forall i :: 0 <= i < |s| ==> b <= key(s[i])
    ensures forall j :: 0 <= j < |Insert(x, s, key)| ==> b <= key(Insert(x, s, key)[j])
  {
    if s != [] && key(x) > key(s[0]) {
      var rest := s[1..];
      assert forall i :: 0 <= i < |rest| ==> b <= key(rest[i]) by {
        forall i | 0 <= i < |rest| ensures b <= key(rest[i]) { assert rest[i] == s[i + 1]; }
      }
      InsertAbove(x, rest, key, b);
      var r := Insert(x, s, key);
      forall j | 0 <= j < |r| ensures b <= key(r[j])
      {
        if j > 0 {
          assert r[j] == Insert(x, rest, key)[j - 1];
        }
      }
    }
  }

  lemma {:induction false} InsertSorted<T>(x: T, s: seq<T>, key: T -> int)
    requires Sorted(s, key)
    ensures Sorted(Insert(x, s, key), key)
  {
    if s != [] && key(x) > key(s[0]) {
      var rest := s[1..];
      var t := Insert(x, rest, key);
      InsertSorted(x, rest, key);
      assert forall i :: 0 <= i < |rest| ==> key(s[0]) <= key(rest[i]) by {
        forall i | 0 <= i < |rest| ensures key(s[0]) <= key(rest[i]) { assert rest[i] == s[i + 1]; }
      }
      InsertAbove(x, rest, key, key(s[0]));
      var r := [s[0]] + t;
      forall i, j | 0 <= i < j < |r| ensures key(r[i]) <= key(r[j])
      {
        if i > 0 {
          assert r[i] == t[i - 1] && r[j] == t[j - 1];
        } else {
          assert r[j] == t[j - 1];
        }
      }
    }
  }

  /** The sort's output is ordered by the key. */
  lemma {:induction false} SortByKeySorted<T>(s: seq<T>, key: T -> int)
    ensures Sorted(SortByKey(s, key), key)
  {
    if s != [] {
      SortByKeySorted(s[1..], key);
      InsertSorted(s[0], SortByKey(s[1..], key), key);
    }
  }

  lemma {:induction false} InsertStable<T>(x: T, s: seq<T>, key: T -> int, k: int)
    ensures WithKey(Insert(x, s, key), key, k) == (if key(x) == k then [x] else []) + WithKey(s, key, k)
  {
    var P := (p: T) => key(p) == k;
    if s == [] {
    } else if key(x) <= key(s[0]) {
      assert ([x] + s)[1..] == s;
    } else {
      var t := Insert(x, s[1..], key);
      InsertStable(x, s[1..], key, k);
      assert ([s[0]] + t)[1..] == t;
      assert WithKey(s, key, k) == (if P(s[0]) then [s[0]] else []) + WithKey(s[1..], key, k);
    }
  }

  /** The sort is stable: the products sharing any one key keep their relative order. */
  lemma {:induction false} SortByKeyStable<T>(s: seq<T>, key: T -> int, k: int)
    ensures WithKey(SortByKey(s, key), key, k) == WithKey(s, key, k)
  {
    if s != [] {
      SortByKeyStable(s[1..], key, k);
      InsertStable(s[0], SortByKey(s[1..], key), key, k);
    }
  }

  /** `sortedProducts`: a stable sort of a copy under the chosen mode. */
  function SortProducts(products: seq<Product>, mode: SortMode): (r: seq<Product>)
    ensures multiset(r) == multiset(products)
  {
    SortByKey(products, KeyFn(mode))
  }

  /** The list the shop shows: the matching products, sorted. */
  function VisibleProducts(products: seq<Product>, category: string, sorting: string, term: string): seq<Product>
  {
    SortProducts(FilterProducts(products, category, term), ModeOf(sorting))
  }

  /**
   * What each sort mode promises: a permutation of the filtered list; price-low has
   * non-decreasing effective prices, price-high non-increasing ones, newest lists every new
   * product first and featured every bestseller first; products that tie keep their order.
   */
  lemma SortModes(products: seq<Product>, mode: SortMode, k: int)
    ensures multiset(SortProducts(products, mode)) == multiset(products)
    ensures var r := SortProducts(products, mode);
      && (mode == PriceLow ==> forall i, j :: 0 <= i < j < |r| ==> EffectivePrice(r[i]) <= EffectivePrice(r[j]))
      && (mode == PriceHigh ==> forall i, j :: 0 <= i < j < |r| ==> EffectivePrice(r[i]) >= EffectivePrice(r[j]))
      && (mode == Newest ==> forall i, j :: 0 <= i < j < |r| && r[j].isNew ==> r[i].isNew)
      && (mode == Featured ==> forall i, j :: 0 <= i < j < |r| && r[j].bestseller ==> r[i].bestseller)
    ensures WithKey(SortProducts(products, mode), KeyFn(mode), k) == WithKey(products, KeyFn(mode), k)
  {
    SortByKeySorted(products, KeyFn(mode));
    SortByKeyStable(products, KeyFn(mode), k);
  }

  /** The shown list holds exactly the matching products, each as often as in the catalogue. */
  lemma VisibleIsSortedFilter(products: seq<Product>, category: string, sorting: string, term: string, p: Product)
    ensures p in VisibleProducts(products, category, sorting, term) <==> p in products && Matches(p, category, term)
  {
    var f := FilterProducts(products, category, term);
    assert p in VisibleProducts(products, category, sorting, term) <==> p in multiset(f);
    FilterKeepsExactlyMatches(products, category, term, p);
  }
}
