/**
 * The catalog pages (app/catalogo/page.tsx and pages/catalogo.tsx): the list of
 * distinct categories and the products that pass the search box and the category
 * buttons. Both pages compute the same two values; the first one over normalised
 * products, the second one over the raw catalog data.
 */
module Catalog {
  import opened Opt
  import opened Text
  import opened Seqs
  import opened Products

  // ---------------------------------------------------------------------------
  // The filter

  /** The name or the description contains the search term, ignoring case. */
  predicate MatchesSearch(p: Product, term: string) {
    Includes(ToLower(p.name), ToLower(term)) || Includes(ToLower(p.description), ToLower(term))
  }

  /**
   * `selectedCategory ? product.category === selectedCategory : true`: both `null`
   * (no button chosen) and the empty string are falsy and let every product through.
   */
  predicate MatchesCategory(p: Product, selected: Option<string>) {
    match selected
    case None => true
    case Some(c) => c == "" || p.category == c
  }

  predicate Kept(p: Product, term: string, selected: Option<string>) {
    MatchesSearch(p, term) && MatchesCategory(p, selected)
  }

  /**
   * The search is case-insensitive on both sides: lower-casing the term, or the
   * product's name and description, changes no verdict.
   */
  lemma SearchIgnoresCase(p: Product, term: string)
    ensures MatchesSearch(p, term) == MatchesSearch(p, ToLower(term))
    ensures MatchesSearch(p, term) ==
            MatchesSearch(p.(name := ToLower(p.name), description := ToLower(p.description)), term)
  {
    ToLowerIdempotent(term);
    ToLowerIdempotent(p.name);
    ToLowerIdempotent(p.description);
  }

  /** `filteredProducts`: the products that pass both tests, in catalog order. */
  function FilterProducts(products: seq<Product>, term: string, selected: Option<string>): (r: seq<Product>)
    ensures forall p :: p in r <==> p in products && Kept(p, term, selected)
    ensures IsSubsequence(r, products)
    ensures |r| <= |products|
  {
    if products == [] then []
    else if Kept(products[0], term, selected) then [products[0]] + FilterProducts(products[1..], term, selected)
    else FilterProducts(products[1..], term, selected)
  }

  /** Each kept product is shown as often as it is listed, and the others never. */
  lemma {:induction false} FilterCounts(products: seq<Product>, term: string, selected: Option<string>)
    ensures forall p :: multiset(FilterProducts(products, term, selected))[p] ==
                       (if Kept(p, term, selected) then multiset(products)[p] else 0)
  {
    if products != [] {
      assert products == [products[0]] + products[1..];
      FilterCounts(products[1..], term, selected);
    }
  }

  /** Typing the term in any case shows the same list. */
  lemma {:induction false} FilterIgnoresCase(products: seq<Product>, term: string, selected: Option<string>)
    ensures FilterProducts(products, term, selected) == FilterProducts(products, ToLower(term), selected)
  {
    if products != [] {
      SearchIgnoresCase(products[0], term);
      FilterIgnoresCase(products[1..], term, selected);
    }
  }

  /** With a category selected, every product shown has that category. */
  lemma SelectedCategoryOnly(products: seq<Product>, term: string, c: string)
    requires c != ""
    ensures forall k :: 0 <= k < |FilterProducts(products, term, Some(c))| ==>
      FilterProducts(products, term, Some(c))[k].category == c
  {
    var r := FilterProducts(products, term, Some(c));
    forall k | 0 <= k < |r| ensures r[k].category == c {
      assert r[k] in r;
    }
  }

  /** With no category selected, only the search decides. */
  lemma NoCategoryAllPass(products: seq<Product>, term: string)
    ensures forall p :: p in FilterProducts(products, term, None) <==> p in products && MatchesSearch(p, term)
  {
  }

  /** Choosing a category narrows the list shown with no category, keeping its order. */
  lemma {:induction false} CategoryNarrows(products: seq<Product>, term: string, selected: Option<string>)
    ensures IsSubsequence(FilterProducts(products, term, selected), FilterProducts(products, term, None))
  {
    var r := FilterProducts(products, term, selected);
    var all := FilterProducts(products, term, None);
    if products != [] {
      CategoryNarrows(products[1..], term, selected);
      var r' := FilterProducts(products[1..], term, selected);
      var all' := FilterProducts(products[1..], term, None);
      if Kept(products[0], term, selected) {
        assert r == [products[0]] + r' && all == [products[0]] + all';
        assert r[1..] == r' && all[1..] == all';
      } else if MatchesSearch(products[0], term) {
        assert all == [products[0]] + all';
        assert all[1..] == all';

      }
    }
  }

  /** An empty search term matches every product. */
  lemma EmptyTermMatches(p: Product)
    ensures MatchesSearch(p, "")
  {
    assert ToLower("") == "";
    IncludesEmpty(ToLower(p.name));
  }

  /**
   * The "Limpiar filtros" button sets the search term to "" and the category to
   * `null`: every product of the catalog is shown again, in order.
   */
  lemma {:induction false} ClearedFiltersShowAll(products: seq<Product>)
    ensures FilterProducts(products, "", None) == products
  {
    if products != [] {
      EmptyTermMatches(products[0]);
      ClearedFiltersShowAll(products[1..]);
      assert [products[0]] + products[1..] == products;
    }
  }

  /** The count in the page header, `{filteredProducts.length} productos`. */
  function CountLabel(products: seq<Product>, term: string, selected: Option<string>): string {
    NatToDecimal(|FilterProducts(products, term, selected)|) + " productos"
  }

  /** The header shows the length of the filtered list, written in decimal. */
  lemma CountLabelShowsLength(products: seq<Product>, term: string, selected: Option<string>)
    ensures exists d :: (CountLabel(products, term, selected) == d + " productos" &&
      |d| > 0 && (forall k :: 0 <= k < |d| ==> IsDigit(d[k])) &&
      DecimalValue(d) == |FilterProducts(products, term, selected)|)
  {
    var n := |FilterProducts(products, term, selected)|;
    DecimalRoundTrip(n);
    assert CountLabel(products, term, selected) == NatToDecimal(n) + " productos";
  }

  // ---------------------------------------------------------------------------
  // Distinct categories

  /** `products.map(p => p.category)`. */
  function CategoryList(products: seq<Product>): (r: seq<string>)
    ensures |r| == |products|
    ensures forall k :: 0 <= k < |products| ==> r[k] == products[k].category
  {
    seq(|products|, k requires 0 <= k < |products| => products[k].category)
  }

  /** Insertion into a `Set`, which remembers the order in which values were first added. */
  function SetAdd(acc: seq<string>, x: string): seq<string> {
    if x in acc then acc else acc + [x]
  }

  /** `new Set(xs)` added to an existing set `acc`, one value after the other. */
  function SetAddAll(acc: seq<string>, xs: seq<string>): seq<string>
    decreases xs
  {
    if xs == [] then acc else SetAddAll(SetAdd(acc, xs[0]), xs[1..])
  }

  /** `Array.from(new Set(products.map(p => p.category)))`. */
  function Categories(products: seq<Product>): seq<string> {
    SetAddAll([], CategoryList(products))
  }

  predicate NoDuplicates(xs: seq<string>) {
    forall i, j :: 0 <= i < j < |xs| ==> xs[i] != xs[j]
  }

  /** The position of the first occurrence of `x` in `xs`. */
  function FirstIndex(xs: seq<string>, x: string): (i: nat)
    requires x in xs
    ensures i < |xs| && xs[i] == x && x !in xs[..i]
  {
    if xs[0] == x then 0
    else
      var i := 1 + FirstIndex(xs[1..], x);
      assert xs[..i] == [xs[0]] + xs[1..][..i - 1];
      i
  }

  /** Every value of `ys` occurs in `xs`, and `ys` lists them in order of first occurrence in `xs`. */
  predicate FirstSeenOrder(ys: seq<string>, xs: seq<string>) {
    (forall k :: 0 <= k < |ys| ==> ys[k] in xs) &&
    forall i, j :: 0 <= i < j < |ys| ==> FirstIndex(xs, ys[i]) < FirstIndex(xs, ys[j])
  }

  /** Past the first element, first occurrences in `xs` sit one place later than in `xs[1..]`. */
  lemma FirstIndexTail(xs: seq<string>, x: string)
    requires x in xs && x != xs[0]
    ensures x in xs[1..] && FirstIndex(xs, x) == 1 + FirstIndex(xs[1..], x)
  {
  }

  /** Adding values to a set keeps what it held and adds exactly the new values. */
  lemma {:induction false} SetAddAllKeeps(acc: seq<string>, xs: seq<string>)
    ensures var r := SetAddAll(acc, xs);
      |acc| <= |r| && r[..|acc|] == acc && forall x :: x in r <==> x in acc || x in xs
    decreases xs
  {
    if xs != [] {
      var acc' := SetAdd(acc, xs[0]);
      SetAddAllKeeps(acc', xs[1..]);
      var r := SetAddAll(acc', xs[1..]);
      assert r[..|acc|] == acc'[..|acc|];
      assert forall x :: x in xs <==> x == xs[0] || x in xs[1..];
    }
  }

  /** A set never holds a value twice. */
  lemma {:induction false} SetAddAllNoDuplicates(acc: seq<string>, xs: seq<string>)
    requires NoDuplicates(acc)
    ensures NoDuplicates(SetAddAll(acc, xs))
    decreases xs
  {
    if xs != [] {
      SetAddAllNoDuplicates(SetAdd(acc, xs[0]), xs[1..]);
    }
  }

  /** Values other than `xs[0]`, ordered by first occurrence in `xs[1..]`, are so ordered in `xs`. */
  lemma OrderPastFirst(xs: seq<string>, t: seq<string>)
    requires xs != [] && FirstSeenOrder(t, xs[1..])
    requires forall k :: 0 <= k < |t| ==> t[k] != xs[0]
    ensures FirstSeenOrder(t, xs)
  {
    forall i, j | 0 <= i < j < |t| ensures FirstIndex(xs, t[i]) < FirstIndex(xs, t[j]) {
      FirstIndexTail(xs, t[i]);
      FirstIndexTail(xs, t[j]);
    }
  }

  /** `xs[0]` comes first in that order. */
  lemma OrderWithFirst(xs: seq<string>, t: seq<string>)
    requires xs != [] && FirstSeenOrder(t, xs)
    requires forall k :: 0 <= k < |t| ==> t[k] != xs[0]
    ensures FirstSeenOrder([xs[0]] + t, xs)
  {
    var u := [xs[0]] + t;
    forall j | 0 < j < |u| ensures FirstIndex(xs, u[0]) < FirstIndex(xs, u[j]) {
      assert u[j] == t[j - 1];
    }
    forall i, j | 0 < i < j < |u| ensures FirstIndex(xs, u[i]) < FirstIndex(xs, u[j]) {
      assert u[i] == t[i - 1] && u[j] == t[j - 1];
    }
  }

  /** Whatever a set gains is a value it did not hold before. */
  lemma GainedNotHeld(acc: seq<string>, xs: seq<string>)
    requires NoDuplicates(acc)
    ensures var r := SetAddAll(acc, xs);
      |acc| <= |r| && r[..|acc|] == acc && forall k :: |acc| <= k < |r| ==> r[k] !in acc
  {
    var r := SetAddAll(acc, xs);
    SetAddAllKeeps(acc, xs);
    SetAddAllNoDuplicates(acc, xs);
    forall k | |acc| <= k < |r| ensures r[k] !in acc {
      forall i | 0 <= i < |acc| ensures acc[i] != r[k] {
        assert acc[i] == r[i];
      }
    }
  }

  /**
   * One step of the order proof: `r` extends `acc` plus `xs[0]` with new values in
   * first-seen order for `xs[1..]`, so past `acc` it is in first-seen order for `xs`.
   */
  lemma OrderStep(acc: seq<string>, xs: seq<string>, r: seq<string>)
    requires xs != []
    requires var acc' := SetAdd(acc, xs[0]);
      |acc'| <= |r| && r[..|acc'|] == acc' && FirstSeenOrder(r[|acc'|..], xs[1..]) &&
      forall k :: |acc'| <= k < |r| ==> r[k] !in acc'
    ensures |acc| <= |r| && FirstSeenOrder(r[|acc|..], xs)
  {
    var x := xs[0];
    var acc' := SetAdd(acc, x);
    var t' := r[|acc'|..];
    assert x in acc';
    forall k | 0 <= k < |t'| ensures t'[k] != x {
      assert t'[k] == r[|acc'| + k];
    }
    OrderPastFirst(xs, t');
    if x !in acc {
      OrderWithFirst(xs, t');
      assert r[|acc|] == acc'[|acc|] == x;
      assert r[|acc|..] == [x] + t';
    }
  }

  /**
   * The values a set gains from `xs` are appended in the order in which they first
   * occur in `xs`.
   */
  lemma {:induction false} SetAddAllOrder(acc: seq<string>, xs: seq<string>)
    requires NoDuplicates(acc)
    ensures var r := SetAddAll(acc, xs);
      |acc| <= |r| && FirstSeenOrder(r[|acc|..], xs)
    decreases xs
  {
    if xs != [] {
      var acc' := SetAdd(acc, xs[0]);
      SetAddAllOrder(acc', xs[1..]);
      GainedNotHeld(acc', xs[1..]);
      OrderStep(acc, xs, SetAddAll(acc', xs[1..]));
    } else {
      assert SetAddAll(acc, xs)[|acc|..] == [];
    }
  }

  /**
   * The category buttons: each category of the catalog exactly once, in the order in
   * which it first appears among the products.
   */
  lemma CategoriesDistinctInOrder(products: seq<Product>)
    ensures var r := Categories(products);
      NoDuplicates(r) &&
      (forall c :: c in r <==> exists k :: 0 <= k < |products| && products[k].category == c) &&
      FirstSeenOrder(r, CategoryList(products))
  {
    var r := Categories(products);
    var cats := CategoryList(products);
    SetAddAllKeeps([], cats);
    SetAddAllNoDuplicates([], cats);
    SetAddAllOrder([], cats);
    assert r[0..] == r;
    forall c ensures c in r <==> exists k :: 0 <= k < |products| && products[k].category == c {
      if c in cats {
        var k :| 0 <= k < |cats| && cats[k] == c;
        assert products[k].category == c;
      }
    }
  }

  // ---------------------------------------------------------------------------
  // The two pages

  /** `productsData.map(normalizeProduct)`, the product list of app/catalogo/page.tsx. */
  function NormalizeAll(raw: seq<Product>): (r: seq<Product>)
    ensures |r| == |raw|
    ensures forall k :: 0 <= k < |raw| ==> r[k] == NormalizeProduct(raw[k])
  {
    seq(|raw|, k requires 0 <= k < |raw| => NormalizeProduct(raw[k]))
  }

  /**
   * The filter reads only the name, the description and the category, which
   * normalisation keeps: the normalising page shows the normalised versions of the
   * products the raw page shows.
   */
  lemma {:induction false} FilterCommutesWithNormalize(raw: seq<Product>, term: string, selected: Option<string>)
    ensures FilterProducts(NormalizeAll(raw), term, selected) == NormalizeAll(FilterProducts(raw, term, selected))
  {
    if raw != [] {
      FilterCommutesWithNormalize(raw[1..], term, selected);
      assert NormalizeAll(raw)[1..] == NormalizeAll(raw[1..]);
      KeptIgnoresNormalize(raw[0], term, selected);
      NormalizeAllCons(raw[0], FilterProducts(raw[1..], term, selected));
    }
  }

  /** Normalising a product changes neither its search nor its category verdict. */
  lemma KeptIgnoresNormalize(p: Product, term: string, selected: Option<string>)
    ensures Kept(NormalizeProduct(p), term, selected) == Kept(p, term, selected)
  {
    NormalizeKeepsFields(p);
  }

  /** Normalising a list with a first element normalises that element first. */
  lemma NormalizeAllCons(p: Product, ps: seq<Product>)
    ensures NormalizeAll([p] + ps) == [NormalizeProduct(p)] + NormalizeAll(ps)
  {
  }

  /** Both pages show the same category buttons. */
  lemma CategoriesIgnoreNormalize(raw: seq<Product>)
    ensures Categories(NormalizeAll(raw)) == Categories(raw)
  {
    assert CategoryList(NormalizeAll(raw)) == CategoryList(raw);
  }
}
