/** The catalog view of the client: which products `applyFilters` shows for a category and a query. */
module Catalog {
  import opened Wrappers
  import opened Seqs
  import opened Strings
  import opened Shop

  /** The label of the category button that shows every category. */
  const AllCategories := "All"

  /** The category test: the "All" button, or the product's own category. */
  predicate InCategory(p: Product, category: string)
  {
    category == AllCategories || p.category == category
  }

  /** The search test: no query, or the query inside the lower-cased name or description. */
  predicate InSearch(p: Product, query: string)
  {
    query == [] || Contains(Lower(p.name), query) || Contains(Lower(p.desc), query)
  }

  predicate Shown(p: Product, category: string, query: string)
  {
    InCategory(p, category) && InSearch(p, query)
  }

  function ShownBy(category: string, query: string): Product -> bool
  {
    (p: Product) => Shown(p, category, query)
  }

  /** The products shown for `category` and `query`: exactly those passing both tests, none added. */
  function Filtered(products: seq<Product>, category: string, query: string): (r: seq<Product>)
    ensures |r| <= |products|
    ensures forall k :: 0 <= k < |r| ==> r[k] in products && Shown(r[k], category, query)
    ensures forall k :: 0 <= k < |products| && Shown(products[k], category, query) ==> products[k] in r
  {
    Filter(products, ShownBy(category, query))
  }

  /** `category || activeButtonCategory`: an empty category falls back to the active button's. */
  function ActiveCategory(category: string, active: string): string
  {
    if category != [] then category else active
  }

  /** An explicit query is used as given; otherwise the search box, trimmed and lower-cased. */
  function ActiveQuery(query: Option<string>, searchBox: string): string
  {
    match query
    case Some(q) => q
    case None => Lower(Trim(searchBox))
  }

  /** The filter keeps the catalog order: filtering two runs of products filters each in turn. */
  lemma FilteredKeepsOrder(a: seq<Product>, b: seq<Product>, category: string, query: string)
    ensures Filtered(a + b, category, query) == Filtered(a, category, query) + Filtered(b, category, query)
  {
    FilterAppend(a, b, ShownBy(category, query));
  }

  /** With the "All" category and an empty query, every product is shown, in order. */
  lemma FilteredAllShowsEverything(products: seq<Product>)
    ensures Filtered(products, AllCategories, "") == products
  {
    FilterAll(products, ShownBy(AllCategories, ""));
  }

  /** A product is shown exactly when it is in the catalog and passes both tests. */
  lemma FilteredMembership(products: seq<Product>, category: string, query: string, p: Product)
    ensures p in Filtered(products, category, query) <==> p in products && Shown(p, category, query)
  {
    var r := Filtered(products, category, query);
    if p in r {
      var k :| 0 <= k < |r| && r[k] == p;
    }
    if p in products && Shown(p, category, query) {
      var k :| 0 <= k < |products| && products[k] == p;
    }
  }

  lemma {:induction false} MugMatches()
    ensures Contains(Lower("Red Mug"), "mug")
  {
    var lower := Lower("Red Mug");
    assert lower[4..7] == "mug";
    assert OccursAt(lower, "mug", 4);
    ContainsAt(lower, "mug");
  }

  /** Text without the letter m, in either case, cannot contain "mug" once lower-cased. */
  lemma {:induction false} NoMugWithoutM(s: string)
    requires forall k :: 0 <= k < |s| ==> s[k] != 'm' && s[k] != 'M'
    ensures !Contains(Lower(s), "mug")
  {
    var lower := Lower(s);
    ContainsAt(lower, "mug");
    forall i | 0 <= i && i + 3 <= |lower| ensures !OccursAt(lower, "mug", i) {
      assert lower[i..i + 3][0] == lower[i] == LowerChar(s[i]) != 'm';
    }
  }

  lemma {:induction false} PenDoesNotMatch()
    ensures !Contains(Lower("Blue Pen"), "mug") && !Contains(Lower(""), "mug")
  {
    NoMugWithoutM("Blue Pen");
    NoMugWithoutM("");
  }

  /** Two products shown or hidden in turn. */
  lemma {:induction false} FilteredPair(a: Product, b: Product, category: string, query: string)
    ensures Filtered([a, b], category, query)
         == (if Shown(a, category, query) then [a] else []) + (if Shown(b, category, query) then [b] else [])
  {
    var shown := ShownBy(category, query);
    assert shown(a) == Shown(a, category, query) && shown(b) == Shown(b, category, query);
    assert [a, b][1..] == [b];
    assert [b][1..] == [];
    assert Filter([b], shown) == (if shown(b) then [b] else []) + Filter([], shown);
    assert Filter([a, b], shown) == (if shown(a) then [a] else []) + Filter([b], shown);
  }

  /** The two-product catalog: "mug" under "All" finds the mug, "Stationery" with no query the pen. */
  lemma {:induction false} FilteredExample()
    ensures
      var mug := Product(1, "Red Mug", "", 0, "Kitchen", "");
      var pen := Product(2, "Blue Pen", "", 0, "Stationery", "");
      Filtered([mug, pen], "All", "mug") == [mug] && Filtered([mug, pen], "Stationery", "") == [pen]
  {
    var mug := Product(1, "Red Mug", "", 0, "Kitchen", "");
    var pen := Product(2, "Blue Pen", "", 0, "Stationery", "");
    MugMatches();
    PenDoesNotMatch();
    FilteredPair(mug, pen, "All", "mug");
    FilteredPair(mug, pen, "Stationery", "");
    assert Shown(mug, "All", "mug") && !Shown(pen, "All", "mug");
    assert !Shown(mug, "Stationery", "") && Shown(pen, "Stationery", "");
  }
}
