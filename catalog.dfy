/**
 * The storefront's static product catalog and the category filter applied to
 * it on the product list page.
 */
module Catalog {
  import opened Optional

  /** The closed set of product categories. */
  datatype Category = Ebooks | Photos | Videos | Physical

  /**
   * A catalog entry. The price is a whole number of cents, so that every sum
   * of prices in the cart is exact. The name, description and image URL are
   * display data that no operation reads, and are not part of the model.
   */
  datatype Product = Product(id: int, price: nat, category: Category)

  /** The fixed catalog, in definition order: eight products with ids 1 to 8. */
  function Products(): (r: seq<Product>)
    ensures |r| == 8
    ensures forall i :: 0 <= i < |r| ==> r[i].id == i + 1
  {
    [ Product(1, 2999, Ebooks),
      Product(2, 4999, Ebooks),
      Product(3, 3999, Photos),
      Product(4, 2499, Photos),
      Product(5, 7999, Videos),
      Product(6, 5999, Videos),
      Product(7, 2499, Physical),
      Product(8, 1999, Physical) ]
  }

  /** No two entries of `s` share an id. */
  ghost predicate UniqueIds(s: seq<Product>)
  {
    forall i, j :: 0 <= i < j < |s| ==> s[i].id != s[j].id
  }

  /** The catalog is well formed: ids are positive and unique. */
  lemma CatalogIsValid()
    ensures |Products()| == 8
    ensures UniqueIds(Products())
    ensures forall p :: p in Products() ==> p.id > 0
  {
  }

  /**
   * `r` can be obtained from `s` by deleting elements: the elements of `r`
   * occur in `s` in the same order.
   */
  ghost predicate IsSubsequence<T>(r: seq<T>, s: seq<T>)
  {
    if s == [] then r == []
    else (r != [] && r[0] == s[0] && IsSubsequence(r[1..], s[1..])) || IsSubsequence(r, s[1..])
  }

  /** The products of `s` whose category is `c`, in the order of `s` (JavaScript's `filter`). */
  function InCategory(s: seq<Product>, c: Category): (r: seq<Product>)
    ensures |r| <= |s|
  {
    if s == [] then []
    else (if s[0].category == c then [s[0]] else []) + InCategory(s[1..], c)
  }

  /** The filter keeps exactly the products of category `c`. */
  lemma {:induction false} InCategoryMembers(s: seq<Product>, c: Category)
    ensures forall p :: p in InCategory(s, c) <==> p in s && p.category == c
  {
    if s != [] {
      InCategoryMembers(s[1..], c);
      assert s == [s[0]] + s[1..];
    }
  }

  /** The products shown on the product list page for the selected category (`null` = all). */
  function FilteredProducts(selected: Option<Category>): (r: seq<Product>)
    ensures |r| <= |Products()|
    ensures forall p :: p in r ==> p in Products()
    ensures selected.Some? ==> forall p :: p in r ==> p.category == selected.value
  {
    match selected
    case None => Products()
    case Some(c) =>
      InCategoryMembers(Products(), c);
      InCategory(Products(), c)
  }

  /**
   * With no category selected the page lists the whole catalog; with one, it
   * lists exactly the catalog products of that category, in catalog order.
   */
  lemma FilteredProductsSpec(selected: Option<Category>)
    ensures selected.None? ==> FilteredProducts(selected) == Products()
    ensures selected.Some? ==>
      (forall p :: p in FilteredProducts(selected) <==> p in Products() && p.category == selected.value)
    ensures IsSubsequence(FilteredProducts(selected), Products())
  {
    match selected
    case None =>
      SubsequenceOfItself(Products());
    case Some(c) =>
      InCategoryMembers(Products(), c);
      InCategoryIsSubsequence(Products(), c);
  }

  /** Every sequence is a subsequence of itself. */
  lemma {:induction false} SubsequenceOfItself<T>(s: seq<T>)
    ensures IsSubsequence(s, s)
  {
    if s != [] {
      SubsequenceOfItself(s[1..]);
    }
  }

  /** The filter keeps the order of the catalog: its result is a subsequence of its input. */
  lemma {:induction false} InCategoryIsSubsequence(s: seq<Product>, c: Category)
    ensures IsSubsequence(InCategory(s, c), s)
  {
    if s != [] {
      InCategoryIsSubsequence(s[1..], c);
      var rest := InCategory(s[1..], c);
      if s[0].category == c {
        assert InCategory(s, c) == [s[0]] + rest;
        assert ([s[0]] + rest)[1..] == rest;
      } else {
        assert InCategory(s, c) == rest;
      }
    }
  }

  /**
   * The filter is the largest order-preserving selection of category `c`:
   * every subsequence of `s` made only of category-`c` products is a
   * subsequence of the filter's result.
   */
  lemma {:induction false} InCategoryIsMaximal(r: seq<Product>, s: seq<Product>, c: Category)
    requires IsSubsequence(r, s)
    requires forall p :: p in r ==> p.category == c
    ensures IsSubsequence(r, InCategory(s, c))
  {
    if s == [] {
    } else {
      var rest := InCategory(s[1..], c);
      if r != [] && r[0] == s[0] && IsSubsequence(r[1..], s[1..]) {
        assert r[0] in r;
        assert forall p :: p in r[1..] ==> p in r;
        InCategoryIsMaximal(r[1..], s[1..], c);
        assert InCategory(s, c) == [s[0]] + rest;
        assert ([s[0]] + rest)[1..] == rest;
      } else {
        InCategoryIsMaximal(r, s[1..], c);
        if s[0].category == c {
          assert InCategory(s, c) == [s[0]] + rest;
          assert ([s[0]] + rest)[1..] == rest;
        } else {
          assert InCategory(s, c) == rest;
        }
      }
    }
  }

  /** A subsequence as long as the sequence it is taken from is that sequence. */
  lemma {:induction false} SubsequenceOfEqualLength<T>(r: seq<T>, s: seq<T>)
    requires IsSubsequence(r, s)
    ensures |r| <= |s|
    ensures |r| == |s| ==> r == s
  {
    if s != [] {
      if r != [] && r[0] == s[0] && IsSubsequence(r[1..], s[1..]) {
        SubsequenceOfEqualLength(r[1..], s[1..]);
        if |r| == |s| {
          assert r == [r[0]] + r[1..];
          assert s == [s[0]] + s[1..];
        }
      } else {
        SubsequenceOfEqualLength(r, s[1..]);
      }
    }
  }

  /**
   * Uniqueness: an order-preserving selection of category-`c` products of `s`
   * that is as long as the filter's result is the filter's result.
   */
  lemma InCategoryIsUnique(r: seq<Product>, s: seq<Product>, c: Category)
    requires IsSubsequence(r, s)
    requires forall p :: p in r ==> p.category == c
    requires |r| >= |InCategory(s, c)|
    ensures r == InCategory(s, c)
  {
    InCategoryIsMaximal(r, s, c);
    SubsequenceOfEqualLength(r, InCategory(s, c));
  }

  /**
   * The category pills of the product page: each category selects exactly the
   * two consecutive catalog entries of that category, in catalog order.
   */
  lemma FilteredByCategory()
    ensures FilteredProducts(Some(Ebooks)) == Products()[..2]
    ensures FilteredProducts(Some(Photos)) == Products()[2..4]
    ensures FilteredProducts(Some(Videos)) == Products()[4..6]
    ensures FilteredProducts(Some(Physical)) == Products()[6..]
  {
    CatalogInCategory();
  }

  /** `FilteredByCategory`, stated of the filter applied to the catalog. */
  lemma CatalogInCategory()
    ensures InCategory(Products(), Ebooks) == Products()[..2]
    ensures InCategory(Products(), Photos) == Products()[2..4]
    ensures InCategory(Products(), Videos) == Products()[4..6]
    ensures InCategory(Products(), Physical) == Products()[6..]
  {
    var s := Products();
    var a, b, d, e := s[..2], s[2..4], s[4..6], s[6..];
    assert s == a + b + d + e;
    InCategoryOfPairs(a, b, d, e, Ebooks);
    InCategoryOfPairs(a, b, d, e, Photos);
    InCategoryOfPairs(a, b, d, e, Videos);
    InCategoryOfPairs(a, b, d, e, Physical);
  }

  /** Filtering four same-category pairs laid end to end, as the catalog is. */
  lemma InCategoryOfPairs(a: seq<Product>, b: seq<Product>, d: seq<Product>, e: seq<Product>, c: Category)
    requires |a| == 2 && a[0].category == a[1].category
    requires |b| == 2 && b[0].category == b[1].category
    requires |d| == 2 && d[0].category == d[1].category
    requires |e| == 2 && e[0].category == e[1].category
    ensures InCategory(a + b + d + e, c) ==
      (if c == a[0].category then a else []) + (if c == b[0].category then b else []) +
      (if c == d[0].category then d else []) + (if c == e[0].category then e else [])
  {
    InCategoryQuarters(a, b, d, e, c);
    assert a == [a[0], a[1]] && b == [b[0], b[1]] && d == [d[0], d[1]] && e == [e[0], e[1]];
    InCategoryPair(a[0], a[1], c);
    InCategoryPair(b[0], b[1], c);
    InCategoryPair(d[0], d[1], c);
    InCategoryPair(e[0], e[1], c);
  }

  /** The filter of four concatenated blocks is the concatenation of the blocks' filters. */
  lemma InCategoryQuarters(a: seq<Product>, b: seq<Product>, d: seq<Product>, e: seq<Product>, c: Category)
    ensures InCategory(a + b + d + e, c) == InCategory(a, c) + InCategory(b, c) + InCategory(d, c) + InCategory(e, c)
  {
    InCategoryAppend(a + b + d, e, c);
    InCategoryAppend(a + b, d, c);
    InCategoryAppend(a, b, c);
  }

  /** Filtering two products of one category keeps both or neither. */
  lemma InCategoryPair(x: Product, y: Product, c: Category)
    requires x.category == y.category
    ensures InCategory([x, y], c) == if c == x.category then [x, y] else []
  {
    assert [x, y][1..] == [y];
    assert [y][1..] == [];
  }

  /** The filter distributes over concatenation. */
  lemma {:induction false} InCategoryAppend(a: seq<Product>, b: seq<Product>, c: Category)
    ensures InCategory(a + b, c) == InCategory(a, c) + InCategory(b, c)
  {
    if a == [] {
      assert a + b == b;
    } else {
      assert (a + b)[0] == a[0] && (a + b)[1..] == a[1..] + b;
      InCategoryAppend(a[1..], b, c);
    }
  }
}
