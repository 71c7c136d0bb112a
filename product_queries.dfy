/** The read-only product handlers: the paged, filtered listing, the name search and the lookup by
    id with the product's reviews embedded. `table` is the product collection in its stored order. */
module ProductQueries {
  import opened Basics
  import opened Http
  import opened ReviewModel
  import opened ProductModel
  import opened Ordering

  const PageSize: nat := 10
  const SearchQueryRequired := "Search query is required"
  /** The store refuses a negative `skip`; the wording of its error is not modelled. */
  const NegativeSkip := "skip must be non-negative"

  /** `parseInt(req.query.page) || 1`: `parsed` is None when the parameter is missing or not a number
      (NaN); NaN and 0 become 1, every other value, negative ones included, is kept. */
  function PageNumber(parsed: Option<int>): (page: int)
    ensures page != 0
    ensures page == 1 || parsed == Some(page)
    ensures parsed.Some? && parsed.value != 0 ==> page == parsed.value
  {
    if parsed.Some? && parsed.value != 0 then parsed.value else 1
  }

  /** `(page - 1) * limit`. */
  function Skip(page: int): (skip: int)
    ensures skip >= 0 <==> page >= 1
  {
    (page - 1) * PageSize
  }

  /** `Math.ceil(totalProducts / limit)`. */
  function PageCount(total: nat): (pages: nat)
    ensures pages * PageSize >= total
    ensures pages == 0 || (pages - 1) * PageSize < total
  {
    (total + PageSize - 1) / PageSize
  }

  /** The query `{ category }`. */
  function InCategory(category: string): Product -> bool {
    (p: Product) => p.category == category
  }

  /** The products whose category equals `category`, in stored order. */
  function WithCategory(table: seq<Product>, category: string): (r: seq<Product>)
    ensures |r| <= |table|
    ensures forall i :: 0 <= i < |r| ==> r[i].category == category
  {
    Filter(table, InCategory(category))
  }

  /** The filter keeps exactly the products of that category, each as often as it is stored. */
  lemma WithCategoryCount(table: seq<Product>, category: string)
    ensures forall p :: multiset(WithCategory(table, category))[p] ==
                        if p.category == category then multiset(table)[p] else 0
  {
    FilterCount(table, InCategory(category));
  }

  /** The query `{ category }` when a (truthy) category is supplied, `{}` otherwise. */
  function Matching(table: seq<Product>, category: Option<string>): (r: seq<Product>)
    ensures |r| <= |table|
    ensures RequiredText(category) ==> forall i :: 0 <= i < |r| ==> r[i].category == category.value
    ensures !RequiredText(category) ==> r == table
  {
    if RequiredText(category) then WithCategory(table, category.value) else table
  }

  /** The JSON body of the listing. */
  datatype ProductPage = ProductPage(products: seq<Product>, page: int, pages: nat, totalProducts: nat)

  /** One page of the listing: the matching products sorted newest first, `skip`ped and `limit`ed,
      with the count of all matching products and the number of pages. */
  function ListingPage(matching: seq<Product>, page: int): (body: ProductPage)
    requires page >= 1
    ensures body.page == page
    ensures body.totalProducts == |matching| && body.pages == PageCount(|matching|)
    ensures var listing := SortDesc(matching, ByDateAdded);
      var skip := Skip(page);
      |body.products| == (if skip >= |matching| then 0 else Min(PageSize, |matching| - skip)) &&
      forall i :: 0 <= i < |body.products| ==> body.products[i] == listing[skip + i]
    ensures SortedDesc(body.products, ByDateAdded)
  {
    var listing := SortDesc(matching, ByDateAdded);
    WindowOfSorted(listing, Skip(page), PageSize, ByDateAdded);
    ProductPage(Window(listing, Skip(page), PageSize), page, PageCount(|matching|), |matching|)
  }

  /** `getProducts`: the page number from the query string, the category query, then one page of
      the listing; a negative page makes the store refuse the negative `skip`. */
  function GetProducts(table: seq<Product>, pageParam: Option<int>, category: Option<string>)
    : (res: Response<ProductPage>)
    ensures res.Ok? || res == ServerError(NegativeSkip)
    ensures res.ServerError? <==> PageNumber(pageParam) < 1
    ensures res.Ok? ==> res.body == ListingPage(Matching(table, category), PageNumber(pageParam))
  {
    var page := PageNumber(pageParam);
    if Skip(page) < 0 then ServerError(NegativeSkip)
    else Ok(ListingPage(Matching(table, category), page))
  }

  /** A page past the last one is empty but reports the same totals. */
  lemma PageBeyondLastIsEmpty(table: seq<Product>, page: int, category: Option<string>)
    requires page > PageCount(|Matching(table, category)|)
    ensures var total := |Matching(table, category)|;
      GetProducts(table, Some(page), category) == Ok(ProductPage([], page, PageCount(total), total))
  {
  }

  /** Position k of the listing is entry k % PageSize of page k / PageSize + 1. */
  lemma PageOfPosition(k: nat)
    ensures Skip(k / PageSize + 1) + k % PageSize == k && k % PageSize < PageSize
  {
    assert PageSize == 10;
  }

  /** Each matching product is shown on exactly the page its position in the sorted listing says. */
  lemma {:induction false} EveryMatchIsOnItsPage(table: seq<Product>, category: Option<string>, k: nat)
    requires k < |Matching(table, category)|
    ensures var res := GetProducts(table, Some(k / PageSize + 1), category);
      res.Ok? && k % PageSize < |res.body.products| &&
      res.body.products[k % PageSize] == SortDesc(Matching(table, category), ByDateAdded)[k]
  {
    var page := k / PageSize + 1;
    PageOfPosition(k);
    assert PageNumber(Some(page)) == page;
    var body := ListingPage(Matching(table, category), page);
    assert GetProducts(table, Some(page), category) == Ok(body);
  }

  /** Every product on a page of the listing is one of the matching products. */
  lemma ListedAreMatching(matching: seq<Product>, page: int)
    requires page >= 1
    ensures forall p :: p in ListingPage(matching, page).products ==> p in matching
  {
    var listing := SortDesc(matching, ByDateAdded);
    var products := ListingPage(matching, page).products;
    forall p | p in products
      ensures p in matching
    {
      var i :| 0 <= i < |products| && products[i] == p;
      assert p == listing[Skip(page) + i];
      assert p in multiset(listing);
    }
  }

  /** A matching product is stored, and of the requested category when one was given. */
  lemma MatchingAreStored(table: seq<Product>, category: Option<string>, p: Product)
    requires p in Matching(table, category)
    ensures p in table
    ensures RequiredText(category) ==> p.category == category.value
  {
    if RequiredText(category) {
      WithCategoryCount(table, category.value);
      assert multiset(WithCategory(table, category.value))[p] > 0;
    }
  }

  /** Every listed product is a stored product, of the requested category when one was given;
      the count covers only those. */
  lemma ListedProductsMatch(table: seq<Product>, pageParam: Option<int>, category: Option<string>)
    requires GetProducts(table, pageParam, category).Ok?
    ensures var body := GetProducts(table, pageParam, category).body;
      forall i :: 0 <= i < |body.products| ==>
        body.products[i] in table &&
        (RequiredText(category) ==> body.products[i].category == category.value)
  {
    var body := GetProducts(table, pageParam, category).body;
    ListedAreMatching(Matching(table, category), PageNumber(pageParam));
    forall i | 0 <= i < |body.products|
      ensures body.products[i] in table
      ensures RequiredText(category) ==> body.products[i].category == category.value
    {
      MatchingAreStored(table, category, body.products[i]);
    }
  }

  /** ASCII letters fold to lower case, as the `i` option does. */
  function LowerAscii(c: char): char {
    if 'A' <= c <= 'Z' then (c as int + 32) as char else c
  }

  predicate MatchesAt(name: string, q: string, i: nat)
    requires i + |q| <= |name|
  {
    forall k :: 0 <= k < |q| ==> LowerAscii(name[i + k]) == LowerAscii(q[k])
  }

  /** `name` contains `q` somewhere, ignoring ASCII case (`q` taken literally). */
  predicate NameContains(name: string, q: string) {
    exists i: nat :: i + |q| <= |name| && MatchesAt(name, q, i)
  }

  /** The query `{ name: { $regex: q, $options: 'i' } }`. */
  function NameMatches(q: string): Product -> bool {
    (p: Product) => NameContains(p.name, q)
  }

  /** The products whose name contains `q`, in stored order. */
  function WithName(table: seq<Product>, q: string): (r: seq<Product>)
    ensures |r| <= |table|
    ensures forall i :: 0 <= i < |r| ==> NameContains(r[i].name, q)
  {
    Filter(table, NameMatches(q))
  }

  lemma WithNameCount(table: seq<Product>, q: string)
    ensures forall p :: multiset(WithName(table, q))[p] ==
                        if NameContains(p.name, q) then multiset(table)[p] else 0
  {
    FilterCount(table, NameMatches(q));
  }

  /** `searchProducts`: 400 without a query, otherwise every product whose name matches, newest
      first, unpaged. */
  function SearchProducts(table: seq<Product>, q: Option<string>): (res: Response<seq<Product>>)
    ensures !RequiredText(q) ==> res == BadRequest(SearchQueryRequired)
    ensures RequiredText(q) ==>
      res.Ok? && SortedDesc(res.body, ByDateAdded) &&
      multiset(res.body) == multiset(WithName(table, q.value))
  {
    if !RequiredText(q) then BadRequest(SearchQueryRequired)
    else Ok(SortDesc(WithName(table, q.value), ByDateAdded))
  }

  /** A search that matches nothing answers 200 with an empty list. */
  lemma {:induction false} SearchWithoutMatchIsEmpty(table: seq<Product>, q: string)
    requires q != ""
    requires forall i :: 0 <= i < |table| ==> !NameContains(table[i].name, q)
    ensures SearchProducts(table, Some(q)) == Ok([])
  {
    WithNameCount(table, q);
    var r := WithName(table, q);
    assert forall p :: p in table ==> !NameContains(p.name, q);
    assert multiset(r) == multiset{};
  }

  /** A name matches a query exactly when it matches one that differs only in ASCII case. */
  lemma MatchIgnoresCase(name: string, q1: string, q2: string)
    requires |q1| == |q2| && forall k :: 0 <= k < |q1| ==> LowerAscii(q1[k]) == LowerAscii(q2[k])
    ensures NameContains(name, q1) == NameContains(name, q2)
  {
    if NameContains(name, q1) {
      var i: nat :| i + |q1| <= |name| && MatchesAt(name, q1, i);
      assert MatchesAt(name, q2, i);
    }
    if NameContains(name, q2) {
      var i: nat :| i + |q2| <= |name| && MatchesAt(name, q2, i);
      assert MatchesAt(name, q1, i);
    }
  }

  /** Two queries that differ only in the case of ASCII letters find the same products. */
  lemma SearchIgnoresCase(table: seq<Product>, q1: string, q2: string)
    requires |q1| == |q2| && forall k :: 0 <= k < |q1| ==> LowerAscii(q1[k]) == LowerAscii(q2[k])
    ensures WithName(table, q1) == WithName(table, q2)
  {
    forall i | 0 <= i < |table| ensures NameMatches(q1)(table[i]) == NameMatches(q2)(table[i]) {
      MatchIgnoresCase(table[i].name, q1, q2);
    }
    FilterAgrees(table, NameMatches(q1), NameMatches(q2));
  }

  /** The JSON body of the lookup: the product with its `reviews` populated. */
  datatype ProductDetail = ProductDetail(product: Product, reviews: seq<Review>)

  /** `getProductById`: 404 when absent, otherwise the product with its reviews embedded. */
  function GetProductById(table: seq<Product>, reviews: seq<Review>, id: Id): (res: Response<ProductDetail>)
    ensures res.Ok? || res == NotFound(ProductNotFound)
    ensures res.NotFound? <==> forall i :: 0 <= i < |table| ==> table[i].id != id
    ensures res.Ok? ==>
      res.body.product in table && res.body.product.id == id &&
      res.body.reviews == ReviewsOf(reviews, id)
  {
    match FindProduct(table, id)
    case None => NotFound(ProductNotFound)
    case Some(p) => Ok(ProductDetail(p, ReviewsOf(reviews, id)))
  }

  /** The embedded reviews are exactly the stored reviews that point at the product. */
  lemma EmbeddedReviewsAreTheProducts(table: seq<Product>, reviews: seq<Review>, id: Id)
    requires GetProductById(table, reviews, id).Ok?
    ensures forall x :: x in GetProductById(table, reviews, id).body.reviews <==> x in reviews && x.productId == id
  {
    ReviewsOfCount(reviews, id);
    var r := ReviewsOf(reviews, id);
    forall x ensures x in r <==> x in reviews && x.productId == id {
      assert x in r <==> multiset(r)[x] > 0;
      assert x in reviews <==> multiset(reviews)[x] > 0;
    }
  }
}
