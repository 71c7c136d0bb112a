/** The Product collection: its document type, the schema's required paths and defaults, the
    lookup by id and the virtual `reviews` relation. */
module ProductModel {
  import opened Basics
  import opened ReviewModel

  /** A stored product; `averageRating` is the denormalised mean of its reviews. */
  datatype Product = Product(
    id: Id,
    name: string,
    description: string,
    category: string,
    price: real,
    image: string,
    dateAdded: Time,
    averageRating: real)

  const DefaultAverageRating: real := 0.0

  /** The schema's required string paths are non-empty (`price` is required too, and always present here). */
  predicate ProductConforms(p: Product) {
    p.name != "" && p.description != "" && p.category != "" && p.image != ""
  }

  /** The fields given to `Product.create({...})`; a field not given is None. */
  datatype ProductDraft = ProductDraft(
    name: Option<string>,
    description: Option<string>,
    category: Option<string>,
    price: Option<real>,
    image: Option<string>,
    dateAdded: Option<Time>)

  /** `Product.create`: every required path must be present, `dateAdded` falls back to the creation
      time and `averageRating` starts at its default. */
  function NewProduct(d: ProductDraft, id: Id, now: Time): (p: Option<Product>)
    ensures p.Some? <==>
      RequiredText(d.name) && RequiredText(d.description) && RequiredText(d.category) &&
      d.price.Some? && RequiredText(d.image)
    ensures p.Some? ==>
      ProductConforms(p.value) && p.value.id == id &&
      d.name == Some(p.value.name) && d.description == Some(p.value.description) &&
      d.category == Some(p.value.category) && d.price == Some(p.value.price) &&
      d.image == Some(p.value.image) &&
      p.value.dateAdded == d.dateAdded.GetOr(now) && p.value.averageRating == DefaultAverageRating
  {
    if RequiredText(d.name) && RequiredText(d.description) && RequiredText(d.category)
       && d.price.Some? && RequiredText(d.image)
    then Some(Product(id, d.name.value, d.description.value, d.category.value, d.price.value,
                      d.image.value, d.dateAdded.GetOr(now), DefaultAverageRating))
    else None
  }

  ghost predicate UniqueProductIds(ps: seq<Product>) {
    forall i, j :: 0 <= i < j < |ps| ==> ps[i].id != ps[j].id
  }

  /** The sort key of `sort({ dateAdded: -1 })`. */
  function ByDateAdded(p: Product): int {
    p.dateAdded
  }

  /** `Product.findById(id)`: the position of the first product with that id. */
  function ProductIndex(ps: seq<Product>, id: Id): (k: Option<nat>)
    ensures k.Some? ==> k.value < |ps| && ps[k.value].id == id
    ensures k.Some? ==> forall i :: 0 <= i < k.value ==> ps[i].id != id
    ensures k.None? <==> forall i :: 0 <= i < |ps| ==> ps[i].id != id
  {
    if ps == [] then None
    else if ps[0].id == id then Some(0)
    else match ProductIndex(ps[1..], id)
         case None => None
         case Some(k) => Some(k + 1)
  }

  /** `Product.findById(id)`, giving the document itself. */
  function FindProduct(ps: seq<Product>, id: Id): (r: Option<Product>)
    ensures r.Some? ==> r.value in ps && r.value.id == id
    ensures r.None? <==> forall i :: 0 <= i < |ps| ==> ps[i].id != id
  {
    match ProductIndex(ps, id)
    case None => None
    case Some(k) => Some(ps[k])
  }

  /** The query `{ productId }`. */
  function OfProduct(productId: Id): Review -> bool {
    (x: Review) => x.productId == productId
  }

  /** The virtual `reviews` relation (local `_id`, foreign `productId`): the reviews whose
      `productId` is the product's id, in the collection's order. */
  function ReviewsOf(reviews: seq<Review>, productId: Id): (r: seq<Review>)
    ensures |r| <= |reviews|
    ensures forall i :: 0 <= i < |r| ==> r[i].productId == productId
  {
    Filter(reviews, OfProduct(productId))
  }

  /** Exactly the reviews of the product are kept, each with its multiplicity. */
  lemma ReviewsOfCount(reviews: seq<Review>, productId: Id)
    ensures forall x :: multiset(ReviewsOf(reviews, productId))[x] ==
                        if x.productId == productId then multiset(reviews)[x] else 0
  {
    FilterCount(reviews, OfProduct(productId));
  }

  /** The relation distributes over concatenation of collections. */
  lemma ReviewsOfConcat(a: seq<Review>, b: seq<Review>, productId: Id)
    ensures ReviewsOf(a + b, productId) == ReviewsOf(a, productId) + ReviewsOf(b, productId)
  {
    FilterConcat(a, b, OfProduct(productId));
  }

  /** Appending a review extends the list of its own product only. */
  lemma ReviewsOfAppend(reviews: seq<Review>, r: Review, productId: Id)
    ensures ReviewsOf(reviews + [r], productId) ==
            ReviewsOf(reviews, productId) + (if r.productId == productId then [r] else [])
  {
    assert (reviews + [r])[..|reviews + [r]| - 1] == reviews;
  }

  /** A product no review points at has no reviews. */
  lemma NoReviewsOf(reviews: seq<Review>, productId: Id)
    requires forall j :: 0 <= j < |reviews| ==> reviews[j].productId != productId
    ensures ReviewsOf(reviews, productId) == []
  {
    FilterNone(reviews, OfProduct(productId));
  }

  /** Removing the review at k leaves the reviews of every other product as they were. */
  lemma RemoveOtherProductsReview(reviews: seq<Review>, k: nat, productId: Id)
    requires k < |reviews| && reviews[k].productId != productId
    ensures ReviewsOf(reviews[..k] + reviews[k + 1..], productId) == ReviewsOf(reviews, productId)
  {
    var a, x, b := reviews[..k], reviews[k], reviews[k + 1..];
    assert reviews == (a + [x]) + b;
    ReviewsOfConcat(a + [x], b, productId);
    ReviewsOfAppend(a, x, productId);
    ReviewsOfConcat(a, b, productId);
    var fa, fb := ReviewsOf(a, productId), ReviewsOf(b, productId);
    assert ReviewsOf(a + [x], productId) == fa + [] == fa;
    assert ReviewsOf(reviews, productId) == fa + fb;
  }

  /** Replacing the review at k by one for the same product leaves the reviews of every other
      product as they were, and the ratings of its own product too when the rating is the same. */
  lemma ReplaceReview(reviews: seq<Review>, k: nat, u: Review, productId: Id)
    requires k < |reviews| && u.productId == reviews[k].productId
    ensures reviews[k].productId != productId ==>
      ReviewsOf(reviews[k := u], productId) == ReviewsOf(reviews, productId)
    ensures u.rating == reviews[k].rating ==>
      Ratings(ReviewsOf(reviews[k := u], productId)) == Ratings(ReviewsOf(reviews, productId))
  {
    var a, x, b := reviews[..k], reviews[k], reviews[k + 1..];
    assert reviews == a + [x] + b;
    assert reviews[k := u] == a + [u] + b;
    ReviewsOfConcat(a + [x], b, productId);
    ReviewsOfAppend(a, x, productId);
    ReviewsOfConcat(a + [u], b, productId);
    ReviewsOfAppend(a, u, productId);
  }
}
