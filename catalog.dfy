/** The two collections held in memory and the handlers that change them: adding, updating and
    deleting reviews (each followed by the recomputation of the product's average rating), listing
    a product's reviews, and creating products. One request is handled at a time. */
module Catalog {
  import opened Basics
  import opened Http
  import opened ReviewModel
  import opened ProductModel
  import opened Validation
  import opened Rating
  import opened Ordering

  const ReviewNotFound := "Review not found"
  const ReviewRemoved := "Review removed"
  /** The store's schema-validation error; its exact wording is not modelled. */
  const ProductValidationFailed := "Product validation failed"

  /** The value the recomputation writes for a product: the rounded mean of its reviews' ratings. */
  function AggregateRating(reviews: seq<Review>, productId: Id): real {
    AverageRating(Ratings(ReviewsOf(reviews, productId)))
  }

  /** With ratings inside the schema's bounds, the aggregate is 0 exactly when the product has no
      reviews, and lies in [1, 5] otherwise. */
  lemma AggregateRatingRange(reviews: seq<Review>, productId: Id)
    requires forall j :: 0 <= j < |reviews| ==> ReviewConforms(reviews[j])
    ensures ReviewsOf(reviews, productId) == [] <==> AggregateRating(reviews, productId) == 0.0
    ensures ReviewsOf(reviews, productId) != [] ==> 1.0 <= AggregateRating(reviews, productId) <= 5.0
  {
    var own := ReviewsOf(reviews, productId);
    if own != [] {
      ReviewsOfCount(reviews, productId);
      forall i | 0 <= i < |own| ensures 1.0 <= Ratings(own)[i] <= 5.0 {
        assert own[i] in multiset(own);
        assert own[i] in reviews;
      }
      AverageWithin(Ratings(own), 1.0, 5.0);
    }
  }

  /** `after` is `before` with the `averageRating` of product `productId` set to `value`, and
      nothing else changed. */
  ghost predicate OnlyRatingChanged(before: seq<Product>, after: seq<Product>, productId: Id, value: real) {
    |after| == |before| &&
    forall i :: 0 <= i < |before| ==>
      after[i] == if before[i].id == productId then before[i].(averageRating := value) else before[i]
  }

  /** The update handler's assignments: each truthy field of the input overwrites the review's. */
  function ApplyUpdate(r: Review, input: ReviewInput): (u: Review)
    ensures u.id == r.id && u.productId == r.productId && u.date == r.date
  {
    r.(author := if input.author != "" then input.author else r.author,
       rating := if input.rating != 0.0 then input.rating else r.rating,
       comment := if input.comment != "" then input.comment else r.comment)
  }

  /** Behind the validator every field is truthy, so an update overwrites all three. */
  lemma ValidatedUpdateOverwritesAll(r: Review, body: ReviewBody)
    requires ValidateReview(body).Success?
    ensures var input := ValidateReview(body).value;
      ApplyUpdate(r, input) == r.(author := input.author, rating := input.rating, comment := input.comment)
  {
  }

  /** The schema's checks always pass once the validator has: the review document built from an
      input within the validator's bounds is saved, with those fields and dated now. */
  lemma {:induction false} AcceptedInputIsSaved(input: ReviewInput, productId: Id, newId: Id, now: Time)
    requires MinAuthorLength <= |input.author| && MinCommentLength <= |input.comment|
    requires LowestRating <= input.rating <= HighestRating
    ensures var draft := ReviewDraft(Some(productId), Some(input.author), Some(input.rating), Some(input.comment), Some(now));
      NewReview(draft, newId, now) == Some(Review(newId, productId, input.author, input.rating, input.comment, now))
  {
  }

  /** The body of a create-product request; fields not sent are None. */
  datatype ProductBody = ProductBody(
    name: Option<string>,
    description: Option<string>,
    category: Option<string>,
    price: Option<real>,
    image: Option<string>)

  /** What `createProduct` hands to the store: name, description, category and price only. */
  function CreateProductDraft(body: ProductBody): ProductDraft {
    ProductDraft(body.name, body.description, body.category, body.price, None, None)
  }

  /** No body gets past the schema: `image` is required but never passed on. */
  lemma CreateProductAlwaysRejected(body: ProductBody, id: Id, now: Time)
    ensures NewProduct(CreateProductDraft(body), id, now).None?
  {
  }

  /** The draft with the body's `image` passed on as well. */
  function CreateProductWithImageDraft(body: ProductBody): ProductDraft {
    ProductDraft(body.name, body.description, body.category, body.price, body.image, None)
  }

  /** With the image passed on, a complete body is accepted, dated now and rated 0. */
  lemma CompleteBodyIsCreated(body: ProductBody, id: Id, now: Time)
    requires RequiredText(body.name) && RequiredText(body.description) && RequiredText(body.category)
    requires body.price.Some? && RequiredText(body.image)
    ensures NewProduct(CreateProductWithImageDraft(body), id, now) ==
      Some(Product(id, body.name.value, body.description.value, body.category.value, body.price.value,
                   body.image.value, now, 0.0))
  {
  }

  /** Ids are unique, every document satisfies its schema, and every review points at a stored product. */
  ghost predicate Consistent(ps: seq<Product>, rs: seq<Review>) {
    UniqueProductIds(ps) && UniqueReviewIds(rs) &&
    (forall i :: 0 <= i < |ps| ==> ProductConforms(ps[i])) &&
    (forall j :: 0 <= j < |rs| ==> ReviewConforms(rs[j]) && ProductIndex(ps, rs[j].productId).Some?)
  }

  /** Every product's stored average is what its reviews give. */
  ghost predicate AveragesCurrent(ps: seq<Product>, rs: seq<Review>) {
    forall i :: 0 <= i < |ps| ==> ps[i].averageRating == AggregateRating(rs, ps[i].id)
  }

  /** Every product other than `productId` has the stored average its reviews give. */
  ghost predicate OthersCurrent(ps: seq<Product>, rs: seq<Review>, productId: Id) {
    forall i :: 0 <= i < |ps| && ps[i].id != productId ==> ps[i].averageRating == AggregateRating(rs, ps[i].id)
  }

  /** A new review `r` was saved and its product's average recomputed. */
  ghost predicate ReviewAppended(ps: seq<Product>, rs: seq<Review>, ps': seq<Product>, rs': seq<Review>, r: Review) {
    rs' == rs + [r] && OnlyRatingChanged(ps, ps', r.productId, AggregateRating(rs', r.productId))
  }

  /** The review at position k was overwritten by `u` and its product's average recomputed. */
  ghost predicate ReviewReplaced(ps: seq<Product>, rs: seq<Review>, ps': seq<Product>, rs': seq<Review>, k: nat, u: Review) {
    k < |rs| && rs' == rs[k := u] && OnlyRatingChanged(ps, ps', u.productId, AggregateRating(rs', u.productId))
  }

  /** The review at position k was deleted, every other review kept, and its product's average recomputed. */
  ghost predicate ReviewDeleted(ps: seq<Product>, rs: seq<Review>, ps': seq<Product>, rs': seq<Review>, k: nat) {
    k < |rs| && rs' == rs[..k] + rs[k + 1..] &&
    (forall x :: x in rs' <==> x in rs && x.id != rs[k].id) &&
    OnlyRatingChanged(ps, ps', rs[k].productId, AggregateRating(rs', rs[k].productId))
  }

  class Store {
    var products: seq<Product>
    var reviews: seq<Review>

    ghost predicate Valid()
      reads this
    {
      Consistent(products, reviews)
    }

    /** The stored average of product `productId` is what its reviews give. */
    ghost predicate RatingCurrent(productId: Id)
      reads this
    {
      forall i :: 0 <= i < |products| && products[i].id == productId ==>
        products[i].averageRating == AggregateRating(reviews, productId)
    }

    ghost predicate RatingsCurrent()
      reads this
    {
      AveragesCurrent(products, reviews)
    }

    constructor ()
      ensures Valid() && RatingsCurrent()
      ensures products == [] && reviews == []
    {
      products := [];
      reviews := [];
    }

    /** `updateProductAverageRating`: re-read the product's reviews, total them, and write 0 or the
        rounded mean onto the product (nothing is written when the product is not stored). */
    method UpdateProductAverageRating(productId: Id)
      requires Valid()
      modifies this
      ensures Valid()
      ensures reviews == old(reviews)
      ensures OnlyRatingChanged(old(products), products, productId, AggregateRating(reviews, productId))
      ensures RatingCurrent(productId)
      ensures OthersCurrent(old(products), reviews, productId) ==> RatingsCurrent()
    {
      var found := ReviewsOf(reviews, productId);
      var averageRating: real;
      if |found| == 0 {
        averageRating := 0.0;
      } else {
        var totalRating := Sum(Ratings(found));
        averageRating := Round1(totalRating / |found| as real);
      }
      var k := ProductIndex(products, productId);
      if k.Some? {
        products := products[k.value := products[k.value].(averageRating := averageRating)];
      }
      RecomputeKeeps(old(products), products, reviews, productId, averageRating);
    }

    /** `review.save()` of a new review, then the recomputation of its product's average. */
    method SaveNewReview(review: Review)
      requires Valid()
      requires ReviewConforms(review) && ProductIndex(products, review.productId).Some?
      requires forall j :: 0 <= j < |reviews| ==> reviews[j].id != review.id
      modifies this
      ensures Valid()
      ensures ReviewAppended(old(products), old(reviews), products, reviews, review)
      ensures old(RatingsCurrent()) ==> RatingsCurrent()
    {
      AppendKeeps(products, reviews, review);
      reviews := reviews + [review];
      UpdateProductAverageRating(review.productId);
    }

    /** `review.save()` of the review stored at position k, then the recomputation of its product's
        average; with an unchanged rating and a current average the products stay as they were. */
    method SaveUpdatedReview(k: nat, updated: Review)
      requires Valid() && k < |reviews| && ReviewConforms(updated)
      requires updated.id == reviews[k].id && updated.productId == reviews[k].productId
      modifies this
      ensures Valid()
      ensures ReviewReplaced(old(products), old(reviews), products, reviews, k, updated)
      ensures old(RatingCurrent(updated.productId)) && updated.rating == old(reviews)[k].rating ==> products == old(products)
      ensures old(RatingsCurrent()) ==> RatingsCurrent()
    {
      ghost var same := RatingCurrent(updated.productId) && updated.rating == reviews[k].rating;
      ReplaceKeeps(products, reviews, k, updated);
      reviews := reviews[k := updated];
      UpdateProductAverageRating(updated.productId);
      if same {
        UnchangedRatingKeepsProducts(old(products), products, old(reviews), reviews, updated.productId);
      }
    }

    /** `review.deleteOne()` of the review stored at position k, then the recomputation of its
        product's average. */
    method DeleteReviewAt(k: nat)
      requires Valid() && k < |reviews|
      modifies this
      ensures Valid()
      ensures ReviewDeleted(old(products), old(reviews), products, reviews, k)
      ensures old(RatingsCurrent()) ==> RatingsCurrent()
    {
      var productId := reviews[k].productId;
      RemoveKeeps(products, reviews, k);
      reviews := reviews[..k] + reviews[k + 1..];
      UpdateProductAverageRating(productId);
    }

    /** `getProductReviews`: 404 for an unknown product, otherwise its reviews, newest first. */
    method GetProductReviews(productId: Id) returns (res: Response<seq<Review>>)
      ensures FindProduct(products, productId).None? ==> res == NotFound(ProductNotFound)
      ensures FindProduct(products, productId).Some? ==>
        res.Ok? && SortedDesc(res.body, ByDate) &&
        multiset(res.body) == multiset(ReviewsOf(reviews, productId)) &&
        forall x :: x in res.body <==> x in reviews && x.productId == productId
    {
      var product := FindProduct(products, productId);
      if product.None? {
        return NotFound(ProductNotFound);
      }
      var found := ReviewsOf(reviews, productId);
      ReviewsOfCount(reviews, productId);
      var sorted := SortDesc(found, ByDate);
      forall x ensures x in sorted <==> x in reviews && x.productId == productId {
        assert x in sorted <==> multiset(sorted)[x] > 0;
        assert x in reviews <==> multiset(reviews)[x] > 0;
      }
      res := Ok(sorted);
    }

    /** `addProductReview`: validate, check the product, save the new review, recompute, answer 201. */
    method AddProductReview(productId: Id, body: ReviewBody, newId: Id, now: Time) returns (res: Response<Review>)
      requires Valid()
      requires forall j :: 0 <= j < |reviews| ==> reviews[j].id != newId
      modifies this
      ensures Valid()
      ensures ValidateReview(body).Failure? ==>
        res == ValidationFailed(ValidateReview(body).error) &&
        products == old(products) && reviews == old(reviews)
      ensures ValidateReview(body).Success? && FindProduct(old(products), productId).None? ==>
        res == NotFound(ProductNotFound) && products == old(products) && reviews == old(reviews)
      ensures ValidateReview(body).Success? && FindProduct(old(products), productId).Some? ==>
        var input := ValidateReview(body).value;
        var review := Review(newId, productId, input.author, input.rating, input.comment, now);
        res == Created(review) && ReviewAppended(old(products), old(reviews), products, reviews, review)
      ensures old(RatingsCurrent()) ==> RatingsCurrent()
    {
      var validation := ValidateReview(body);
      if validation.Failure? {
        return ValidationFailed(validation.error);
      }
      var product := FindProduct(products, productId);
      if product.None? {
        return NotFound(ProductNotFound);
      }
      var input := validation.value;
      var draft := ReviewDraft(Some(productId), Some(input.author), Some(input.rating), Some(input.comment), Some(now));
      var saved := NewReview(draft, newId, now);
      AcceptedInputIsSaved(input, productId, newId, now);
      var review := saved.value;
      SaveNewReview(review);
      res := Created(review);
    }

    /** `updateReview`: validate, check the product, find the review under that product, overwrite
        its truthy fields, save, recompute, answer 200 with the review. */
    method UpdateReview(productId: Id, id: Id, body: ReviewBody) returns (res: Response<Review>)
      requires Valid()
      modifies this
      ensures Valid()
      ensures ValidateReview(body).Failure? ==>
        res == ValidationFailed(ValidateReview(body).error) &&
        products == old(products) && reviews == old(reviews)
      ensures ValidateReview(body).Success? && FindProduct(old(products), productId).None? ==>
        res == NotFound(ProductNotFound) && products == old(products) && reviews == old(reviews)
      ensures ValidateReview(body).Success? && FindProduct(old(products), productId).Some? &&
              ReviewIndex(old(reviews), id, productId).None? ==>
        res == NotFound(ReviewNotFound) && products == old(products) && reviews == old(reviews)
      ensures ValidateReview(body).Success? && FindProduct(old(products), productId).Some? &&
              ReviewIndex(old(reviews), id, productId).Some? ==>
        var k := ReviewIndex(old(reviews), id, productId).value;
        var updated := ApplyUpdate(old(reviews)[k], ValidateReview(body).value);
        res == Ok(updated) &&
        ReviewReplaced(old(products), old(reviews), products, reviews, k, updated) &&
        (old(RatingCurrent(productId)) && updated.rating == old(reviews)[k].rating ==> products == old(products))
      ensures old(RatingsCurrent()) ==> RatingsCurrent()
    {
      var validation := ValidateReview(body);
      if validation.Failure? {
        return ValidationFailed(validation.error);
      }
      var product := FindProduct(products, productId);
      if product.None? {
        return NotFound(ProductNotFound);
      }
      var k := ReviewIndex(reviews, id, productId);
      if k.None? {
        return NotFound(ReviewNotFound);
      }
      var updated := ApplyUpdate(reviews[k.value], validation.value);
      SaveUpdatedReview(k.value, updated);
      res := Ok(updated);
    }

    /** `deleteReview`: check the product, find the review under that product, delete it,
        recompute, answer 200 with a confirmation. */
    method DeleteReview(productId: Id, id: Id) returns (res: Response<string>)
      requires Valid()
      modifies this
      ensures Valid()
      ensures FindProduct(old(products), productId).None? ==>
        res == NotFound(ProductNotFound) && products == old(products) && reviews == old(reviews)
      ensures FindProduct(old(products), productId).Some? && ReviewIndex(old(reviews), id, productId).None? ==>
        res == NotFound(ReviewNotFound) && products == old(products) && reviews == old(reviews)
      ensures FindProduct(old(products), productId).Some? && ReviewIndex(old(reviews), id, productId).Some? ==>
        res == Ok(ReviewRemoved) &&
        ReviewDeleted(old(products), old(reviews), products, reviews, ReviewIndex(old(reviews), id, productId).value)
      ensures old(RatingsCurrent()) ==> RatingsCurrent()
    {
      var product := FindProduct(products, productId);
      if product.None? {
        return NotFound(ProductNotFound);
      }
      var k := ReviewIndex(reviews, id, productId);
      if k.None? {
        return NotFound(ReviewNotFound);
      }
      DeleteReviewAt(k.value);
      res := Ok(ReviewRemoved);
    }

    /** The store half of `Product.create`: check the schema, fill in the defaults, insert. */
    method InsertProduct(draft: ProductDraft, newId: Id, now: Time) returns (res: Response<Product>)
      requires Valid()
      requires forall i :: 0 <= i < |products| ==> products[i].id != newId
      modifies this
      ensures Valid()
      ensures reviews == old(reviews)
      ensures NewProduct(draft, newId, now).None? ==>
        res == ServerError(ProductValidationFailed) && products == old(products)
      ensures NewProduct(draft, newId, now).Some? ==>
        res == Created(NewProduct(draft, newId, now).value) &&
        products == old(products) + [NewProduct(draft, newId, now).value]
      ensures old(RatingsCurrent()) ==> RatingsCurrent()
    {
      var created := NewProduct(draft, newId, now);
      if created.None? {
        return ServerError(ProductValidationFailed);
      }
      InsertKeeps(products, reviews, created.value);
      products := products + [created.value];
      res := Created(created.value);
    }

    /** `createProduct` as written: only name, description, category and price reach the store,
        so the required `image` is always missing and the answer is always 500. */
    method CreateProduct(body: ProductBody, newId: Id, now: Time) returns (res: Response<Product>)
      requires Valid()
      requires forall i :: 0 <= i < |products| ==> products[i].id != newId
      modifies this
      ensures Valid()
      ensures res == ServerError(ProductValidationFailed)
      ensures products == old(products) && reviews == old(reviews)
    {
      res := InsertProduct(CreateProductDraft(body), newId, now);
    }

    /** `createProduct` with the body's `image` passed on as well: a complete body is stored with
        `averageRating` 0 and dated now. */
    method CreateProductWithImage(body: ProductBody, newId: Id, now: Time) returns (res: Response<Product>)
      requires Valid()
      requires forall i :: 0 <= i < |products| ==> products[i].id != newId
      modifies this
      ensures Valid()
      ensures reviews == old(reviews)
      ensures res.Created? <==>
        RequiredText(body.name) && RequiredText(body.description) && RequiredText(body.category) &&
        body.price.Some? && RequiredText(body.image)
      ensures res.Created? ==>
        res.body == Product(newId, body.name.value, body.description.value, body.category.value,
                            body.price.value, body.image.value, now, 0.0) &&
        products == old(products) + [res.body]
      ensures !res.Created? ==> res == ServerError(ProductValidationFailed) && products == old(products)
      ensures old(RatingsCurrent()) ==> RatingsCurrent()
    {
      if RequiredText(body.name) && RequiredText(body.description) && RequiredText(body.category) &&
         body.price.Some? && RequiredText(body.image) {
        CompleteBodyIsCreated(body, newId, now);
      }
      res := InsertProduct(CreateProductWithImageDraft(body), newId, now);
    }
  }

  /** Two product collections with the same ids in the same places resolve every id alike. */
  lemma {:induction false} SameIdsSameIndex(ps: seq<Product>, qs: seq<Product>, id: Id)
    requires |ps| == |qs| && forall i :: 0 <= i < |ps| ==> ps[i].id == qs[i].id
    ensures ProductIndex(ps, id) == ProductIndex(qs, id)
  {
    if ps != [] && ps[0].id != id {
      SameIdsSameIndex(ps[1..], qs[1..], id);
    }
  }

  /** Writing the recomputed average onto one product keeps the store consistent, leaves the
      others' averages alone, and makes every average current when only that one was stale. */
  lemma RecomputeKeeps(before: seq<Product>, after: seq<Product>, rs: seq<Review>, productId: Id, value: real)
    requires Consistent(before, rs)
    requires value == AggregateRating(rs, productId)
    requires ProductIndex(before, productId).None? ==> after == before
    requires ProductIndex(before, productId).Some? ==>
      var k := ProductIndex(before, productId).value;
      after == before[k := before[k].(averageRating := value)]
    ensures Consistent(after, rs)
    ensures OnlyRatingChanged(before, after, productId, value)
    ensures forall i :: 0 <= i < |after| && after[i].id == productId ==> after[i].averageRating == value
    ensures OthersCurrent(before, rs, productId) ==> AveragesCurrent(after, rs)
  {
    assert |after| == |before| && forall i :: 0 <= i < |before| ==> after[i].id == before[i].id;
    forall j | 0 <= j < |rs| ensures ProductIndex(after, rs[j].productId).Some? {
      SameIdsSameIndex(before, after, rs[j].productId);
    }
  }

  /** Appending a conforming review with a fresh id for a stored product keeps the store
      consistent and every other product's aggregate unchanged. */
  lemma AppendKeeps(ps: seq<Product>, rs: seq<Review>, r: Review)
    requires Consistent(ps, rs) && ReviewConforms(r) && ProductIndex(ps, r.productId).Some?
    requires forall j :: 0 <= j < |rs| ==> rs[j].id != r.id
    ensures Consistent(ps, rs + [r])
    ensures AveragesCurrent(ps, rs) ==> OthersCurrent(ps, rs + [r], r.productId)
  {
    var rs' := rs + [r];
    assert forall j :: 0 <= j < |rs'| ==> rs'[j] == if j < |rs| then rs[j] else r;
    if AveragesCurrent(ps, rs) {
      AppendKeepsOthers(ps, rs, r);
    }
  }

  /** The appended review changes no other product's aggregate. */
  lemma AppendKeepsOthers(ps: seq<Product>, rs: seq<Review>, r: Review)
    requires AveragesCurrent(ps, rs)
    ensures OthersCurrent(ps, rs + [r], r.productId)
  {
    forall i | 0 <= i < |ps| && ps[i].id != r.productId
      ensures ps[i].averageRating == AggregateRating(rs + [r], ps[i].id)
    {
      var q := ps[i].id;
      ReviewsOfAppend(rs, r, q);
      assert ReviewsOf(rs + [r], q) == ReviewsOf(rs, q) + [];
      assert ReviewsOf(rs, q) + [] == ReviewsOf(rs, q);
    }
  }

  /** Overwriting a review in place (same id, same product) with a conforming one keeps the store
      consistent and every other product's aggregate unchanged. */
  lemma ReplaceKeeps(ps: seq<Product>, rs: seq<Review>, k: nat, u: Review)
    requires Consistent(ps, rs) && k < |rs| && ReviewConforms(u)
    requires u.id == rs[k].id && u.productId == rs[k].productId
    ensures Consistent(ps, rs[k := u])
    ensures AveragesCurrent(ps, rs) ==> OthersCurrent(ps, rs[k := u], u.productId)
    ensures u.rating == rs[k].rating ==> AggregateRating(rs[k := u], u.productId) == AggregateRating(rs, u.productId)
  {
    forall q ensures q != u.productId || u.rating == rs[k].rating ==>
      AggregateRating(rs[k := u], q) == AggregateRating(rs, q)
    {
      ReplaceReview(rs, k, u, q);
    }
  }

  /** Deleting a stored review keeps the store consistent and every other product's aggregate unchanged. */
  lemma RemoveKeeps(ps: seq<Product>, rs: seq<Review>, k: nat)
    requires Consistent(ps, rs) && k < |rs|
    ensures var rest := rs[..k] + rs[k + 1..];
      Consistent(ps, rest) &&
      (forall x :: x in rest <==> x in rs && x.id != rs[k].id) &&
      (AveragesCurrent(ps, rs) ==> OthersCurrent(ps, rest, rs[k].productId))
  {
    var rest := rs[..k] + rs[k + 1..];
    RemovalKeepsOthers(rs, k);
    forall q | q != rs[k].productId ensures AggregateRating(rest, q) == AggregateRating(rs, q) {
      RemoveOtherProductsReview(rs, k, q);
    }
  }

  /** Inserting a conforming product with a fresh id keeps the store consistent; it has no reviews
      yet, so its average 0 is current. */
  lemma InsertKeeps(ps: seq<Product>, rs: seq<Review>, p: Product)
    requires Consistent(ps, rs) && ProductConforms(p) && p.averageRating == 0.0
    requires forall i :: 0 <= i < |ps| ==> ps[i].id != p.id
    ensures Consistent(ps + [p], rs)
    ensures AveragesCurrent(ps, rs) ==> AveragesCurrent(ps + [p], rs)
  {
    forall j | 0 <= j < |rs| ensures rs[j].productId != p.id {
      assert ps[ProductIndex(ps, rs[j].productId).value].id == rs[j].productId;
    }
    NoReviewsOf(rs, p.id);
    forall j | 0 <= j < |rs| ensures ProductIndex(ps + [p], rs[j].productId).Some? {
      var m := ProductIndex(ps, rs[j].productId).value;
      assert (ps + [p])[m].id == rs[j].productId;
    }
  }

  /** When the product's average was current and the rating did not change, the recomputation
      writes back the value already stored. */
  lemma UnchangedRatingKeepsProducts(before: seq<Product>, after: seq<Product>, rs: seq<Review>, rs': seq<Review>, productId: Id)
    requires forall i :: 0 <= i < |before| && before[i].id == productId ==>
      before[i].averageRating == AggregateRating(rs, productId)
    requires AggregateRating(rs', productId) == AggregateRating(rs, productId)
    requires OnlyRatingChanged(before, after, productId, AggregateRating(rs', productId))
    ensures after == before
  {
    assert forall i :: 0 <= i < |before| ==> after[i] == before[i];
  }

  /** Deleting position k of a collection with unique ids keeps every other document and only those. */
  lemma RemovalKeepsOthers(rs: seq<Review>, k: nat)
    requires UniqueReviewIds(rs) && k < |rs|
    ensures var rest := rs[..k] + rs[k + 1..];
      UniqueReviewIds(rest) &&
      (forall x :: x in rest <==> x in rs && x.id != rs[k].id) &&
      (forall j :: 0 <= j < |rest| ==> rest[j] == rs[if j < k then j else j + 1])
  {
    var rest := rs[..k] + rs[k + 1..];
    assert forall j :: 0 <= j < |rest| ==> rest[j] == rs[if j < k then j else j + 1];
    forall x ensures x in rest <==> x in rs && x.id != rs[k].id {
      if x in rs && x.id != rs[k].id {
        var i :| 0 <= i < |rs| && rs[i] == x;
        assert i != k;
        assert rest[if i < k then i else i - 1] == x;
      }
    }
  }

  /** Every stored average is 0 (no reviews) or lies in [1, 5]. */
  lemma StoredAveragesInRange(store: Store)
    requires store.Valid() && store.RatingsCurrent()
    ensures forall i :: 0 <= i < |store.products| ==>
      store.products[i].averageRating == 0.0 || 1.0 <= store.products[i].averageRating <= 5.0
  {
    forall i | 0 <= i < |store.products|
      ensures store.products[i].averageRating == 0.0 || 1.0 <= store.products[i].averageRating <= 5.0
    {
      AggregateRatingRange(store.reviews, store.products[i].id);
    }
  }
}

/** A client of the store: one product, two reviews, then both deleted again, with the stored
    average after every step. */
module CatalogScenario {
  import opened Basics
  import opened Http
  import opened ReviewModel
  import opened ProductModel
  import opened Validation
  import opened Rating
  import opened Catalog

  /** The review `addProductReview` stores for product 1 from a body that passed validation. */
  function Submitted(body: ReviewBody, id: Id, now: Time): Review
    requires ValidateReview(body).Success?
  {
    var input := ValidateReview(body).value;
    Review(id, 1, input.author, input.rating, input.comment, now)
  }

  lemma AggregateOfOne(r: Review)
    requires r.rating == 4.0 || r.rating == 5.0
    ensures AggregateRating([r], r.productId) == r.rating
  {
    assert ReviewsOf([r], r.productId) == [r] by {
      assert [r][..0] == [];
    }
    assert Ratings([r]) == [r.rating];
    assert Sum([r.rating]) == r.rating by {
      assert [r.rating][..0] == [];
    }
    Round1OfTenth((r.rating * 10.0).Floor);
  }

  lemma AggregateOfTwo(r: Review, t: Review)
    requires r.productId == t.productId && r.rating == 4.0 && t.rating == 5.0
    ensures AggregateRating([r, t], r.productId) == 4.5
  {
    ReviewsOfAppend([r], t, r.productId);
    assert [r] + [t] == [r, t];
    assert ReviewsOf([r], r.productId) == [r] by {
      assert [r][..0] == [];
    }
    assert Ratings([r, t]) == [4.0, 5.0];
    assert Sum([4.0, 5.0]) == 9.0 by {
      assert [4.0, 5.0][..1] == [4.0];
      assert [4.0][..0] == [];
    }
    Round1OfTenth(45);
  }

  predicate AcceptedWithRating(body: ReviewBody, rating: real) {
    ValidateReview(body).Success? && body.rating == Number(rating)
  }

  /** With a single stored product, changing only its rating leaves the one-element table. */
  lemma SingleProductRated(p: Product, ps: seq<Product>, value: real)
    requires OnlyRatingChanged([p], ps, p.id, value)
    ensures ps == [p.(averageRating := value)]
  {
    assert ps[0] == p.(averageRating := value);
  }

  /** Appending a review rated 5 after one rated 4 stores their mean. */
  lemma SecondAppended(p: Product, first: Review, second: Review, ps: seq<Product>, rs: seq<Review>)
    requires p.id == 1 && first.productId == 1 && second.productId == 1
    requires first.rating == 4.0 && second.rating == 5.0
    requires ReviewAppended([p], [first], ps, rs, second)
    ensures rs == [first, second] && ps == [p.(averageRating := 4.5)]
  {
    assert rs == [first] + [second] == [first, second];
    AggregateOfTwo(first, second);
    SingleProductRated(p, ps, 4.5);
  }

  method AddFirst(store: Store, p: Product, body: ReviewBody)
    requires store.Valid() && store.products == [p] && p.id == 1 && store.reviews == []
    requires AcceptedWithRating(body, 4.0)
    modifies store
    ensures store.Valid() && store.products == [p.(averageRating := 4.0)] && store.reviews == [Submitted(body, 10, 200)]
  {
    var first := Submitted(body, 10, 200);
    assert FindProduct(store.products, 1).Some?;
    var added := store.AddProductReview(1, body, 10, 200);
    assert ReviewAppended([p], [], store.products, store.reviews, first);
    assert store.reviews == [first];
    AggregateOfOne(first);
    SingleProductRated(p, store.products, 4.0);
  }

  method AddSecond(store: Store, p: Product, first: Review, body: ReviewBody)
    requires first.id == 10 && first.productId == 1 && first.rating == 4.0 && AcceptedWithRating(body, 5.0)
    requires store.Valid() && store.products == [p] && p.id == 1 && store.reviews == [first]
    modifies store
    ensures store.Valid() && store.products == [p.(averageRating := 4.5)]
    ensures store.reviews == [first, Submitted(body, 11, 300)]
  {
    assert FindProduct(store.products, 1).Some?;
    var added := store.AddProductReview(1, body, 11, 300);
    SecondAppended(p, first, Submitted(body, 11, 300), store.products, store.reviews);
  }

  method DeleteFirst(store: Store, p: Product, first: Review, second: Review)
    requires first.id == 10 && first.productId == 1 && second.id == 11 && second.productId == 1 && second.rating == 5.0
    requires store.Valid() && store.products == [p] && p.id == 1 && store.reviews == [first, second]
    modifies store
    ensures store.Valid() && store.products == [p.(averageRating := 5.0)] && store.reviews == [second]
  {
    assert FindProduct(store.products, 1).Some?;
    assert ReviewIndex(store.reviews, 10, 1) == Some(0);
    var deleted := store.DeleteReview(1, 10);
    assert ReviewDeleted([p], [first, second], store.products, store.reviews, 0);
    assert store.reviews == [second];
    AggregateOfOne(second);
    SingleProductRated(p, store.products, 5.0);
  }

  method DeleteSecond(store: Store, p: Product, second: Review)
    requires second.id == 11 && second.productId == 1
    requires store.Valid() && store.products == [p] && p.id == 1 && store.reviews == [second]
    modifies store
    ensures store.Valid() && store.products == [p.(averageRating := 0.0)] && store.reviews == []
  {
    assert FindProduct(store.products, 1).Some?;
    assert ReviewIndex(store.reviews, 11, 1) == Some(0);
    var deleted := store.DeleteReview(1, 11);
    assert ReviewDeleted([p], [second], store.products, store.reviews, 0);
    assert store.reviews == [];
    SingleProductRated(p, store.products, 0.0);
  }

  /** A product is created; a review rated 4 and one rated 5 are added; then both are deleted.
      The stored average after each step is 0, 4, 4.5, 5 and 0 again. */
  method RatingScenario(product: ProductBody, first: ReviewBody, second: ReviewBody) returns (averages: seq<real>)
    requires RequiredText(product.name) && RequiredText(product.description) && RequiredText(product.category)
    requires product.price.Some? && RequiredText(product.image)
    requires AcceptedWithRating(first, 4.0) && AcceptedWithRating(second, 5.0)
    ensures averages == [0.0, 4.0, 4.5, 5.0, 0.0]
  {
    var store := new Store();
    var created := store.CreateProductWithImage(product, 1, 100);
    var p := store.products[0];
    AddFirst(store, p, first);
    var a1 := store.products[0].averageRating;
    AddSecond(store, p.(averageRating := 4.0), Submitted(first, 10, 200), second);
    var a2 := store.products[0].averageRating;
    DeleteFirst(store, p.(averageRating := 4.5), Submitted(first, 10, 200), Submitted(second, 11, 300));
    var a3 := store.products[0].averageRating;
    DeleteSecond(store, p.(averageRating := 5.0), Submitted(second, 11, 300));
    var a4 := store.products[0].averageRating;
    averages := [p.averageRating, a1, a2, a3, a4];
  }
}
