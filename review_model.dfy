/** The Review collection: its document type, the schema's constraints and defaults, and the
    lookups the controllers run against it. */
module ReviewModel {
  import opened Basics

  /** A stored review; `productId` refers to the product it belongs to. */
  datatype Review = Review(id: Id, productId: Id, author: string, rating: real, comment: string, date: Time)

  const MinRating: real := 1.0
  const MaxRating: real := 5.0

  /** What the schema's validators demand of a saved review: the required strings are non-empty
      and the rating lies within the schema's `min`/`max`. */
  predicate ReviewConforms(r: Review) {
    r.author != "" && r.comment != "" && MinRating <= r.rating <= MaxRating
  }

  /** The fields given to `new Review({...})`; a field not given is None. */
  datatype ReviewDraft = ReviewDraft(
    productId: Option<Id>,
    author: Option<string>,
    rating: Option<real>,
    comment: Option<string>,
    date: Option<Time>)

  /** Building and saving a review document: the required paths must be present, the rating within
      bounds, and `date` falls back to the creation time. */
  function NewReview(d: ReviewDraft, id: Id, now: Time): (r: Option<Review>)
    ensures r.Some? <==>
      d.productId.Some? && RequiredText(d.author) && RequiredText(d.comment) &&
      d.rating.Some? && MinRating <= d.rating.value <= MaxRating
    ensures r.Some? ==>
      ReviewConforms(r.value) && r.value.id == id &&
      d.productId == Some(r.value.productId) && d.author == Some(r.value.author) &&
      d.rating == Some(r.value.rating) && d.comment == Some(r.value.comment) &&
      r.value.date == d.date.GetOr(now)
  {
    if d.productId.Some? && RequiredText(d.author) && d.rating.Some? && RequiredText(d.comment)
       && MinRating <= d.rating.value <= MaxRating
    then Some(Review(id, d.productId.value, d.author.value, d.rating.value, d.comment.value, d.date.GetOr(now)))
    else None
  }

  /** The store gives every document its own id. */
  ghost predicate UniqueReviewIds(rs: seq<Review>) {
    forall i, j :: 0 <= i < j < |rs| ==> rs[i].id != rs[j].id
  }

  /** The sort key of `sort({ date: -1 })`. */
  function ByDate(r: Review): int {
    r.date
  }

  /** The `rating` of each review, in order. */
  function Ratings(rs: seq<Review>): (xs: seq<real>)
    ensures |xs| == |rs|
  {
    seq(|rs|, i requires 0 <= i < |rs| => rs[i].rating)
  }

  /** `Review.findOne({ _id: id, productId })`: the position of the first review matching both. */
  function ReviewIndex(rs: seq<Review>, id: Id, productId: Id): (k: Option<nat>)
    ensures k.Some? ==> k.value < |rs| && rs[k.value].id == id && rs[k.value].productId == productId
    ensures k.None? <==> forall i :: 0 <= i < |rs| ==> !(rs[i].id == id && rs[i].productId == productId)
  {
    if rs == [] then None
    else if rs[0].id == id && rs[0].productId == productId then Some(0)
    else match ReviewIndex(rs[1..], id, productId)
         case None => None
         case Some(k) => Some(k + 1)
  }
}
