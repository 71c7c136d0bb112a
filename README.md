# Product catalogue with reviews: a Dafny model

This project models the core of a small catalogue backend, a REST API over two document collections: products and reviews. It does not model the HTTP layer. It covers:

- the review handlers: list the reviews of a product, add, update and delete a review;
- the rating aggregate that runs after every review change: it re-reads the product's reviews, averages their ratings, rounds the mean to one decimal with `Math.round(x * 10) / 10`, and stores the result on the product, or 0 when the product has no reviews;
- the request-body validator shared by the add and update routes;
- the product handlers: the paged listing filtered by category, the case-insensitive name search, the lookup by id with reviews embedded, and product creation;
- the two schemas, with their required paths and defaults.

Module layout:

- `Basics` holds `Option`, `Result`, the id and time types, and `Filter`, the selection a query makes over a collection.
- `Http` holds the response shapes: 200, 201, 400 with a field-error list, 400 with a message, 404 and 500.
- `ReviewModel` and `ProductModel` hold the documents, what their schemas accept, and the look-ups run against them.
- `Ordering` holds the store's descending sort, `skip` and `limit`.
- `Rating` holds the sum, `Math.round` and the one-decimal average.
- `Validation` holds the review validator.
- `ProductQueries` holds the read-only product handlers, written as functions.
- `Catalog` holds the store. `Catalog.Store` is a class with the two collections as sequence fields, and the state-changing handlers are its methods.
- `CatalogScenario` is a client: for any two valid reviews rated 4 and 5 it adds both and deletes both, and checks the stored average after each step.

The store keeps two invariants:

- `Valid()`: ids are unique, every document meets its schema, and every review points at a stored product.
- `RatingsCurrent()`: every product's `averageRating` equals `AggregateRating`, the rounded mean of its reviews.

Each state-changing method states its whole new state. Each one makes the touched product's average current and preserves `RatingsCurrent()`.

Ratings are exact reals. Collections are sequences in stored order. A query's result is the filter of the stored order, and `sort` is a stable descending sort. Time (`Date.now`) and the ids the store assigns are method parameters.

Three points where the code is looser or stricter than its handlers suggest:

- **Update fields.** The update handler tests each field for truthiness before assigning it (`src/controllers/reviewController.ts:114-116`), as if the fields were optional. But the update route runs the same validator as creation (`src/routes/reviewRoutes.ts:22`), which requires all three. So an update must send all three fields and always overwrites all three (`Catalog.ValidatedUpdateOverwritesAll`).
- **Product creation.** `createProduct` can never succeed as written; see Findings.
- **Price.** The schema puts no bound on `price` (`src/models/Product.ts:18`), so a negative price is stored, and the model accepts it too.

## Model

| member | source | states |
|---|---|---|
| ReviewModel.NewReview | src/models/Review.ts:11-26 | A review is saved exactly when productId, author and comment are present and non-empty and the rating lies in [1, 5]. The saved review carries the given values, and its date defaults to the current time. |
| ReviewModel.ReviewIndex | src/controllers/reviewController.ts:101-104 | `findOne({_id, productId})` finds a review with both that id and that product. It finds none exactly when no stored review matches both. |
| ProductModel.NewProduct | src/models/Product.ts:13-22 | A product is created exactly when name, description, category and image are non-empty and price is present. It carries the given values, `dateAdded` defaults to now, and `averageRating` starts at 0. |
| ProductModel.ProductIndex | src/controllers/reviewController.ts:15 | `findById` gives the first position holding that id. It gives none exactly when no product has the id. |
| ProductModel.FindProduct | src/controllers/reviewController.ts:15-19 | The document found is stored and has the requested id. Nothing is found exactly when no product has the id, which is the 404 case. |
| ProductModel.OfProduct | src/controllers/reviewController.ts:175 | The query `{ productId }`: it accepts the reviews that point at the product. |
| ProductModel.ReviewsOf | src/controllers/reviewController.ts:175 | `find({productId})` returns only reviews of that product, and never more than are stored. |
| Basics.Filter | src/controllers/reviewController.ts:175 | `find(query)` returns only documents the query accepts, in stored order, never more than are stored. |
| Basics.FilterCount | src/controllers/reviewController.ts:175 | `find(query)` returns every accepted document, each as often as it is stored, and no other. |
| Basics.FilterConcat | src/controllers/reviewController.ts:175 | A query over a concatenation of collections finds the concatenation of what it finds in each. |
| Basics.FilterNone | src/controllers/reviewController.ts:175 | A query that accepts no stored document finds nothing. |
| Basics.FilterAgrees | src/controllers/productController.ts:56-57 | Two queries that agree on every stored document find the same documents. |
| ProductModel.ReviewsOfCount | src/controllers/reviewController.ts:175 | The result holds every review of the product, each as many times as it is stored, and no other review. |
| ProductModel.ReviewsOfConcat | src/controllers/reviewController.ts:175 | Filtering a concatenation is concatenating the filtered parts. |
| ProductModel.ReviewsOfAppend | src/controllers/reviewController.ts:64 | Saving a new review adds it to its own product's reviews and leaves every other product's reviews unchanged. |
| ProductModel.NoReviewsOf | src/models/Product.ts:31-35 | A product that no review points at has an empty review relation. |
| ProductModel.RemoveOtherProductsReview | src/controllers/reviewController.ts:158 | Deleting a review of another product leaves this product's reviews unchanged. |
| ProductModel.ReplaceReview | src/controllers/reviewController.ts:114-118 | An in-place update changes no other product's reviews. When the rating is unchanged, it does not change this product's ratings either. |
| Ordering.InsertDesc | src/controllers/productController.ts:25 | Inserting into a descending sequence keeps it descending and adds exactly that element. |
| Ordering.SortDesc | src/controllers/productController.ts:25 | `sort({key: -1})` gives a descending permutation of its input. |
| Ordering.Window | src/controllers/productController.ts:26-27 | `skip(n).limit(m)` gives the elements at positions n to n+m-1 that exist, in order, and has the matching length. |
| Ordering.WindowOfSorted | src/controllers/productController.ts:24-27 | A page of a sorted listing is itself sorted. |
| Rating.MathRound | src/controllers/reviewController.ts:186 | `Math.round(x)` is the integer n with n - 0.5 <= x < n + 0.5. |
| Rating.Round1 | src/controllers/reviewController.ts:186 | The stored value is a multiple of 0.1, within [x - 0.05, x + 0.05) of the mean x. |
| Rating.Round1Unique | src/controllers/reviewController.ts:186 | This characterises the rounding: any multiple of a tenth in [x - 0.05, x + 0.05) is the rounded value. |
| Rating.Round1Monotonic | src/controllers/reviewController.ts:186 | A larger mean never rounds to a smaller value. |
| Rating.Round1OfTenth | src/controllers/reviewController.ts:186 | A mean that is already a multiple of 0.1 is stored unchanged. |
| Rating.Round1TieGoesUp | src/controllers/reviewController.ts:186 | An exact x.x5 rounds up to the next tenth. |
| Rating.AverageAtTie | src/controllers/reviewController.ts:182-186 | Ratings 4 and 4.5 are stored as the average 4.3. |
| Rating.AverageRating | src/controllers/reviewController.ts:177-187 | With no ratings the average is 0. Its range and order independence are stated by the lemmas below. |
| Rating.Sum | src/controllers/reviewController.ts:182 | `reduce((sum, review) => sum + review.rating, 0)`: a left fold from 0. Its total distributes over concatenation and ignores order, as the lemmas below state. |
| Rating.SumConcat | src/controllers/reviewController.ts:182 | The `reduce` total of a concatenation is the sum of the parts' totals. |
| Rating.SumPermutation | src/controllers/reviewController.ts:182 | The total depends only on the multiset of ratings, not on the order the store returns them in. |
| Rating.SumWithin | src/controllers/reviewController.ts:182 | n ratings in [lo, hi] total between n·lo and n·hi. |
| Rating.AverageWithin | src/controllers/reviewController.ts:177-187 | Ratings within [lo, hi], where lo and hi are tenths, give a stored average within [lo, hi]. |
| Rating.AverageOfPermutation | src/controllers/reviewController.ts:175-186 | The stored average does not depend on the order in which the reviews are found. |
| Validation.IsWhitespace | src/middlewares/validationMiddleware.ts:8 | JavaScript's white-space and line-terminator characters, the set `trim()` strips; `WhitespaceIsJsSpace` proves it is exactly the listed class. |
| Validation.WhitespaceIsJsSpace | src/middlewares/validationMiddleware.ts:8 | The decision procedure accepts exactly the 25 characters of the ECMAScript white-space and line-terminator class. |
| Validation.TrimStart | src/middlewares/validationMiddleware.ts:8 | Gives a suffix of the input that is empty or starts with a non-whitespace character. |
| Validation.TrimStartDropsWhitespace | src/middlewares/validationMiddleware.ts:8 | Everything `TrimStart` cuts off is JavaScript whitespace, so it drops exactly the leading run. |
| Validation.TrimEnd | src/middlewares/validationMiddleware.ts:8 | Gives a prefix of the input that is empty or ends with a non-whitespace character. |
| Validation.TrimEndDropsWhitespace | src/middlewares/validationMiddleware.ts:8 | Everything `TrimEnd` cuts off is JavaScript whitespace, so it drops exactly the trailing run. |
| Validation.Trim | src/middlewares/validationMiddleware.ts:8 | `trim()` never lengthens its input, and its result neither starts nor ends with whitespace. |
| Validation.TrimKeepsMiddle | src/middlewares/validationMiddleware.ts:8 | The trimmed value is the contiguous middle of the input, starting after the leading whitespace. |
| Validation.TrimDropsOnlyWhitespace | src/middlewares/validationMiddleware.ts:8 | Everything before and after that middle is whitespace. |
| Validation.TrimIdempotent | src/middlewares/validationMiddleware.ts:21 | Trimming a trimmed value changes nothing. |
| Validation.TextRuleErrors | src/middlewares/validationMiddleware.ts:5-10 | A text chain reports no error exactly when the raw value is non-empty and the trimmed length is within bounds. The required message appears exactly when the raw value is empty, and the length message exactly when the trimmed length is out of bounds. A missing value reports both, in that order. |
| Validation.RatingErrors | src/middlewares/validationMiddleware.ts:12-16 | The rating chain passes exactly for a number in [1, 5]. The required message appears exactly for a blank rating, and the range message exactly when the rating is not a number in [1, 5]. So a blank rating reports both, and a non-number or out-of-range number only the range message. |
| Validation.ReviewErrors | src/middlewares/validationMiddleware.ts:4-24 | The three chains together report no error exactly when the author, rating and comment rules all hold. |
| Validation.ReviewErrorsNameTheirField | src/middlewares/validationMiddleware.ts:4-24 | Every error the chains report is on the author, rating or comment path. |
| Validation.ValidateReview | src/middlewares/validationMiddleware.ts:4-24 | A body is accepted exactly when all three chains pass. It then yields the trimmed author and comment with their bounds. Otherwise it yields the chains' non-empty error list. |
| Validation.ErrorsNameTheirField | src/middlewares/validationMiddleware.ts:4-24 | Every error of a rejected body is on the author, rating or comment path. |
| Validation.MissingFieldRejected | src/middlewares/validationMiddleware.ts:4-24 | A body missing any of the three fields is rejected. |
| Validation.WhitespaceOnlyAuthor | src/middlewares/validationMiddleware.ts:5-10 | A whitespace-only author passes `notEmpty`. It trims to "", so it fails only the length rule. |
| ProductQueries.PageNumber | src/controllers/productController.ts:11 | The page is never 0: it is the parsed number when that is non-zero, and 1 for a missing, non-numeric or zero page. Negative pages are kept. |
| ProductQueries.Skip | src/controllers/productController.ts:13 | `(page - 1) * 10` is non-negative exactly when the page is at least 1. |
| ProductQueries.PageCount | src/controllers/productController.ts:32 | `Math.ceil(total / 10)` is the least page count whose pages hold every match. |
| ProductQueries.InCategory | src/controllers/productController.ts:19-20 | The query `{ category }`: it accepts the products of that category. |
| ProductQueries.WithCategory | src/controllers/productController.ts:19-20 | The category filter keeps only products of that category. |
| ProductQueries.WithCategoryCount | src/controllers/productController.ts:19-23 | The filter keeps every product of that category, with its multiplicity, and nothing else. |
| ProductQueries.Matching | src/controllers/productController.ts:16-21 | The listing's query: only products of the category when a truthy category is given, every stored product otherwise. |
| ProductQueries.ListingPage | src/controllers/productController.ts:23-34 | The listing body reports the page, the number of matches and ceil(matches/10) pages. Its items are positions skip to skip+9 of the newest-first listing, and they are sorted. |
| ProductQueries.GetProducts | src/controllers/productController.ts:9-34 | A page below 1 makes the store refuse the negative skip, which gives 500. Otherwise the answer is 200 with the listing page of the category's matches. |
| ProductQueries.PageBeyondLastIsEmpty | src/controllers/productController.ts:24-32 | A page past the last one is empty but reports the same totals. |
| ProductQueries.PageOfPosition | src/controllers/productController.ts:13 | Page k/10+1 skips the first k - (k mod 10) products, so position k of the listing is its entry k mod 10, within the page size. |
| ProductQueries.EveryMatchIsOnItsPage | src/controllers/productController.ts:24-27 | The k-th product of the sorted listing appears on page k/10+1, at position k mod 10. |
| ProductQueries.ListedAreMatching | src/controllers/productController.ts:24-27 | A page of the sorted listing shows only products that match the query. |
| ProductQueries.MatchingAreStored | src/controllers/productController.ts:16-24 | A product matching the query is stored, and has the requested category when one was given. |
| ProductQueries.ListedProductsMatch | src/controllers/productController.ts:16-27 | Every listed product is stored, and belongs to the requested category when one was given. |
| ProductQueries.NameMatches | src/controllers/productController.ts:56-57 | The query `{ name: { $regex: q, $options: 'i' } }`: it accepts the products whose name contains the query, ignoring ASCII case. |
| ProductQueries.WithName | src/controllers/productController.ts:56-57 | The name query keeps only products whose name contains the query, ignoring case. |
| ProductQueries.WithNameCount | src/controllers/productController.ts:56-57 | The name query keeps every matching product, with its multiplicity, and nothing else. |
| ProductQueries.SearchProducts | src/controllers/productController.ts:47-60 | A missing or empty query gives 400 "Search query is required". Otherwise the answer is all matching products, newest first, unpaged. |
| ProductQueries.SearchWithoutMatchIsEmpty | src/controllers/productController.ts:56-60 | A query that matches no name gives 200 with an empty list. |
| ProductQueries.MatchIgnoresCase | src/controllers/productController.ts:57 | A name contains a query exactly when it contains one that differs only in ASCII letter case. |
| ProductQueries.SearchIgnoresCase | src/controllers/productController.ts:57 | Queries differing only in letter case find the same products. |
| ProductQueries.GetProductById | src/controllers/productController.ts:73-83 | The answer is 404 exactly when no product has the id. Otherwise it is the stored product with its review relation populated. |
| ProductQueries.EmbeddedReviewsAreTheProducts | src/controllers/productController.ts:75-76 | The populated reviews are exactly the stored reviews that point at the product. |
| Catalog.AggregateRating | src/controllers/reviewController.ts:175-186 | The value the recomputation writes: the one-decimal average of the product's ratings, 0 when it has none. `AggregateRatingRange` states its range. |
| Catalog.AggregateRatingRange | src/controllers/reviewController.ts:174-188 | The aggregate is 0 exactly when the product has no reviews. Otherwise it lies in [1, 5]. |
| Catalog.AcceptedInputIsSaved | src/controllers/reviewController.ts:54-64 | An input within the validator's bounds always passes the review schema: the saved document carries the product, the trimmed fields, the given id and the current date. |
| Catalog.ApplyUpdate | src/controllers/reviewController.ts:114-116 | The update's field assignments never change the review's id, product or date. |
| Catalog.ValidatedUpdateOverwritesAll | src/routes/reviewRoutes.ts:22 | Behind the validator all three fields are truthy, so an update replaces author, rating and comment with the sanitised input. |
| Catalog.CreateProductDraft | src/controllers/productController.ts:98-105 | The fields `createProduct` hands to the store: name, description, category and price from the body, and no image. `CreateProductAlwaysRejected` states the consequence. |
| Catalog.CreateProductAlwaysRejected | src/controllers/productController.ts:98-105 | The fields `createProduct` passes on never satisfy the schema, whatever the body. |
| Catalog.CompleteBodyIsCreated | src/controllers/productController.ts:98-105 | When the image is passed on as well, a complete body is created with the body's name, description, category, price and image, the given id, `dateAdded` now and `averageRating` 0. |
| Catalog.Store.UpdateProductAverageRating | src/controllers/reviewController.ts:174-188 | Writes the aggregate onto the product and changes nothing else, keeping `Valid()`. The product's average is then current, and all averages are current if all others were. |
| Catalog.Store.SaveNewReview | src/controllers/reviewController.ts:64-67 | Appends a conforming review with a fresh id and recomputes only its product's average, keeping `Valid()` and, when they held, all current averages. |
| Catalog.Store.SaveUpdatedReview | src/controllers/reviewController.ts:118-121 | Replaces the review in place and recomputes only its product's average. With the same rating and a current average the products are left as they were. |
| Catalog.Store.DeleteReviewAt | src/controllers/reviewController.ts:158-161 | Removes exactly that review, keeps every other, and recomputes only its product's average, keeping `Valid()` and the current averages. |
| Catalog.Store.GetProductReviews | src/controllers/reviewController.ts:10-23 | Gives 404 for an unknown product. Otherwise it gives exactly that product's reviews, newest first. |
| Catalog.Store.AddProductReview | src/controllers/reviewController.ts:36-69 | Gives 400 with the validator's errors, or 404 for an unknown product, changing nothing in either case. Otherwise it appends the trimmed review dated now, answers 201 with it, and recomputes only that product's average. |
| Catalog.Store.UpdateReview | src/controllers/reviewController.ts:82-123 | Gives 400, a product 404 or a review 404 with nothing changed. Otherwise it replaces that review in place and recomputes only that product's average. An unchanged rating leaves the products untouched. |
| Catalog.Store.DeleteReview | src/controllers/reviewController.ts:136-163 | Gives a product 404 or a review 404 with nothing changed. Otherwise it removes exactly that review (every other review stays), answers "Review removed" and recomputes only that product's average. |
| Catalog.Store.InsertProduct | src/controllers/productController.ts:100-105 | `Product.create` appends the created product and answers 201, or answers 500 with nothing changed when the schema rejects it. Either way `Valid()` and every current average are kept. |
| Catalog.Store.CreateProduct | src/controllers/productController.ts:96-107 | As written, always answers 500 and changes nothing. |
| Catalog.Store.CreateProductWithImage | src/controllers/productController.ts:96-107 | Answers 201 exactly when the body is complete. The new product is then appended, carrying the body's name, description, category, price and image, the given id, `dateAdded` now and `averageRating` 0. Otherwise it answers 500 and nothing changes. |
| Catalog.RecomputeKeeps | src/controllers/reviewController.ts:185-187 | `findByIdAndUpdate` on one product keeps the store consistent and changes only that product's average. |
| Catalog.AppendKeeps | src/controllers/reviewController.ts:56-64 | Saving a conforming review with a fresh id keeps `Valid()` and every other product's average. |
| Catalog.ReplaceKeeps | src/controllers/reviewController.ts:114-118 | Saving an updated review keeps `Valid()` and every other product's average. With the same rating it keeps this one's too. |
| Catalog.RemoveKeeps | src/controllers/reviewController.ts:158 | `deleteOne` keeps `Valid()` and every other product's average, and removes exactly the review with that id. |
| Catalog.RemovalKeepsOthers | src/controllers/reviewController.ts:158 | Deleting one review keeps ids unique, keeps every other review, and shifts the later ones down by one. |
| Catalog.InsertKeeps | src/models/Product.ts:21 | A new product has no reviews, so its default average of 0 is already current. |
| Catalog.UnchangedRatingKeepsProducts | src/controllers/reviewController.ts:115-121 | If the average was current and the rating is unchanged, the recomputation writes back the stored value. |
| Catalog.StoredAveragesInRange | src/models/Product.ts:21 | In a valid, current store every stored average is 0 or within [1, 5]. |
| CatalogScenario.RatingScenario | src/controllers/reviewController.ts:174-188 | Create a product, add reviews rated 4 and 5, then delete them in turn. The stored average goes 0, 4, 4.5, 5, 0. |

## Left out

- The server, configuration, database connection and routing tables are left out, and so is the error middleware. The route guards that matter are stated as the lemmas above.
- Concurrency is left out. Requests are handled one at a time, so the lost update between two concurrent recomputations of the same product is not modelled.
- Rating.Round1: ratings and prices are exact reals, not IEEE doubles, so the model's rounding can differ from the program's. For ratings 1.4 and 1.7 the program's sum is 3.0999999999999996 in doubles, mean×10 is 15.499999999999998, and it stores 1.5, while the model stores 1.6. `Rating.Round1TieGoesUp` therefore describes the program only when mean×10 is exact in binary. `Number(...)`, `parseInt` and `isFloat` parsing are not modelled; the body already carries parsed values (`RatingField`, `Option<int>`).
- The search query is matched literally, with ASCII-only case folding. `$regex` metacharacters and Unicode case folding are not modelled.
- ObjectId syntax and the 500 a malformed id causes (CastError) are not modelled, because ids are natural numbers. `validateMongoId` is not used by any route and is not modelled.
- Store failures (a lost connection, a failed write) and the 500 they cause are not modelled. The negative `skip` on the listing and the schema rejection on product creation are the only store errors modelled.
- The exact messages of the store's own errors (`NegativeSkip`, `ProductValidationFailed`) are placeholders.
- The `createdAt`/`updatedAt` timestamps are not modelled.
- The `value` and `location` fields of a validation error are not modelled; only `path` and `msg` are.
- isLength counts code points, and its treatment of combining marks and variation selectors is not modelled. Length is the number of characters.
- Body fields of non-string types (arrays, objects) are not modelled.
- Catalog.Store.GetProductReviews: documents with equal dates are listed in a stable order, while the store leaves their order unspecified. The same holds for equal `dateAdded` in ProductQueries.GetProducts and ProductQueries.SearchProducts.
- ProductQueries.GetProductById: populated reviews are listed in stored order; the order `populate` uses is not specified.
- Catalog.Store.AddProductReview: the freshly assigned review id is a parameter that must be unused; the store's id generator is not modelled.

## Findings

| source | as written | input that shows it | evidently intended | confidence | as-written member | corrected member |
|---|---|---|---|---|---|---|
| src/controllers/productController.ts:98-105 | `createProduct` passes only name, description, category and price to `Product.create`, but the schema requires `image` (src/models/Product.ts:19) | any body, for example name "Lamp", description "Desk lamp", category "Home", price 20, image "lamp.png": the store rejects it for the missing image and the handler answers 500 | the body's `image` is passed on, so a complete body is created with status 201 | not executed | Catalog.CreateProductAlwaysRejected | Catalog.CompleteBodyIsCreated |
