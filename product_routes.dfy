/** The product routes' own logic: the listing's pagination arithmetic,
    the field normalisation on create and update, and rating submission
    (one rating per user, appended, then the mean and count recomputed). */
module ProductRoutes {
  import opened Common
  import opened Text
  import opened ProductModel

  // ---------------------------------------------------------------------
  // Listing: GET /api/products

  /** `Math.ceil(a / b)` for integers: the least integer at or above the
      exact quotient. */
  function CeilDiv(a: int, b: int): (r: int)
    requires b != 0
    ensures b > 0 ==> (r - 1) * b < a <= r * b
    ensures b < 0 ==> r * b <= a < (r - 1) * b
  {
    if b > 0 then
      CeilAbove(a, b);
      -((-a) / b)
    else
      CeilBelow(a, -b);
      -(a / -b)
  }

  /** The quotient rounded up, for a positive divisor. */
  lemma CeilAbove(a: int, b: int)
    requires b > 0
    ensures var r := -((-a) / b); (r - 1) * b < a <= r * b
  {
    var q, m := (-a) / b, (-a) % b;
    assert -a == q * b + m && 0 <= m < b;
    assert (-q) * b == -(q * b);
    assert (-q - 1) * b == -(q * b) - b;
  }

  /** The quotient rounded up, for a negative divisor `-d`. */
  lemma CeilBelow(a: int, d: int)
    requires d > 0
    ensures var r := -(a / d); r * -d <= a < (r - 1) * -d
  {
    var q, m := a / d, a % d;
    assert a == q * d + m && 0 <= m < d;
    assert (-q) * -d == q * d;
    assert (-q - 1) * -d == q * d + d;
  }

  /** The `pagination` block of the listing reply. */
  datatype Pagination = Pagination(
    currentPage: int, totalPages: int, totalProducts: int,
    hasNextPage: bool, hasPrevPage: bool)

  /** What the listing asks the store for and reports back. */
  datatype Listing = Listing(skip: int, limit: int, pagination: Pagination)

  /** `page = parseInt(page) || 1`, `limit = parseInt(limit) || 12`,
      `skip = (page - 1) * limit` and the pagination block for `total`
      matching products. A page or limit that parses to a non-zero number
      is used as sent; a missing or zero page is 1, a missing or zero limit
      is 12, so the limit is never 0. `totalPages` is the quotient rounded
      up, for either sign of the limit. */
  function ListProducts(pageQuery: Option<int>, limitQuery: Option<int>, total: int): (r: Listing)
    ensures r.limit != 0
    ensures pageQuery.None? || pageQuery == Some(0) ==> r.pagination.currentPage == 1
    ensures limitQuery.None? || limitQuery == Some(0) ==> r.limit == 12
    ensures pageQuery.Some? && pageQuery.value != 0 ==> r.pagination.currentPage == pageQuery.value
    ensures limitQuery.Some? && limitQuery.value != 0 ==> r.limit == limitQuery.value
    ensures r.pagination.totalPages == CeilDiv(total, r.limit)
    ensures r.skip == (r.pagination.currentPage - 1) * r.limit
    ensures r.pagination.totalProducts == total
    ensures r.pagination.hasPrevPage <==> r.pagination.currentPage > 1
    ensures r.pagination.hasNextPage <==> r.pagination.currentPage < r.pagination.totalPages
  {
    var page := IntOr(pageQuery, 1);
    var limit := IntOr(limitQuery, 12);
    var totalPages := CeilDiv(total, limit);
    Listing((page - 1) * limit, limit,
      Pagination(page, totalPages, total, page < totalPages, page > 1))
  }

  /** With a positive limit, `totalPages` pages of `limit` hold all
      products and one page fewer would not; and there is a next page exactly
      when products remain after this page's window. */
  lemma PaginationMeaning(pageQuery: Option<int>, limitQuery: Option<int>, total: int)
    ensures var r := ListProducts(pageQuery, limitQuery, total);
      r.limit > 0 ==>
        && (r.pagination.totalPages - 1) * r.limit < total <= r.pagination.totalPages * r.limit
        && (r.pagination.hasNextPage <==> r.skip + r.limit < total)
  {
    var r := ListProducts(pageQuery, limitQuery, total);
    if r.limit > 0 {
      PageWindow(r.pagination.currentPage, r.limit, r.pagination.totalPages, r.skip, total);
    }
  }

  /** The listing's window arithmetic for a positive limit: `pages`, the
      rounded-up quotient, is just enough pages, and a page ends before the
      last product exactly when it precedes the last page. */
  lemma PageWindow(page: int, limit: int, pages: int, skip: int, total: int)
    requires limit > 0 && pages == CeilDiv(total, limit) && skip == (page - 1) * limit
    ensures (pages - 1) * limit < total <= pages * limit
    ensures page < pages <==> skip + limit < total
  {
    assert skip + limit == page * limit by {
      assert (page - 1) * limit + limit == page * limit;
    }
    PageBeforeLast(page, limit, pages, total);
  }

  /** A page comes before the last of `pages` pages exactly when its window
      ends before the last product. */
  lemma PageBeforeLast(page: int, limit: int, pages: int, total: int)
    requires limit > 0 && (pages - 1) * limit < total <= pages * limit
    ensures page < pages <==> page * limit < total
  {
    if page < pages {
      assert (pages - 1 - page) * limit >= 0;
      assert (pages - 1) * limit - page * limit == (pages - 1 - page) * limit;
    } else {
      assert (page - pages) * limit >= 0;
      assert page * limit - pages * limit == (page - pages) * limit;
    }
  }

  // ---------------------------------------------------------------------
  // Creating and updating: POST /api/products, PUT /api/products/:id

  /** The create request's fields that the model carries: numbers as
      `parseInt`/`parseFloat` left them (None for a missing, empty or
      unparsable field), strings as sent, and the two flags as the store
      casts them (None when absent). The original price is parsed only when
      sent non-empty, so it is None when not sent, `Some(None)` when sent
      but unparsable (NaN) and `Some(Some(v))` otherwise. `sizeUnit` is the
      flat `size[unit]` field and `nestedSizeUnit` the nested `size.unit`. */
  datatype CreateRequest = CreateRequest(
    price: Option<int>, originalPrice: Option<Option<int>>, category: string,
    condition: Option<string>, stock: Option<int>, tags: Option<string>,
    sizeUnit: Option<string>, nestedSizeUnit: Option<string>,
    isActive: Option<bool>, isFeatured: Option<bool>)

  /** The document the create route builds (`productData`). */
  datatype ProductData = ProductData(
    price: int, originalPrice: Option<int>, stock: int, isActive: bool, isFeatured: bool,
    category: Category, condition: Condition, images: seq<string>, tags: seq<string>, sizeUnit: string)

  /** The create route up to `new Product(productData).save()`. A missing or
      negative price or an unknown category is refused with 400, as is a
      request without images; the save refuses (500) a negative stock, a
      negative or unparsable original price and an unknown condition. Otherwise stock is the parsed
      number with 0 or NaN read as 1, tags are the trimmed comma-separated
      pieces (none for an empty field), the size unit is the flat field, else
      the nested one, else `cm`, the condition defaults to `Good`, the flags
      spread from the body default to active and not featured, and the
      images are the uploads in order. */
  function NewProductData(req: CreateRequest, uploads: seq<string>): (r: Reply<ProductData>)
    ensures r.Ok? <==>
      && req.price.Some? && req.price.value >= 0 && ParseCategory(req.category).Some?
      && uploads != []
      && IntOr(req.stock, 1) >= 0
      && (req.originalPrice.Some? ==> req.originalPrice.value.Some? && req.originalPrice.value.value >= 0)
      && ParseCondition(req.condition).Some?
    ensures r.Fail? && (req.price.None? || req.price.value < 0 || ParseCategory(req.category).None? || uploads == []) ==>
      r.status == 400
    ensures r.Fail? && req.price.Some? && req.price.value >= 0 && ParseCategory(req.category).Some? && uploads != [] ==>
      r == Fail(500, "Server error")
    ensures r.Ok? ==> var d := r.value;
      && d.price == req.price.value
      && (req.originalPrice.None? ==> d.originalPrice.None?)
      && (req.originalPrice.Some? ==> d.originalPrice == req.originalPrice.value)
      && CategoryName(d.category) == req.category
      && (req.stock.None? || req.stock == Some(0) ==> d.stock == 1)
      && (req.stock.Some? && req.stock.value != 0 ==> d.stock == req.stock.value)
      && d.tags == SplitTags(req.tags)
      && (!Truthy(req.sizeUnit) && !Truthy(req.nestedSizeUnit) ==> d.sizeUnit == "cm")
      && (Truthy(req.sizeUnit) ==> d.sizeUnit == req.sizeUnit.value)
      && (!Truthy(req.sizeUnit) && Truthy(req.nestedSizeUnit) ==> d.sizeUnit == req.nestedSizeUnit.value)
      && (req.condition.None? ==> d.condition == Good)
      && (req.condition.Some? ==> ConditionName(d.condition) == req.condition.value)
      && d.isActive == (if req.isActive.Some? then req.isActive.value else true)
      && d.isFeatured == (if req.isFeatured.Some? then req.isFeatured.value else false)
      && d.images == uploads
  {
    if req.price.None? || req.price.value < 0 then Fail(400, "Valid price is required")
    else if ParseCategory(req.category).None? then Fail(400, "Valid category is required")
    else if uploads == [] then Fail(400, "At least one product image is required")
    else
      var stock := IntOr(req.stock, 1);
      var condition := ParseCondition(req.condition);
      var originalPrice := if req.originalPrice.Some? then req.originalPrice.value else None;
      // NaN fails the store's number cast, a negative value its `min: 0`.
      if stock < 0 || (req.originalPrice.Some? && (originalPrice.None? || originalPrice.value < 0))
         || condition.None? then
        Fail(500, "Server error")
      else
        Ok(ProductData(req.price.value, originalPrice, stock,
          if req.isActive.Some? then req.isActive.value else true,
          if req.isFeatured.Some? then req.isFeatured.value else false,
          ParseCategory(req.category).value, condition.value, uploads,
          SplitTags(req.tags), StrOr(req.sizeUnit, StrOr(req.nestedSizeUnit, "cm"))))
  }

  /** POST /api/products: builds and stores a new, valid product from the
      normalised fields, flags included. */
  method CreateProduct(req: CreateRequest, uploads: seq<string>) returns (r: Reply<Product>)
    ensures r.Fail? <==> NewProductData(req, uploads).Fail?
    ensures r.Fail? ==> r == Fail(NewProductData(req, uploads).status, NewProductData(req, uploads).message)
    ensures r.Ok? ==> var d := NewProductData(req, uploads).value;
      && fresh(r.value) && r.value.Valid()
      && r.value.price == d.price && r.value.originalPrice == d.originalPrice
      && r.value.stock == d.stock && r.value.category == d.category
      && r.value.isActive == d.isActive && r.value.isFeatured == d.isFeatured
      && r.value.ratings == [] && r.value.totalReviews == 0
      && r.value.condition == d.condition && r.value.images == d.images
      && r.value.tags == d.tags && r.value.sizeUnit == d.sizeUnit
  {
    var data := NewProductData(req, uploads);
    if data.Fail? {
      return Fail(data.status, data.message);
    }
    var d := data.value;
    var product := new Product(d.price, d.originalPrice, d.stock, d.isActive, d.isFeatured,
                               d.category, d.condition, d.images, d.tags, d.sizeUnit);
    return Ok(product);
  }

  /** The images after an update: with no uploads the stored list stays;
      otherwise the uploads come last, after the stored list unless
      `replaceImages` is the string `'true'`, in which case they replace it. */
  function MergeImages(existing: seq<string>, uploads: seq<string>, replaceImages: Option<string>): (r: seq<string>)
    ensures uploads == [] ==> r == existing
    ensures uploads != [] ==> |r| >= |uploads| && r[|r| - |uploads|..] == uploads
    ensures uploads != [] ==> r[..|r| - |uploads|] == if replaceImages == Some("true") then [] else existing
  {
    if uploads == [] then existing
    else if replaceImages == Some("true") then uploads
    else existing + uploads
  }

  /** The update request's fields that the model carries, each None when
      the body does not set it: the numbers as parsed, the flags, category
      and condition as the store casts them, `size` as the unit of a sent
      `size` object, and the raw `tags` and `replaceImages` strings. */
  datatype UpdateRequest = UpdateRequest(
    price: Option<int>, originalPrice: Option<int>, stock: Option<int>,
    isActive: Option<bool>, isFeatured: Option<bool>,
    category: Option<Category>, condition: Option<Condition>,
    size: Option<Option<string>>, tags: Option<string>, replaceImages: Option<string>)

  /** The value an update writes to a field: the one sent, or the stored
      one when the body does not set the field. */
  function Given<T>(sent: Option<T>, stored: T): (r: T)
    ensures sent.Some? ==> r == sent.value
    ensures sent.None? ==> r == stored
  {
    if sent.Some? then sent.value else stored
  }

  /** The same for an optional field: the sent value, or the stored one. */
  function SentOr<T>(sent: Option<T>, stored: Option<T>): (r: Option<T>)
    ensures sent.Some? ==> r == sent
    ensures sent.None? ==> r == stored
  {
    if sent.Some? then sent else stored
  }

  /** The size unit after an update: a sent `size` object sets it, to `cm`
      when the object has no unit; otherwise it stays. */
  function UnitAfterUpdate(size: Option<Option<string>>, stored: string): (r: string)
    ensures size.None? ==> r == stored
    ensures size.Some? && Truthy(size.value) ==> r == size.value.value
    ensures size.Some? && !Truthy(size.value) ==> r == "cm"
  {
    if size.Some? then StrOr(size.value, "cm") else stored
  }

  /** The numbers an update sets are within the schema's `min: 0`. */
  predicate UpdateInBounds(req: UpdateRequest) {
    && (req.price.Some? ==> req.price.value >= 0)
    && (req.originalPrice.Some? ==> req.originalPrice.value >= 0)
    && (req.stock.Some? ==> req.stock.value >= 0)
  }

  /** PUT /api/products/:id: 404 for a missing product; otherwise the
      images are merged with the uploads, the tags are re-split when the
      field is non-empty, a sent `size` sets the unit (`cm` when it has
      none), and every other field the body sets is written as sent. The
      update runs no schema validators, so a valid product stays valid
      exactly when the numbers sent are within bounds; the ratings are not
      touched. */
  method UpdateProduct(product: Product?, req: UpdateRequest, uploads: seq<string>) returns (r: Reply<()>)
    modifies product
    ensures product == null <==> r.Fail?
    ensures r.Fail? ==> r.status == 404
    ensures product != null ==> product.images == MergeImages(old(product.images), uploads, req.replaceImages)
    ensures product != null ==> product.tags == TagsAfterUpdate(old(product.tags), req.tags)
    ensures product != null ==>
      && product.price == Given(req.price, old(product.price))
      && product.originalPrice == SentOr(req.originalPrice, old(product.originalPrice))
      && product.stock == Given(req.stock, old(product.stock))
      && product.isActive == Given(req.isActive, old(product.isActive))
      && product.isFeatured == Given(req.isFeatured, old(product.isFeatured))
      && product.category == Given(req.category, old(product.category))
      && product.condition == Given(req.condition, old(product.condition))
      && product.sizeUnit == UnitAfterUpdate(req.size, old(product.sizeUnit))
    ensures product != null ==>
      && product.ratings == old(product.ratings) && product.averageRating == old(product.averageRating)
      && product.totalReviews == old(product.totalReviews)
    ensures product != null && old(product.Valid()) ==> (product.Valid() <==> UpdateInBounds(req))
  {
    if product == null {
      return Fail(404, "Product not found");
    }
    SetMedia(product, req, uploads);
    SetFields(product, req);
    return Ok(());
  }

  /** The images and tags part of an update; nothing else changes. */
  method SetMedia(product: Product, req: UpdateRequest, uploads: seq<string>)
    modifies product
    ensures product.images == MergeImages(old(product.images), uploads, req.replaceImages)
    ensures product.tags == TagsAfterUpdate(old(product.tags), req.tags)
    ensures product.price == old(product.price) && product.originalPrice == old(product.originalPrice)
    ensures product.stock == old(product.stock) && product.isActive == old(product.isActive)
    ensures product.isFeatured == old(product.isFeatured) && product.category == old(product.category)
    ensures product.condition == old(product.condition) && product.sizeUnit == old(product.sizeUnit)
    ensures product.ratings == old(product.ratings) && product.averageRating == old(product.averageRating)
    ensures product.totalReviews == old(product.totalReviews)
  {
    product.images, product.tags :=
      MergeImages(product.images, uploads, req.replaceImages), TagsAfterUpdate(product.tags, req.tags);
  }

  /** The remaining fields of an update, each written when sent. */
  method SetFields(product: Product, req: UpdateRequest)
    modifies product
    ensures product.price == Given(req.price, old(product.price))
    ensures product.originalPrice == SentOr(req.originalPrice, old(product.originalPrice))
    ensures product.stock == Given(req.stock, old(product.stock))
    ensures product.isActive == Given(req.isActive, old(product.isActive))
    ensures product.isFeatured == Given(req.isFeatured, old(product.isFeatured))
    ensures product.category == Given(req.category, old(product.category))
    ensures product.condition == Given(req.condition, old(product.condition))
    ensures product.sizeUnit == UnitAfterUpdate(req.size, old(product.sizeUnit))
    ensures product.images == old(product.images) && product.tags == old(product.tags)
    ensures product.ratings == old(product.ratings) && product.averageRating == old(product.averageRating)
    ensures product.totalReviews == old(product.totalReviews)
  {
    product.price, product.originalPrice, product.stock :=
      Given(req.price, product.price), SentOr(req.originalPrice, product.originalPrice), Given(req.stock, product.stock);
    product.isActive, product.isFeatured := Given(req.isActive, product.isActive), Given(req.isFeatured, product.isFeatured);
    product.category, product.condition := Given(req.category, product.category), Given(req.condition, product.condition);
    product.sizeUnit := UnitAfterUpdate(req.size, product.sizeUnit);
  }

  // ---------------------------------------------------------------------
  // Ratings: POST /api/products/:id/ratings

  /** Some rating in the list is by `user`. */
  predicate HasRated(ratings: seq<Rating>, user: UserId) {
    exists i :: 0 <= i < |ratings| && ratings[i].user == user
  }

  /** The checks of the rating route, in its order: the rating must be an
      integer 1..5 and the review at most 500 characters (400), the product
      must exist (404), and the user must not have rated it yet (400). */
  function RatingCheck(found: bool, ratings: seq<Rating>, user: UserId, rating: int, review: Option<string>): (r: Reply<()>)
    ensures r.Ok? <==> 1 <= rating <= 5 && (review.Some? ==> |review.value| <= 500) && found && !HasRated(ratings, user)
    ensures r.Fail? ==> r.status == if found && 1 <= rating <= 5 && (review.Some? ==> |review.value| <= 500) then 400
                                    else if !found && 1 <= rating <= 5 && (review.Some? ==> |review.value| <= 500) then 404
                                    else 400
  {
    if !(1 <= rating <= 5) then Fail(400, "Rating must be between 1 and 5")
    else if review.Some? && |review.value| > 500 then Fail(400, "Review cannot exceed 500 characters")
    else if !found then Fail(404, "Product not found")
    else if HasRated(ratings, user) then Fail(400, "You have already rated this product")
    else Ok(())
  }

  /** Once a user's rating is accepted, any further rating by that user is
      refused as a duplicate. */
  lemma SecondRatingRejected(ratings: seq<Rating>, user: UserId, rating: int, review: Option<string>, date: Time,
                             rating2: int, review2: Option<string>)
    requires RatingCheck(true, ratings, user, rating, review).Ok?
    requires 1 <= rating2 <= 5 && (review2.Some? ==> |review2.value| <= 500)
    ensures RatingCheck(true, ratings + [Rating(user, rating, review, date)], user, rating2, review2)
         == Fail(400, "You have already rated this product")
  {
    var after := ratings + [Rating(user, rating, review, date)];
    assert after[|ratings|].user == user;
  }

  /** The rating route's reply: the checks of `RatingCheck`, then the
      `save` at the end of `calculateAverageRating`, which rejects a document
      whose price, original price or stock is below 0 (a plain update can
      store one) and so ends in the route's 500 reply. */
  function RatingReply(found: bool, inBounds: bool, ratings: seq<Rating>, user: UserId, rating: int,
                       review: Option<string>): (r: Reply<()>)
    ensures r.Ok? <==> RatingCheck(found, ratings, user, rating, review).Ok? && inBounds
    ensures RatingCheck(found, ratings, user, rating, review).Fail? ==>
      r == RatingCheck(found, ratings, user, rating, review)
    ensures RatingCheck(found, ratings, user, rating, review).Ok? && !inBounds ==>
      r == Fail(500, "Server error")
  {
    var check := RatingCheck(found, ratings, user, rating, review);
    if check.Fail? then check
    else if !inBounds then Fail(500, "Server error")
    else Ok(())
  }

  /** POST /api/products/:id/ratings. A refused request leaves the product
      as it was; an accepted one appends the rating at the end and stores the
      new mean and count, keeping the product valid. A product out of the
      schema's bounds fails at the final `save`, and nothing is stored. */
  method SubmitRating(product: Product?, user: UserId, rating: int, review: Option<string>, now: Time)
    returns (r: Reply<()>)
    requires product != null ==> product.RatingsAgree()
    modifies product
    ensures r == RatingReply(product != null, product != null && old(product.InBounds()),
                             if product == null then [] else old(product.ratings), user, rating, review)
    ensures r.Fail? && product != null ==> unchanged(product)
    ensures r.Ok? ==>
      && product != null && product.Valid()
      && product.ratings == old(product.ratings) + [Rating(user, rating, review, now)]
      && product.averageRating == MeanRating(product.ratings)
      && product.totalReviews == old(product.totalReviews) + 1
      && product.price == old(product.price) && product.stock == old(product.stock)
      && product.isActive == old(product.isActive) && product.images == old(product.images)
      && product.originalPrice == old(product.originalPrice) && product.isFeatured == old(product.isFeatured)
      && product.category == old(product.category) && product.condition == old(product.condition)
      && product.tags == old(product.tags) && product.sizeUnit == old(product.sizeUnit)
  {
    r := RatingCheck(product != null, if product == null then [] else product.ratings, user, rating, review);
    if r.Fail? {
      return;
    }
    if !product.InBounds() {
      // The pushed rating lives only in memory: the save rejects the document.
      return Fail(500, "Server error");
    }
    product.ratings := product.ratings + [Rating(user, rating, review, now)];
    product.CalculateAverageRating();
  }

  /** The same user rating the same product twice: the second request is
      refused and leaves the ratings, the mean and the count as the first
      one left them. */
  method RateTwice(product: Product, user: UserId, rating: int, review: Option<string>, now: Time)
    returns (first: Reply<()>, second: Reply<()>)
    requires product.RatingsAgree()
    modifies product
    ensures first.Ok? ==> second == Fail(400, "You have already rated this product")
  {
    first := SubmitRating(product, user, rating, review, now);
    if first.Ok? {
      ghost var ratings := product.ratings;
      assert ratings[|ratings| - 1].user == user;
      second := SubmitRating(product, user, rating, review, now);
      assert product.ratings == ratings;
    } else {
      second := first;
    }
  }
}
