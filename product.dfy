/** The catalog's product document: its closed enumerations and field
    bounds, the rating list with its derived mean and count, and the
    discount shown when an original price is set. */
module ProductModel {
  import opened Common

  /** The schema's `category` enumeration. */
  datatype Category = Buddha | Bodhisattva | Deity | Mandala | Landscape | Other

  function CategoryName(c: Category): string {
    match c
    case Buddha => "Buddha"
    case Bodhisattva => "Bodhisattva"
    case Deity => "Deity"
    case Mandala => "Mandala"
    case Landscape => "Landscape"
    case Other => "Other"
  }

  /** The schema's enum check on `category`: exactly the six names are
      accepted, each as the category it names. */
  function ParseCategory(s: string): (r: Option<Category>)
    ensures r.Some? ==> CategoryName(r.value) == s
    ensures r.None? <==> forall c: Category :: CategoryName(c) != s
  {
    match s
    case "Buddha" => Some(Buddha)
    case "Bodhisattva" => Some(Bodhisattva)
    case "Deity" => Some(Deity)
    case "Mandala" => Some(Mandala)
    case "Landscape" => Some(Landscape)
    case "Other" => Some(Other)
    case _ => None
  }

  /** The schema's `condition` enumeration; `Good` when none is given. */
  datatype Condition = Excellent | VeryGood | Good | Fair

  const DefaultCondition: Condition := Good

  function ConditionName(c: Condition): string {
    match c
    case Excellent => "Excellent"
    case VeryGood => "Very Good"
    case Good => "Good"
    case Fair => "Fair"
  }

  /** The enum check on `condition`, with the default for a missing value:
      an absent field gives `Good`, a listed name gives its condition, any
      other string is refused. */
  function ParseCondition(s: Option<string>): (r: Option<Condition>)
    ensures s.None? ==> r == Some(Good)
    ensures s.Some? && r.Some? ==> ConditionName(r.value) == s.value
    ensures s.Some? ==> (r.None? <==> forall c: Condition :: ConditionName(c) != s.value)
  {
    match s
    case None => Some(DefaultCondition)
    case Some("Excellent") => Some(Excellent)
    case Some("Very Good") => Some(VeryGood)
    case Some("Good") => Some(Good)
    case Some("Fair") => Some(Fair)
    case Some(_) => None
  }

  /** One entry of `ratings`. */
  datatype Rating = Rating(user: UserId, rating: int, review: Option<string>, date: Time)

  /** The schema's `min: 1, max: 5` on every rating. */
  predicate RatingsInRange(ratings: seq<Rating>) {
    forall i :: 0 <= i < |ratings| ==> 1 <= ratings[i].rating <= 5
  }

  /** `ratings.reduce((sum, r) => sum + r.rating, 0)`. */
  function RatingSum(ratings: seq<Rating>): (r: int)
    ensures ratings == [] ==> r == 0
    ensures (forall x :: x in ratings ==> x.rating >= 0) ==> r >= 0
  {
    if ratings == [] then 0 else RatingSum(ratings[..|ratings| - 1]) + ratings[|ratings| - 1].rating
  }

  /** The mean rating `calculateAverageRating` stores: 0 for no ratings,
      otherwise the sum over the count. */
  function MeanRating(ratings: seq<Rating>): (r: real)
    ensures ratings == [] ==> r == 0.0
    ensures ratings != [] ==> r * |ratings| as real == RatingSum(ratings) as real
  {
    if |ratings| == 0 then 0.0 else RatingSum(ratings) as real / |ratings| as real
  }

  /** Ratings of 1 to 5 sum to between one and five times their number. */
  lemma {:induction false} RatingSumBounds(ratings: seq<Rating>)
    requires RatingsInRange(ratings)
    ensures |ratings| <= RatingSum(ratings) <= 5 * |ratings|
  {
    if ratings != [] {
      RatingSumBounds(ratings[..|ratings| - 1]);
    }
  }

  /** A non-empty list of ratings of 1 to 5 has a mean between 1 and 5; an
      empty list has mean 0. */
  lemma MeanRatingBounds(ratings: seq<Rating>)
    requires RatingsInRange(ratings)
    ensures ratings == [] ==> MeanRating(ratings) == 0.0
    ensures ratings != [] ==> 1.0 <= MeanRating(ratings) <= 5.0
  {
    if ratings != [] {
      RatingSumBounds(ratings);
      var n := |ratings| as real;
      var s := RatingSum(ratings) as real;
      assert n <= s <= 5.0 * n;
      DivisionBounds(s, n, 1.0, 5.0);
    }
  }

  /** Dividing by a positive number keeps bounds that are multiples of it. */
  lemma DivisionBounds(s: real, n: real, lo: real, hi: real)
    requires n > 0.0 && lo * n <= s <= hi * n
    ensures lo <= s / n <= hi
  {
    var q := s / n;
    assert q * n == s;
    assert q < lo ==> q * n < lo * n;
    assert q > hi ==> q * n > hi * n;
  }

  /** Appending a rating adds its value to the sum. */
  lemma RatingSumAppend(ratings: seq<Rating>, r: Rating)
    ensures RatingSum(ratings + [r]) == RatingSum(ratings) + r.rating
  {
    assert (ratings + [r])[..|ratings|] == ratings;
  }

  /** The `discountPercentage` virtual: 0 unless an original price is set
      (and non-zero) and above the price; then `Math.round` of the percentage
      saved, that is the integer within one half of it (halves rounding
      up). For a price of at least 0 the discount lies in 0..100. */
  function Discount(price: int, originalPrice: Option<int>): (r: int)
    ensures !(originalPrice.Some? && originalPrice.value != 0 && originalPrice.value > price) ==> r == 0
    ensures originalPrice.Some? && originalPrice.value != 0 && originalPrice.value > price ==>
      var x := 100.0 * (originalPrice.value - price) as real / originalPrice.value as real;
      r as real <= x + 0.5 < r as real + 1.0
    ensures price >= 0 ==> 0 <= r <= 100
  {
    if originalPrice.Some? && originalPrice.value != 0 && originalPrice.value > price then
      var op := originalPrice.value as real;
      var x := 100.0 * (originalPrice.value - price) as real / op;
      assert price >= 0 ==> 0.0 < x <= 100.0 by {
        if price >= 0 {
          assert op > 0.0;
          assert (originalPrice.value - price) as real <= op;
          assert 100.0 * (originalPrice.value - price) as real <= 100.0 * op;
        }
      }
      (x + 0.5).Floor
    else 0
  }

  class Product {
    var price: int
    var originalPrice: Option<int>
    var stock: int
    var isActive: bool
    var isFeatured: bool
    var category: Category
    var condition: Condition
    var images: seq<string>
    var tags: seq<string>
    var sizeUnit: string
    var ratings: seq<Rating>
    var averageRating: real
    var totalReviews: int

    /** The schema's `min: 0` on the price, the original price and the
      stock, which `save` checks and a plain update does not. */
    predicate InBounds()
      reads this
    {
      && price >= 0
      && (originalPrice.Some? ==> originalPrice.value >= 0)
      && stock >= 0
    }

    /** Ratings of 1..5, and the derived mean and count agreeing with the
      list. */
    predicate RatingsAgree()
      reads this
    {
      && RatingsInRange(ratings)
      && averageRating == MeanRating(ratings)
      && totalReviews == |ratings|
    }

    /** A document the schema accepts, with its derived rating fields up to
      date. */
    predicate Valid()
      reads this
    {
      InBounds() && RatingsAgree()
    }

    /** `new Product(productData)`: the flags as given (the route fills in
      the schema defaults, active and not featured, for absent ones), and no
      ratings yet. */
    constructor (price: int, originalPrice: Option<int>, stock: int, isActive: bool, isFeatured: bool,
                 category: Category, condition: Condition, images: seq<string>, tags: seq<string>,
                 sizeUnit: string)
      requires price >= 0 && (originalPrice.Some? ==> originalPrice.value >= 0) && stock >= 0
      ensures Valid()
      ensures this.price == price && this.originalPrice == originalPrice && this.stock == stock
      ensures this.isActive == isActive && this.isFeatured == isFeatured
      ensures this.category == category && this.condition == condition
      ensures this.images == images && this.tags == tags && this.sizeUnit == sizeUnit
      ensures ratings == [] && averageRating == 0.0 && totalReviews == 0
    {
      this.price, this.originalPrice, this.stock := price, originalPrice, stock;
      this.category, this.condition := category, condition;
      this.images, this.tags, this.sizeUnit := images, tags, sizeUnit;
      this.isActive, this.isFeatured := isActive, isFeatured;
      ratings, averageRating, totalReviews := [], 0.0, 0;
    }

    /** `calculateAverageRating()`: the mean and the count of the current
      list; nothing else changes. */
    method CalculateAverageRating()
      modifies this
      ensures averageRating == MeanRating(ratings) && totalReviews == |ratings|
      ensures ratings == old(ratings) && price == old(price) && originalPrice == old(originalPrice)
      ensures stock == old(stock) && isActive == old(isActive) && isFeatured == old(isFeatured)
      ensures category == old(category) && condition == old(condition)
      ensures images == old(images) && tags == old(tags) && sizeUnit == old(sizeUnit)
    {
      if |ratings| == 0 {
        averageRating := 0.0;
        totalReviews := 0;
      } else {
        var total := 0;
        var i := 0;
        while i < |ratings|
          invariant 0 <= i <= |ratings|
          invariant total == RatingSum(ratings[..i])
        {
          assert ratings[..i + 1][..i] == ratings[..i];
          total := total + ratings[i].rating;
          i := i + 1;
        }
        assert ratings[..|ratings|] == ratings;
        averageRating := total as real / |ratings| as real;
        totalReviews := |ratings|;
      }
    }

    /** The `discountPercentage` virtual on this document. */
    function DiscountPercentage(): (r: int)
      reads this
      ensures Valid() ==> 0 <= r <= 100
    {
      Discount(price, originalPrice)
    }
  }
}
