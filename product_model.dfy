/**
  The product document (server/src/models/Product.ts): its schema bounds, the two
  save hooks (SKU generation and the review average) and the discount-percentage
  virtual. Prices are whole rupees; the review average is a real number.
 */
module ProductModel {
  import opened Wrappers
  import opened Accounts
  import Text

  type ProductId = nat

  /** The fourteen values of the `category` enum. */
  const Categories: seq<string> := ["comic", "anime", "vintage", "retro", "gaming", "music", "sports",
                                    "art", "minimalist", "funny", "geek", "pop-culture", "custom",
                                    "limited-edition"]

  /** The values of the `sizes` enum, XS to XXXL. */
  const Sizes: seq<string> := ["XS", "S", "M", "L", "XL", "XXL", "XXXL"]

  datatype Review = Review(user: UserId, rating: int, comment: string)

  /** Sum of the review ratings, folded from the left as `reduce` does. */
  function RatingSum(reviews: seq<Review>): int
  {
    if |reviews| == 0 then 0 else RatingSum(reviews[..|reviews| - 1]) + reviews[|reviews| - 1].rating
  }

  /** The average the rating hook stores: the sum of ratings over the number of reviews. */
  function MeanRating(reviews: seq<Review>): real
    requires |reviews| > 0
  {
    RatingSum(reviews) as real / |reviews| as real
  }

  predicate RatingInRange(r: Review)
  {
    1 <= r.rating <= 5
  }

  lemma {:induction false} RatingSumBounds(reviews: seq<Review>)
    requires forall i :: 0 <= i < |reviews| ==> RatingInRange(reviews[i])
    ensures |reviews| <= RatingSum(reviews) <= 5 * |reviews|
  {
    if |reviews| > 0 {
      RatingSumBounds(reviews[..|reviews| - 1]);
    }
  }

  lemma ProductPositive(a: real, b: real)
    requires a > 0.0 && b > 0.0
    ensures a * b > 0.0
  {
  }

  /** Dividing both bounds of `n <= s <= 5n` by a positive `n`. */
  lemma QuotientBounds(s: real, n: real)
    requires n > 0.0 && n <= s <= 5.0 * n
    ensures 1.0 <= s / n <= 5.0
  {
    var q := s / n;
    assert q * n == s;
    if q > 5.0 {
      ProductPositive(q - 5.0, n);
      assert false;
    }
    if q < 1.0 {
      ProductPositive(1.0 - q, n);
      assert false;
    }
  }

  /** With every review rated 1 to 5, the average also lies in [1, 5]. */
  lemma MeanRatingBounds(reviews: seq<Review>)
    requires |reviews| > 0
    requires forall i :: 0 <= i < |reviews| ==> RatingInRange(reviews[i])
    ensures 1.0 <= MeanRating(reviews) <= 5.0
  {
    RatingSumBounds(reviews);
    QuotientBounds(RatingSum(reviews) as real, |reviews| as real);
  }

  /** JavaScript `Math.round`: the nearest integer, halves rounded up. */
  function Round(x: real): (r: int)
    ensures r as real - 0.5 <= x < r as real + 0.5
  {
    (x + 0.5).Floor
  }

  /**
    The `discountPercentage` virtual: the saving relative to the compare-at price, in
    whole percent, when a compare-at price is set (and not 0) and exceeds the price.
   */
  function DiscountPercentage(price: int, comparePrice: Option<int>): (r: int)
    ensures comparePrice.None? || comparePrice.value == 0 || comparePrice.value <= price ==> r == 0
    ensures comparePrice.Some? && comparePrice.value != 0 && comparePrice.value > price ==>
      r as real - 0.5 <= (comparePrice.value - price) as real / comparePrice.value as real * 100.0 < r as real + 0.5
  {
    match comparePrice
    case Some(cp) =>
      if cp != 0 && cp > price then Round((cp - price) as real / cp as real * 100.0) else 0
    case None => 0
  }

  /** For a valid price below the compare-at price, the discount is a percentage in [0, 100]. */
  lemma DiscountInRange(price: int, comparePrice: int)
    requires 0 <= price < comparePrice
    ensures 0 <= DiscountPercentage(price, Some(comparePrice)) <= 100
  {
    var x := (comparePrice - price) as real / comparePrice as real;
    assert 0.0 < x <= 1.0 by {
      assert x * comparePrice as real == (comparePrice - price) as real;
    }
  }

  /** A stored product, with the fields its save hooks and virtual read or write. */
  class ProductDocument {
    var name: string
    var description: string
    var price: int
    var comparePrice: Option<int>
    var category: string
    var sizes: seq<string>
    var colors: seq<string>
    var stock: int
    var isActive: bool
    var reviews: seq<Review>
    var rating: real
    var numReviews: int
    var sku: string

    /** The schema's bounds and enums. */
    ghost predicate WithinBounds()
      reads this
    {
      && |name| <= 100 && |description| <= 2000
      && price >= 0
      && (comparePrice.Some? ==> comparePrice.value >= 0)
      && category in Categories
      && (forall i :: 0 <= i < |sizes| ==> sizes[i] in Sizes)
      && stock >= 0
      && 0.0 <= rating <= 5.0
      && (forall i :: 0 <= i < |reviews| ==> RatingInRange(reviews[i]) && |reviews[i].comment| <= 500)
    }

    /** A new document with the schema defaults for what the caller leaves out. */
    constructor (name: string, description: string, price: int, category: string)
      ensures this.name == name && this.description == description
      ensures this.price == price && this.category == category
      ensures comparePrice == None && sizes == [] && colors == [] && reviews == []
      ensures stock == 0 && isActive && rating == 0.0 && numReviews == 0 && sku == ""
    {
      this.name := name;
      this.description := description;
      this.price := price;
      this.category := category;
      comparePrice := None;
      sizes, colors := [], [];
      stock := 0;
      isActive := true;
      reviews := [];
      rating, numReviews := 0.0, 0;
      sku := "";
    }

    /** First save hook: a missing SKU gets "DN-" followed by a time/random stamp. */
    method AssignSku(stamp: string)
      modifies this`sku
      ensures old(sku) != "" ==> sku == old(sku)
      ensures old(sku) == "" ==> Text.StartsWith(sku, "DN-")
    {
      if sku == "" {
        sku := "DN-" + stamp;
      }
    }

    /** Second save hook: with reviews present, store their count and their average. */
    method RecomputeRating()
      modifies this`rating, this`numReviews
      ensures |reviews| > 0 ==> numReviews == |reviews| && rating == MeanRating(reviews)
      ensures |reviews| == 0 ==> rating == old(rating) && numReviews == old(numReviews)
    {
      if |reviews| > 0 {
        var totalRating := RatingSum(reviews);
        rating := totalRating as real / |reviews| as real;
        numReviews := |reviews|;
      }
    }

    /** The two hooks in registration order, as a save runs them. */
    method Save(stamp: string)
      modifies this`sku, this`rating, this`numReviews
      ensures old(sku) != "" ==> sku == old(sku)
      ensures old(sku) == "" ==> Text.StartsWith(sku, "DN-")
      ensures |reviews| > 0 ==> numReviews == |reviews| && rating == MeanRating(reviews)
      ensures |reviews| == 0 ==> rating == old(rating) && numReviews == old(numReviews)
      ensures old(WithinBounds()) ==> WithinBounds()
    {
      AssignSku(stamp);
      RecomputeRating();
      if |reviews| > 0 && old(WithinBounds()) {
        MeanRatingBounds(reviews);
      }
    }
  }
}
