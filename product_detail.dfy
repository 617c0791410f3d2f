/**
  The product page (client/src/pages/ProductDetail.tsx): the add-to-cart guards and
  their size and colour fallbacks, the review guards, the quantity stepper, the image
  carousel's wrap-around and the star row.
 */
module ProductDetail {
  import opened Wrappers
  import Text

  /** What the page reads of the loaded product. */
  datatype ProductView = ProductView(sizes: seq<string>, colors: seq<string>, isActive: bool, stock: int)

  /** `options[0] || d`: a missing or empty first option gives the default. */
  function FirstOr(options: seq<string>, d: string): (r: string)
    ensures |options| > 0 && options[0] != "" ==> r == options[0]
    ensures |options| == 0 || options[0] == "" ==> r == d
  {
    if |options| > 0 then Text.OrElse(options[0], d) else d
  }

  datatype AddOutcome = NoProduct | SelectSize | SelectColor | AddLine(size: string, color: string, quantity: int)

  /**
    `handleAddToCart`: nothing before the product has loaded; a missing size is reported
    before a missing colour, each only when the product offers some; otherwise the line
    is added with the selection or its fallback (first option, then "M" or "Black").
   */
  function AddToCart(product: Option<ProductView>, selectedSize: string, selectedColor: string, quantity: int)
    : (r: AddOutcome)
    ensures product.None? ==> r == NoProduct
    ensures product.Some? && selectedSize == "" && |product.value.sizes| > 0 ==> r == SelectSize
    ensures (product.Some? && (selectedSize != "" || |product.value.sizes| == 0) &&
             selectedColor == "" && |product.value.colors| > 0) ==> r == SelectColor
    ensures r.AddLine? <==> product.Some? && (selectedSize != "" || |product.value.sizes| == 0) &&
                            (selectedColor != "" || |product.value.colors| == 0)
    ensures r.AddLine? ==> r.quantity == quantity && r.size != "" && r.color != ""
  {
    if product.None? then NoProduct
    else
      var p := product.value;
      if selectedSize == "" && |p.sizes| > 0 then SelectSize
      else if selectedColor == "" && |p.colors| > 0 then SelectColor
      else AddLine(Text.OrElse(selectedSize, FirstOr(p.sizes, "M")),
                   Text.OrElse(selectedColor, FirstOr(p.colors, "Black")), quantity)
  }

  /**
    The first-option fallbacks can never be taken: the guards only let an empty
    selection through when there are no options, so an added line carries the chosen
    size or "M", and the chosen colour or "Black".
   */
  lemma AddedSelection(product: Option<ProductView>, selectedSize: string, selectedColor: string, quantity: int)
    requires AddToCart(product, selectedSize, selectedColor, quantity).AddLine?
    ensures AddToCart(product, selectedSize, selectedColor, quantity).size == Text.OrElse(selectedSize, "M")
    ensures AddToCart(product, selectedSize, selectedColor, quantity).color == Text.OrElse(selectedColor, "Black")
  {
  }

  datatype ReviewOutcome = SignInFirst | EnterComment | PostReview(rating: int, comment: string)

  /**
    `handleSubmitReview`: a signed-out visitor is asked to sign in first; a comment that
    is blank once trimmed is refused; otherwise the rating and the comment as typed
    (untrimmed) are posted.
   */
  function SubmitReview(signedIn: bool, rating: int, comment: string): (r: ReviewOutcome)
    ensures !signedIn ==> r == SignInFirst
    ensures r.PostReview? <==> signedIn && Text.Trim(comment) != ""
    ensures r.PostReview? ==> r.rating == rating && r.comment == comment
  {
    if !signedIn then SignInFirst
    else if Text.Trim(comment) == "" then EnterComment
    else PostReview(rating, comment)
  }

  /** A comment made only of white space is never posted. */
  lemma BlankCommentRefused(signedIn: bool, rating: int, comment: string)
    requires forall i :: 0 <= i < |comment| ==> Text.IsTrimmable(comment[i])
    ensures !SubmitReview(signedIn, rating, comment).PostReview?
  {
  }

  /** The "-" button: `Math.max(1, quantity - 1)`. */
  function StepDown(quantity: int): (r: int)
    ensures r >= 1
    ensures quantity > 1 ==> r == quantity - 1
    ensures quantity <= 1 ==> r == 1
  {
    if quantity - 1 > 1 then quantity - 1 else 1
  }

  /** The page's "+" button: no upper bound. */
  function StepUp(quantity: int): (r: int)
    ensures r > quantity
  {
    quantity + 1
  }

  /** From any quantity of at least 1, "+" then "-" gives it back; "-" then "+" does when it is above 1. */
  lemma StepperRoundTrip(quantity: int)
    requires quantity >= 1
    ensures StepDown(StepUp(quantity)) == quantity
    ensures quantity > 1 ==> StepUp(StepDown(quantity)) == quantity
  {
  }

  /**
    The add button is disabled, and labelled "Out of Stock", for an inactive product or
    one with no stock; an active product in stock can be added.
   */
  predicate AddDisabled(p: ProductView): (r: bool)
    ensures !p.isActive || p.stock == 0 ==> r
    ensures p.isActive && p.stock > 0 ==> !r
  {
    !p.isActive || p.stock == 0
  }

  /** The lightbox's previous-image arrow, wrapping from the first image to the last. */
  function Prev(i: int, n: nat): (r: int)
    ensures 0 <= i < n ==> 0 <= r < n
    ensures i == 0 ==> r == n - 1
  {
    if i == 0 then n - 1 else i - 1
  }

  /** The lightbox's next-image arrow, wrapping from the last image to the first. */
  function Next(i: int, n: nat): (r: int)
    ensures 0 <= i < n ==> 0 <= r < n
    ensures i == n - 1 ==> r == 0
  {
    if i == n - 1 then 0 else i + 1
  }

  /** The two arrows undo each other on every valid index. */
  lemma PrevNextInverse(i: int, n: nat)
    requires 0 <= i < n
    ensures Prev(Next(i, n), n) == i
    ensures Next(Prev(i, n), n) == i
  {
  }

  /** `k` presses of the next arrow. */
  function NextTimes(i: int, n: nat, k: nat): int
  {
    if k == 0 then i else Next(NextTimes(i, n, k - 1), n)
  }

  /** Below the last image, `k` presses move `k` images on. */
  lemma {:induction false} NextTimesAdvance(i: int, n: nat, k: nat)
    requires 0 <= i && i + k < n
    ensures NextTimes(i, n, k) == i + k
  {
    if k > 0 {
      NextTimesAdvance(i, n, k - 1);
    }
  }

  lemma {:induction false} NextTimesCompose(i: int, n: nat, a: nat, b: nat)
    ensures NextTimes(i, n, a + b) == NextTimes(NextTimes(i, n, a), n, b)
  {
    if b > 0 {
      NextTimesCompose(i, n, a, b - 1);
    }
  }

  /** Pressing next once per image comes back to the image shown: the carousel is a cycle. */
  lemma NextTimesCycle(i: int, n: nat)
    requires 0 <= i < n
    ensures NextTimes(i, n, n) == i
  {
    var toLast := n - 1 - i;
    NextTimesAdvance(i, n, toLast);
    NextTimesCompose(i, n, toLast, 1);
    assert NextTimes(i, n, toLast + 1) == 0;
    NextTimesAdvance(0, n, i);
    NextTimesCompose(i, n, toLast + 1, i);
  }

  /** The star row: star `i` (from 0) is filled when `i < rating`. */
  function Stars(rating: real): (r: seq<bool>)
    ensures |r| == 5
    ensures forall i :: 0 <= i < 5 ==> (r[i] <==> (i as real) < rating)
  {
    seq(5, i => (i as real) < rating)
  }

  /** The number of filled stars. */
  function Filled(stars: seq<bool>): nat
  {
    if |stars| == 0 then 0 else Filled(stars[..|stars| - 1]) + (if stars[|stars| - 1] then 1 else 0)
  }

  /** Filled stars come first: the row is a run of filled stars followed by empty ones. */
  lemma StarsFillFromLeft(rating: real, i: int, j: int)
    requires 0 <= i <= j < 5 && Stars(rating)[j]
    ensures Stars(rating)[i]
  {
  }

  /** The least integer not below `x`. */
  function Ceil(x: real): (r: int)
    ensures x <= r as real < x + 1.0
  {
    -((-x).Floor)
  }

  /**
    The row shows the rating rounded up, between 0 and 5: a whole rating `k` fills `k`
    stars, and 3.2 fills 4.
   */
  lemma {:induction false} FilledStars(rating: real, m: nat)
    requires m <= 5
    ensures Filled(Stars(rating)[..m]) == if rating <= 0.0 then 0 else if (m as real) < rating then m else Ceil(rating)
  {
    if m > 0 {
      var s := Stars(rating);
      FilledStars(rating, m - 1);
      assert s[..m][..m - 1] == s[..m - 1];
    }
  }
}
