/**
  The product tile (client/src/components/ProductCard.tsx): the quick-add dialog's
  defaults, its add guard, its quantity stepper clamped to the stock, and the tile's
  star row.
 */
module ProductCard {
  import ProductDetail

  /** What the tile reads of a product. */
  datatype CardProduct = CardProduct(sizes: seq<string>, colors: seq<string>, stock: int)

  /** The quick-add dialog's state. */
  datatype Dialog = Dialog(open: bool, size: string, color: string, quantity: int)

  /**
    `handleQuickAddToCart`: a product with no stock leaves the dialog as it was;
    otherwise the dialog opens on the first size and colour (or none) and quantity 1.
   */
  function QuickAdd(p: CardProduct, d: Dialog): (r: Dialog)
    ensures p.stock == 0 ==> r == d
    ensures p.stock != 0 ==> r.open && r.quantity == 1
    ensures p.stock != 0 ==> r.size == ProductDetail.FirstOr(p.sizes, "") && r.color == ProductDetail.FirstOr(p.colors, "")
  {
    if p.stock == 0 then d
    else Dialog(true, ProductDetail.FirstOr(p.sizes, ""), ProductDetail.FirstOr(p.colors, ""), 1)
  }

  datatype AddOutcome = SelectBoth | Added(size: string, color: string, quantity: int)

  /** `handleAddToCart`: refused unless both a size and a colour are chosen; otherwise the dialog's line is added and it closes. */
  function Add(d: Dialog): (r: (AddOutcome, Dialog))
    ensures r.0.Added? <==> d.size != "" && d.color != ""
    ensures r.0.Added? ==> r.0 == Added(d.size, d.color, d.quantity) && r.1 == d.(open := false)
    ensures r.0.SelectBoth? ==> r.1 == d
  {
    if d.size == "" || d.color == "" then (SelectBoth, d)
    else (Added(d.size, d.color, d.quantity), d.(open := false))
  }

  /**
    A product in stock whose first size and first colour are named adds one unit of
    them straight from the quick-add dialog.
   */
  lemma QuickAddThenAdd(p: CardProduct, d: Dialog)
    requires p.stock != 0
    requires |p.sizes| > 0 && p.sizes[0] != "" && |p.colors| > 0 && p.colors[0] != ""
    ensures Add(QuickAdd(p, d)).0 == Added(p.sizes[0], p.colors[0], 1)
  {
  }

  /** The dialog's "+": `Math.min(stock, quantity + 1)`. */
  function StepUp(quantity: int, stock: int): (r: int)
    ensures r <= stock && r <= quantity + 1
    ensures r == stock || r == quantity + 1
  {
    if stock < quantity + 1 then stock else quantity + 1
  }

  /** With some stock, the dialog's quantity stays between 1 and the stock under either button. */
  lemma StepperWithinStock(quantity: int, stock: int)
    requires 1 <= quantity <= stock
    ensures 1 <= ProductDetail.StepDown(quantity) <= stock
    ensures 1 <= StepUp(quantity, stock) <= stock
    ensures quantity < stock ==> StepUp(quantity, stock) == quantity + 1
  {
  }

  /** The tile's star row: star `i` is filled when `i < floor(rating)`. */
  function CardStars(rating: real): (r: seq<bool>)
    ensures |r| == 5
    ensures forall i :: 0 <= i < 5 ==> (r[i] <==> (i + 1) as real <= rating)
  {
    seq(5, i => i < rating.Floor)
  }

  /**
    The tile shows whole stars only, so it never shows more than the product page for
    the same rating, and the two rows agree on whole ratings.
   */
  lemma CardStarsAtMostPage(rating: real)
    ensures forall i :: 0 <= i < 5 && CardStars(rating)[i] ==> ProductDetail.Stars(rating)[i]
    ensures rating == rating.Floor as real ==> CardStars(rating) == ProductDetail.Stars(rating)
  {
    var c, s := CardStars(rating), ProductDetail.Stars(rating);
    if rating == rating.Floor as real {
      assert forall i :: 0 <= i < 5 ==> c[i] == s[i];
    }
  }
}
