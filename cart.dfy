/**
  The shopping cart kept by the client (client/src/contexts/CartContext.tsx): an
  ordered list of lines, one per (product id, size, colour), with quantity updates,
  removal by position, clearing, and totals computed as left folds over the lines.
 */
module CartStore {

  type ProductId = nat

  /** The part of a catalogue product the cart keeps: its id, its name and its current price. */
  datatype CartProduct = CartProduct(id: ProductId, name: string, price: int)

  /** A cart line; `price` is the product's price when the line was created. */
  datatype Line = Line(product: CartProduct, size: string, color: string, quantity: int, price: int)

  /** The merge key of `addToCart`: product id, size and colour. */
  predicate HasKey(l: Line, id: ProductId, size: string, color: string)
  {
    l.product.id == id && l.size == size && l.color == color
  }

  /** No two lines share a merge key. */
  ghost predicate KeysUnique(items: seq<Line>)
  {
    forall i, j :: 0 <= i < j < |items| ==>
      !HasKey(items[j], items[i].product.id, items[i].size, items[i].color)
  }

  /** `findIndex` on the merge key: the first matching position, or -1. */
  function FindLine(items: seq<Line>, id: ProductId, size: string, color: string): (r: int)
    ensures -1 <= r < |items|
    ensures r >= 0 ==> HasKey(items[r], id, size, color)
    ensures r >= 0 ==> forall j :: 0 <= j < r ==> !HasKey(items[j], id, size, color)
    ensures r == -1 ==> forall j :: 0 <= j < |items| ==> !HasKey(items[j], id, size, color)
  {
    if |items| == 0 then -1
    else if HasKey(items[0], id, size, color) then 0
    else
      var k := FindLine(items[1..], id, size, color);
      if k == -1 then -1 else k + 1
  }

  /** The lines after `addToCart(product, size, color, quantity)`. */
  function AddLine(items: seq<Line>, product: CartProduct, size: string, color: string, quantity: int): seq<Line>
  {
    var k := FindLine(items, product.id, size, color);
    if k >= 0 then items[k := items[k].(quantity := items[k].quantity + quantity)]
    else items + [Line(product, size, color, quantity, product.price)]
  }

  /** The lines after `removeFromCart(index)`: every line except the one at `index`, in order. */
  function RemoveLine(items: seq<Line>, index: nat): seq<Line>
    requires index < |items|
  {
    items[..index] + items[index + 1..]
  }

  /** Left fold of `f` over the lines, as `Array.prototype.reduce` with initial value 0. */
  function Fold(items: seq<Line>, f: Line -> int): int
  {
    if |items| == 0 then 0 else Fold(items[..|items| - 1], f) + f(items[|items| - 1])
  }

  function LineQuantity(l: Line): int { l.quantity }

  function LineAmount(l: Line): int { l.price * l.quantity }

  lemma {:induction false} FoldAppend(a: seq<Line>, b: seq<Line>, f: Line -> int)
    ensures Fold(a + b, f) == Fold(a, f) + Fold(b, f)
    decreases |b|
  {
    if |b| == 0 {
      assert a + b == a;
    } else {
      assert (a + b)[..|a + b| - 1] == a + b[..|b| - 1];
      FoldAppend(a, b[..|b| - 1], f);
    }
  }

  /** Splitting the fold around position `i`. */
  lemma FoldAround(items: seq<Line>, i: nat, f: Line -> int)
    requires i < |items|
    ensures Fold(items, f) == Fold(items[..i], f) + f(items[i]) + Fold(items[i + 1..], f)
  {
    assert items == items[..i] + [items[i]] + items[i + 1..];
    FoldAppend(items[..i] + [items[i]], items[i + 1..], f);
    FoldAppend(items[..i], [items[i]], f);
    assert Fold([items[i]], f) == f(items[i]) by {
      assert [items[i]][..0] == [];
    }
  }

  /** Replacing one line changes a fold by exactly the difference at that line. */
  lemma FoldUpdate(items: seq<Line>, i: nat, x: Line, f: Line -> int)
    requires i < |items|
    ensures Fold(items[i := x], f) == Fold(items, f) - f(items[i]) + f(x)
  {
    var u := items[i := x];
    FoldAround(items, i, f);
    FoldAround(u, i, f);
    assert u[..i] == items[..i] && u[i + 1..] == items[i + 1..];
  }

  /** Adding an existing key bumps that line's quantity and keeps the number of lines. */
  lemma AddExisting(items: seq<Line>, product: CartProduct, size: string, color: string, quantity: int)
    requires FindLine(items, product.id, size, color) >= 0
    ensures var k := FindLine(items, product.id, size, color);
      var r := AddLine(items, product, size, color, quantity);
      |r| == |items| && r[k].quantity == items[k].quantity + quantity &&
      r[k].price == items[k].price &&
      forall j :: 0 <= j < |items| && j != k ==> r[j] == items[j]
  {
  }

  /** Adding a new key appends one line priced at the product's price; earlier lines stay. */
  lemma AddNew(items: seq<Line>, product: CartProduct, size: string, color: string, quantity: int)
    requires forall j :: 0 <= j < |items| ==> !HasKey(items[j], product.id, size, color)
    ensures var r := AddLine(items, product, size, color, quantity);
      |r| == |items| + 1 && r[..|items|] == items &&
      r[|items|] == Line(product, size, color, quantity, product.price)
  {
    assert FindLine(items, product.id, size, color) == -1;
  }

  /** `addToCart` keeps the merge keys unique. */
  lemma AddKeepsKeysUnique(items: seq<Line>, product: CartProduct, size: string, color: string, quantity: int)
    requires KeysUnique(items)
    ensures KeysUnique(AddLine(items, product, size, color, quantity))
  {
    var r := AddLine(items, product, size, color, quantity);
    var k := FindLine(items, product.id, size, color);
    if k < 0 {
      forall i, j | 0 <= i < j < |r|
        ensures !HasKey(r[j], r[i].product.id, r[i].size, r[i].color)
      {
        if j == |items| {
          assert !HasKey(items[i], product.id, size, color);
        }
      }
    }
  }

  /** `addToCart` raises the item count by exactly `quantity`. */
  lemma AddItemCount(items: seq<Line>, product: CartProduct, size: string, color: string, quantity: int)
    ensures Fold(AddLine(items, product, size, color, quantity), LineQuantity) == Fold(items, LineQuantity) + quantity
  {
    var k := FindLine(items, product.id, size, color);
    if k >= 0 {
      FoldUpdate(items, k, items[k].(quantity := items[k].quantity + quantity), LineQuantity);
    } else {
      var x := Line(product, size, color, quantity, product.price);
      FoldAppend(items, [x], LineQuantity);
      assert [x][..0] == [];
    }
  }

  lemma MulAddRight(p: int, q: int, d: int)
    ensures p * (q + d) == p * q + p * d
  {
  }

  /** `addToCart` raises the subtotal by the merged line's own price (or the product's, for a new line) times `quantity`. */
  lemma AddSubtotal(items: seq<Line>, product: CartProduct, size: string, color: string, quantity: int)
    ensures var k := FindLine(items, product.id, size, color);
      Fold(AddLine(items, product, size, color, quantity), LineAmount) ==
      Fold(items, LineAmount) + (if k >= 0 then items[k].price else product.price) * quantity
  {
    var k := FindLine(items, product.id, size, color);
    if k >= 0 {
      var line := items[k];
      var x := line.(quantity := line.quantity + quantity);
      FoldUpdate(items, k, x, LineAmount);
      MulAddRight(line.price, line.quantity, quantity);
      assert LineAmount(x) == LineAmount(line) + line.price * quantity;
    } else {
      var x := Line(product, size, color, quantity, product.price);
      FoldAppend(items, [x], LineAmount);
      assert [x][..0] == [];
    }
  }

  /** Removing a line drops exactly its contribution from both totals and keeps keys unique. */
  lemma RemoveTotals(items: seq<Line>, index: nat)
    requires index < |items|
    ensures Fold(RemoveLine(items, index), LineQuantity) == Fold(items, LineQuantity) - items[index].quantity
    ensures Fold(RemoveLine(items, index), LineAmount) == Fold(items, LineAmount) - items[index].price * items[index].quantity
  {
    FoldAround(items, index, LineQuantity);
    FoldAround(items, index, LineAmount);
    FoldAppend(items[..index], items[index + 1..], LineQuantity);
    FoldAppend(items[..index], items[index + 1..], LineAmount);
  }

  lemma RemoveKeepsKeysUnique(items: seq<Line>, index: nat)
    requires index < |items| && KeysUnique(items)
    ensures KeysUnique(RemoveLine(items, index))
  {
    var r := RemoveLine(items, index);
    forall i, j | 0 <= i < j < |r|
      ensures !HasKey(r[j], r[i].product.id, r[i].size, r[i].color)
    {
      var i' := if i < index then i else i + 1;
      var j' := if j < index then j else j + 1;
      assert r[i] == items[i'] && r[j] == items[j'];
    }
  }

  /** The cart state held by the provider: the list of lines. */
  class Cart {
    var items: seq<Line>

    ghost predicate Valid()
      reads this
    {
      KeysUnique(items)
    }

    constructor ()
      ensures Valid() && items == []
    {
      items := [];
    }

    /** Merges onto the line with the same key, or appends a new one. */
    method AddToCart(product: CartProduct, size: string, color: string, quantity: int)
      requires Valid()
      modifies this
      ensures Valid()
      ensures items == AddLine(old(items), product, size, color, quantity)
    {
      AddKeepsKeysUnique(items, product, size, color, quantity);
      var existingIndex := FindLine(items, product.id, size, color);
      if existingIndex >= 0 {
        var line := items[existingIndex];
        items := items[existingIndex := line.(quantity := line.quantity + quantity)];
      } else {
        items := items + [Line(product, size, color, quantity, product.price)];
      }
    }

    /** Drops the line at `index`; the source reads that line first, so the index must exist. */
    method RemoveFromCart(index: nat)
      requires Valid() && index < |items|
      modifies this
      ensures Valid()
      ensures items == RemoveLine(old(items), index)
      ensures |items| == |old(items)| - 1
    {
      RemoveKeepsKeysUnique(items, index);
      items := items[..index] + items[index + 1..];
    }

    /** A non-positive quantity removes the line; otherwise only that line's quantity changes. */
    method UpdateQuantity(index: nat, quantity: int)
      requires Valid() && index < |items|
      modifies this
      ensures Valid()
      ensures quantity <= 0 ==> items == RemoveLine(old(items), index)
      ensures quantity > 0 ==> items == old(items)[index := old(items)[index].(quantity := quantity)]
    {
      if quantity <= 0 {
        RemoveFromCart(index);
        return;
      }
      items := items[index := items[index].(quantity := quantity)];
    }

    method ClearCart()
      modifies this
      ensures Valid() && items == []
    {
      items := [];
    }

    /** Sum of the line quantities. */
    function GetTotalItems(): (r: int)
      reads this
      ensures r == Fold(items, LineQuantity)
    {
      Fold(items, LineQuantity)
    }

    /** Sum of price times quantity over the lines. */
    function GetSubtotal(): (r: int)
      reads this
      ensures r == Fold(items, LineAmount)
    {
      Fold(items, LineAmount)
    }

    /** Tax and shipping are added elsewhere, so the total is the subtotal. */
    function GetTotal(): (r: int)
      reads this
      ensures r == GetSubtotal()
    {
      GetSubtotal()
    }
  }

  /** With non-negative quantities and prices, both totals are non-negative. */
  lemma {:induction false} TotalsNonNegative(items: seq<Line>)
    requires forall j :: 0 <= j < |items| ==> items[j].quantity >= 0 && items[j].price >= 0
    ensures Fold(items, LineQuantity) >= 0 && Fold(items, LineAmount) >= 0
  {
    if |items| > 0 {
      TotalsNonNegative(items[..|items| - 1]);
      var last := items[|items| - 1];
      assert last.price * last.quantity >= 0;
    }
  }
}
