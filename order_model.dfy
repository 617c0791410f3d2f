/**
  The order document (server/src/models/Order.ts): its status and payment enums, the
  schema bounds, the four save hooks (order number, total, paid flag, delivered flag)
  and the `itemCount` virtual. Amounts are whole rupees; a date is a timestamp the
  caller passes in as `now`.
 */
module OrderModel {
  import opened Wrappers
  import opened Accounts
  import ProductModel
  import Text

  datatype OrderStatus = Pending | Processing | Shipped | Delivered | Cancelled | Refunded

  datatype PaymentStatus = PaymentPending | PaymentCompleted | PaymentFailed | PaymentRefunded

  /** The stored spelling of a status. */
  function StatusName(s: OrderStatus): string
  {
    match s
    case Pending => "pending"
    case Processing => "processing"
    case Shipped => "shipped"
    case Delivered => "delivered"
    case Cancelled => "cancelled"
    case Refunded => "refunded"
  }

  /** The `status` enum check: a name is accepted exactly when it spells one of the six statuses. */
  function ParseStatus(name: string): (r: Option<OrderStatus>)
    ensures r.Some? ==> StatusName(r.value) == name
    ensures r.None? ==> forall s: OrderStatus :: StatusName(s) != name
  {
    if name == "pending" then Some(Pending)
    else if name == "processing" then Some(Processing)
    else if name == "shipped" then Some(Shipped)
    else if name == "delivered" then Some(Delivered)
    else if name == "cancelled" then Some(Cancelled)
    else if name == "refunded" then Some(Refunded)
    else None
  }

  lemma ParseStatusName(s: OrderStatus)
    ensures ParseStatus(StatusName(s)) == Some(s)
  {
  }

  datatype OrderItem = OrderItem(product: ProductModel.ProductId, name: string, image: string, size: string,
                                 color: string, quantity: int, price: int)

  /** The item sub-schema bounds: quantity at least 1, price not negative, size from the enum. */
  predicate ValidItem(item: OrderItem)
  {
    item.quantity >= 1 && item.price >= 0 && item.size in ProductModel.Sizes
  }

  /** The `itemCount` virtual: the quantities summed from the left, as `reduce` does. */
  function ItemCount(items: seq<OrderItem>): int
  {
    if |items| == 0 then 0 else ItemCount(items[..|items| - 1]) + items[|items| - 1].quantity
  }

  /** Every valid item counts at least once, so `itemCount` is at least the number of lines. */
  lemma {:induction false} ItemCountAtLeastLength(items: seq<OrderItem>)
    requires forall i :: 0 <= i < |items| ==> ValidItem(items[i])
    ensures ItemCount(items) >= |items|
  {
    if |items| > 0 {
      ItemCountAtLeastLength(items[..|items| - 1]);
    }
  }

  /** The order fields the save hooks read or write. */
  datatype HookFields = HookFields(orderNumber: string, subtotal: int, tax: int, shippingCost: int, total: int,
                                   paymentStatus: PaymentStatus, status: OrderStatus,
                                   isPaid: bool, paidAt: Option<nat>, isDelivered: bool, deliveredAt: Option<nat>)

  /**
    The four save hooks in registration order. A set order number is kept and a missing
    one gets a "DN-" value; the total is recomputed; the paid and delivered flags are set
    once (with the current time) and never cleared; nothing else changes.
   */
  function AfterSave(f: HookFields, now: nat, stamp: string): (r: HookFields)
    ensures f.orderNumber != "" ==> r.orderNumber == f.orderNumber
    ensures f.orderNumber == "" ==> Text.StartsWith(r.orderNumber, "DN-")
    ensures r.total == f.subtotal + f.tax + f.shippingCost
    ensures f.subtotal >= 0 && f.tax >= 0 && f.shippingCost >= 0 ==> r.total >= f.subtotal >= 0
    ensures r.isPaid <==> f.isPaid || f.paymentStatus == PaymentCompleted
    ensures r.isPaid == f.isPaid ==> r.paidAt == f.paidAt
    ensures r.isPaid != f.isPaid ==> r.paidAt == Some(now)
    ensures r.isDelivered <==> f.isDelivered || f.status == Delivered
    ensures r.isDelivered == f.isDelivered ==> r.deliveredAt == f.deliveredAt
    ensures r.isDelivered != f.isDelivered ==> r.deliveredAt == Some(now)
    ensures r.subtotal == f.subtotal && r.tax == f.tax && r.shippingCost == f.shippingCost
    ensures r.paymentStatus == f.paymentStatus && r.status == f.status
  {
    var numbered := if f.orderNumber == "" then f.(orderNumber := "DN-" + stamp) else f;
    var totalled := numbered.(total := f.subtotal + f.tax + f.shippingCost);
    var paid := if totalled.paymentStatus == PaymentCompleted && !totalled.isPaid
                then totalled.(isPaid := true, paidAt := Some(now)) else totalled;
    if paid.status == Delivered && !paid.isDelivered then paid.(isDelivered := true, deliveredAt := Some(now)) else paid
  }

  /** A second save changes nothing the first one set, whatever its time and stamp. */
  lemma SaveStable(f: HookFields, now: nat, stamp: string, later: nat, stamp2: string)
    ensures AfterSave(AfterSave(f, now, stamp), later, stamp2) == AfterSave(f, now, stamp)
  {
  }

  /** A stored order; the addresses and the payment method's type and id are not modelled. */
  class Order {
    var user: UserId
    var orderNumber: string
    var items: seq<OrderItem>
    var paymentStatus: PaymentStatus
    var subtotal: int
    var tax: int
    var shippingCost: int
    var total: int
    var status: OrderStatus
    var trackingNumber: Option<string>
    var estimatedDelivery: Option<nat>
    var notes: Option<string>
    var isPaid: bool
    var paidAt: Option<nat>
    var isDelivered: bool
    var deliveredAt: Option<nat>

    function Hooked(): HookFields
      reads this
    {
      HookFields(orderNumber, subtotal, tax, shippingCost, total, paymentStatus, status,
                 isPaid, paidAt, isDelivered, deliveredAt)
    }

    /** The schema bounds on what the caller supplies. */
    ghost predicate InputsWithinBounds()
      reads this
    {
      && (forall i :: 0 <= i < |items| ==> ValidItem(items[i]))
      && subtotal >= 0 && tax >= 0 && shippingCost >= 0
      && (notes.Some? ==> |notes.value| <= 500)
    }

    /** All schema bounds, including the one on the computed total. */
    ghost predicate WithinBounds()
      reads this
    {
      InputsWithinBounds() && total >= 0
    }

    /**
      A new document before its first save, with the schema defaults: status and payment
      status pending, tax and shipping 0 when not given, not paid, not delivered. The
      order number and the total are set by the save hooks.
     */
    constructor (user: UserId, items: seq<OrderItem>, paymentStatus: Option<PaymentStatus>,
                 subtotal: int, tax: Option<int>, shippingCost: Option<int>)
      ensures this.user == user && this.items == items
      ensures this.paymentStatus == paymentStatus.GetOr(PaymentPending)
      ensures this.subtotal == subtotal && this.tax == tax.GetOr(0) && this.shippingCost == shippingCost.GetOr(0)
      ensures orderNumber == "" && status == Pending
      ensures trackingNumber == None && estimatedDelivery == None && notes == None
      ensures !isPaid && paidAt == None && !isDelivered && deliveredAt == None
    {
      this.user := user;
      this.items := items;
      this.paymentStatus := paymentStatus.GetOr(PaymentPending);
      this.subtotal := subtotal;
      this.tax := tax.GetOr(0);
      this.shippingCost := shippingCost.GetOr(0);
      orderNumber := "";
      total := 0;
      status := Pending;
      trackingNumber, estimatedDelivery, notes := None, None, None;
      isPaid, paidAt := false, None;
      isDelivered, deliveredAt := false, None;
    }

    /** First hook: a missing order number gets "DN-" followed by a time/random stamp. */
    method AssignOrderNumber(stamp: string)
      modifies this`orderNumber
      ensures old(orderNumber) != "" ==> orderNumber == old(orderNumber)
      ensures old(orderNumber) == "" ==> orderNumber == "DN-" + stamp
    {
      if orderNumber == "" {
        orderNumber := "DN-" + stamp;
      }
    }

    /** Second hook: the total is recomputed from its parts on every save. */
    method ComputeTotal()
      modifies this`total
      ensures total == subtotal + tax + shippingCost
    {
      total := subtotal + tax + shippingCost;
    }

    /** Third hook: a completed payment marks an unpaid order paid, at `now`. */
    method RecordPayment(now: nat)
      modifies this`isPaid, this`paidAt
      ensures paymentStatus == PaymentCompleted && !old(isPaid) ==> isPaid && paidAt == Some(now)
      ensures !(paymentStatus == PaymentCompleted && !old(isPaid)) ==> isPaid == old(isPaid) && paidAt == old(paidAt)
    {
      if paymentStatus == PaymentCompleted && !isPaid {
        isPaid := true;
        paidAt := Some(now);
      }
    }

    /** Fourth hook: the delivered status marks an undelivered order delivered, at `now`. */
    method RecordDelivery(now: nat)
      modifies this`isDelivered, this`deliveredAt
      ensures status == Delivered && !old(isDelivered) ==> isDelivered && deliveredAt == Some(now)
      ensures !(status == Delivered && !old(isDelivered)) ==> isDelivered == old(isDelivered) && deliveredAt == old(deliveredAt)
    {
      if status == Delivered && !isDelivered {
        isDelivered := true;
        deliveredAt := Some(now);
      }
    }

    /** A save: the four hooks in order. Valid inputs give a document within every bound. */
    method Save(now: nat, stamp: string)
      modifies this`orderNumber, this`total, this`isPaid, this`paidAt, this`isDelivered, this`deliveredAt
      ensures Hooked() == AfterSave(old(Hooked()), now, stamp)
      ensures old(InputsWithinBounds()) ==> WithinBounds()
      ensures old(isDelivered) ==> isDelivered
      ensures old(isPaid) ==> isPaid
    {
      AssignOrderNumber(stamp);
      ComputeTotal();
      RecordPayment(now);
      RecordDelivery(now);
    }

    /**
      The field assignments of the admin status update: the status is set whatever it was
      before; tracking number, estimated delivery and notes change only when supplied (an
      empty string is falsy).
     */
    method SetStatusFields(s: OrderStatus, trackingNumber: string, estimatedDelivery: Option<nat>, notes: string)
      modifies this`status, this`trackingNumber, this`estimatedDelivery, this`notes
      ensures status == s
      ensures this.trackingNumber == if trackingNumber != "" then Some(trackingNumber) else old(this.trackingNumber)
      ensures this.estimatedDelivery == if estimatedDelivery.Some? then estimatedDelivery else old(this.estimatedDelivery)
      ensures this.notes == if notes != "" then Some(notes) else old(this.notes)
    {
      status := s;
      if trackingNumber != "" {
        this.trackingNumber := Some(trackingNumber);
      }
      if estimatedDelivery.Some? {
        this.estimatedDelivery := estimatedDelivery;
      }
      if notes != "" {
        this.notes := Some(notes);
      }
    }

    /** The admin status update: the field assignments, then a save. */
    method ApplyStatusUpdate(s: OrderStatus, trackingNumber: string, estimatedDelivery: Option<nat>,
                             notes: string, now: nat, stamp: string)
      modifies this`status, this`trackingNumber, this`estimatedDelivery, this`notes
      modifies this`orderNumber, this`total, this`isPaid, this`paidAt, this`isDelivered, this`deliveredAt
      ensures status == s
      ensures Hooked() == AfterSave(old(Hooked()).(status := s), now, stamp)
      ensures this.trackingNumber == if trackingNumber != "" then Some(trackingNumber) else old(this.trackingNumber)
      ensures this.estimatedDelivery == if estimatedDelivery.Some? then estimatedDelivery else old(this.estimatedDelivery)
      ensures this.notes == if notes != "" then Some(notes) else old(this.notes)
    {
      SetStatusFields(s, trackingNumber, estimatedDelivery, notes);
      Save(now, stamp);
    }
  }
}
