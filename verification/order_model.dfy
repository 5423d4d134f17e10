/** The order schema: status enum and default, shipping details, line items, creation defaults. */
module OrderModel {
  import opened Base

  /** The four values the `status` enum admits. */
  datatype OrderStatus = Pending | Shipping | Completed | Cancelled

  /** The schema's `enum` list, in its declared order. */
  const Labels: seq<string> := ["Chờ xử lý", "Đang giao", "Hoàn thành", "Đã huỷ"]

  /** The string each status is stored and sent as: its own entry of the enum list. */
  function Label(s: OrderStatus): (l: string)
    ensures l in Labels
    ensures s == DefaultStatus <==> l == Labels[0]
  {
    match s
    case Pending => "Chờ xử lý"
    case Shipping => "Đang giao"
    case Completed => "Hoàn thành"
    case Cancelled => "Đã huỷ"
  }

  /** A status the schema assigns when none is given. */
  const DefaultStatus: OrderStatus := Pending

  /**
   * Enum validation on save: a string is accepted exactly when it is the label
   * of one of the four statuses; any other string makes the save fail.
   */
  function ParseStatus(s: string): (r: Option<OrderStatus>)
    ensures r.Some? ==> Label(r.value) == s
    ensures r.None? ==> forall st: OrderStatus :: Label(st) != s
  {
    if s == Label(Pending) then Some(Pending)
    else if s == Label(Shipping) then Some(Shipping)
    else if s == Label(Completed) then Some(Completed)
    else if s == Label(Cancelled) then Some(Cancelled)
    else None
  }

  /** Every status survives being stored as its label and validated back. */
  lemma LabelRoundTrip(st: OrderStatus)
    ensures ParseStatus(Label(st)) == Some(st)
  {
  }

  /** Shipping details; an empty string stands for a value that was not sent. */
  datatype ShippingInfo = ShippingInfo(name: string, address: string, phone: string, note: Option<string>)

  /** `name`, `address` and `phone` are required strings (Mongoose rejects an empty one); `note` is optional. */
  predicate ShippingComplete(s: ShippingInfo) {
    s.name != "" && s.address != "" && s.phone != ""
  }

  /** A stored line item: the schema declares `_id: false` and has no discount path. */
  datatype Item = Item(name: string, size: string, quantity: int, price: real, image: Option<string>)

  /** A line item as the checkout page posts it. */
  datatype ItemInput = ItemInput(id: Id, name: string, price: real, discount: real, quantity: int, size: string)

  /** Casting a posted item into the schema keeps only the declared paths. */
  function ToItem(i: ItemInput): Item {
    Item(i.name, i.size, i.quantity, i.price, None)
  }

  function ToItems(s: seq<ItemInput>): (r: seq<Item>)
    ensures |r| == |s|
    ensures forall k :: 0 <= k < |s| ==> r[k] == ToItem(s[k])
  {
    seq(|s|, k requires 0 <= k < |s| => ToItem(s[k]))
  }

  /** An order document. `user` is a required reference, so it is never absent. */
  datatype Order = Order(id: Id, user: Id, shippingInfo: ShippingInfo, items: seq<Item>,
                         status: OrderStatus, createdAt: int)

  /** What validation demands of a stored order. */
  predicate Valid(o: Order) {
    ShippingComplete(o.shippingInfo)
  }

  /**
   * `Order.create({user, shippingInfo, items})`: the caller supplies three paths,
   * the schema fills `status` with its default and `createdAt` with the time of creation.
   */
  function NewOrder(id: Id, user: Id, shipping: ShippingInfo, items: seq<ItemInput>, now: int): (o: Order)
    ensures o.id == id && o.user == user && o.shippingInfo == shipping
    ensures o.status == DefaultStatus && o.createdAt == now
    ensures |o.items| == |items|
    ensures forall k :: 0 <= k < |items| ==>
              o.items[k].name == items[k].name && o.items[k].size == items[k].size &&
              o.items[k].quantity == items[k].quantity && o.items[k].price == items[k].price &&
              o.items[k].image.None?
    ensures Valid(o) <==> ShippingComplete(shipping)
  {
    Order(id, user, shipping, ToItems(items), Pending, now)
  }
}
