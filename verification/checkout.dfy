/**
 * The checkout page: the shipping form, the size check before submission,
 * the order request it sends and what it does with the answer.
 */
module Checkout {
  import opened Base
  import opened OrderModel
  import opened App

  const MissingSizeMessage := "Vui lòng chọn kích thước cho tất cả sản phẩm trong giỏ hàng!"
  const OrderFailedMessage := "Đặt hàng thất bại"

  /** Some line of the cart has no size chosen. */
  predicate HasMissingSize(cart: seq<CartItem>) {
    exists i :: 0 <= i < |cart| && cart[i].selectedSize == ""
  }

  /** The items of the order request: one per cart line, with the chosen size as the size. */
  function OrderItems(cart: seq<CartItem>): (r: seq<ItemInput>)
    ensures |r| == |cart|
    ensures forall i :: 0 <= i < |cart| ==>
      && r[i].id == cart[i].product.id
      && r[i].name == cart[i].product.name
      && r[i].price == cart[i].product.price
      && r[i].discount == cart[i].product.discount
      && r[i].quantity == cart[i].quantity
      && r[i].size == cart[i].selectedSize
  {
    seq(|cart|, i requires 0 <= i < |cart| =>
      var item := cart[i];
      ItemInput(item.product.id, item.product.name, item.product.price, item.product.discount, item.quantity, item.selectedSize))
  }

  /**
   * An order stored from a checkout request keeps, line by line, the name, the
   * chosen size, the quantity and the undiscounted unit price of the cart, in
   * cart order; the discount and product id are not kept.
   */
  lemma StoredOrderFollowsCart(id: Id, user: Id, shipping: ShippingInfo, cart: seq<CartItem>, now: int)
    ensures var o := NewOrder(id, user, shipping, OrderItems(cart), now);
      && |o.items| == |cart|
      && forall i :: 0 <= i < |cart| ==>
           o.items[i] == Item(cart[i].product.name, cart[i].selectedSize, cart[i].quantity, cart[i].product.price, None)
  {
  }

  /** The answer to the POST: success, or a failure that may carry the server's message. */
  datatype PostResult = Posted | Rejected(message: Option<string>)

  /** The body of the POST to /api/orders. */
  datatype OrderRequest = OrderRequest(shippingInfo: ShippingInfo, items: seq<ItemInput>)

  /** The four inputs of the shipping form. */
  datatype Field = Name | Address | Phone | Note

  function WithField(form: ShippingInfo, field: Field, value: string): ShippingInfo {
    match field
    case Name => form.(name := value)
    case Address => form.(address := value)
    case Phone => form.(phone := value)
    case Note => form.(note := Some(value))
  }

  /** The state of the page, together with the cart it shows and may empty. */
  class Page {
    var cartItems: seq<CartItem>
    var form: ShippingInfo
    var error: string
    var loading: bool
    var success: bool

    /** A fresh page shows an empty form and no error. */
    constructor (cart: seq<CartItem>)
      ensures cartItems == cart && form == ShippingInfo("", "", "", Some(""))
      ensures error == "" && !loading && !success
    {
      cartItems := cart;
      form := ShippingInfo("", "", "", Some(""));
      error := "";
      loading := false;
      success := false;
    }

    /** `handleChange`: one input changes, the rest of the form stays. */
    method Change(field: Field, value: string)
      modifies this
      ensures form == WithField(old(form), field, value)
      ensures cartItems == old(cartItems) && error == old(error)
      ensures loading == old(loading) && success == old(success)
    {
      form := WithField(form, field, value);
    }

    /**
     * `handleSubmit`: refuses a cart with a line lacking a size; otherwise sends
     * the form and the cart's items, and on success marks the page done and
     * empties the cart, on failure shows the server's message or the default.
     */
    method Submit(post: PostResult) returns (sent: Option<OrderRequest>)
      modifies this
      ensures !loading && form == old(form)
      ensures HasMissingSize(old(cartItems)) ==>
        && sent.None? && error == MissingSizeMessage
        && cartItems == old(cartItems) && success == old(success)
      ensures !HasMissingSize(old(cartItems)) ==>
        sent == Some(OrderRequest(old(form), OrderItems(old(cartItems))))
      ensures !HasMissingSize(old(cartItems)) && post.Posted? ==>
        success && cartItems == [] && error == ""
      ensures !HasMissingSize(old(cartItems)) && post.Rejected? ==>
        && error == MessageOr(post.message, OrderFailedMessage)
        && cartItems == old(cartItems) && success == old(success)
    {
      error := "";
      loading := true;
      if HasMissingSize(cartItems) {
        error := MissingSizeMessage;
        loading := false;
        return None;
      }
      var items := OrderItems(cartItems);
      sent := Some(OrderRequest(form, items));
      match post {
        case Posted =>
          success := true;
          cartItems := [];
        case Rejected(message) =>
          error := MessageOr(message, OrderFailedMessage);
      }
      loading := false;
    }
  }

  /**
   * A cart passes the size check exactly when every item of its request
   * carries a size; in particular an empty cart passes it.
   */
  lemma SizeCheckMeansSizedItems(cart: seq<CartItem>)
    ensures !HasMissingSize(cart) <==> forall i :: 0 <= i < |OrderItems(cart)| ==> OrderItems(cart)[i].size != ""
    ensures !HasMissingSize([])
  {
    var items := OrderItems(cart);
    if HasMissingSize(cart) {
      var i :| 0 <= i < |cart| && cart[i].selectedSize == "";
      assert items[i].size == "";
    }
  }
}
