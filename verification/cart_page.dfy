/**
 * The cart page: the money columns and the total, the buttons that change a
 * line, and the choice between the empty notice and the table.
 */
module CartPage {
  import opened Base
  import opened App

  /** The unit price after the percentage discount. */
  function UnitPrice(item: CartItem): real {
    item.product.price * (1.0 - item.product.discount / 100.0)
  }

  /** The amount of one line: discounted unit price times quantity. */
  function LineTotal(item: CartItem): real {
    UnitPrice(item) * item.quantity as real
  }

  /** A line whose price and quantity are non-negative and whose discount is at most 100 percent. */
  predicate PricedLine(item: CartItem) {
    item.product.price >= 0.0 && item.product.discount <= 100.0 && item.quantity >= 0
  }

  /**
   * The page total, accumulated left to right as the page's reduce does; never
   * negative while every line is priced sensibly.
   */
  function Total(cart: seq<CartItem>): (t: real)
    ensures (forall i :: 0 <= i < |cart| ==> PricedLine(cart[i])) ==> t >= 0.0
  {
    if cart == [] then 0.0
    else
      var item := cart[|cart| - 1];
      var unit := item.product.price * (1.0 - item.product.discount / 100.0);
      assert PricedLine(item) ==> unit >= 0.0 && unit * item.quantity as real >= 0.0;
      Total(cart[..|cart| - 1]) + item.product.price * (1.0 - item.product.discount / 100.0) * item.quantity as real
  }

  /** The sum of the line amounts, first line first. */
  function SumOfLines(cart: seq<CartItem>): real {
    if cart == [] then 0.0 else LineTotal(cart[0]) + SumOfLines(cart[1..])
  }

  lemma {:induction false} SumOfLinesSnoc(cart: seq<CartItem>, item: CartItem)
    ensures SumOfLines(cart + [item]) == SumOfLines(cart) + LineTotal(item)
    decreases |cart|
  {
    if cart == [] {
      assert [] + [item] == [item];
    } else {
      SumOfLinesSnoc(cart[1..], item);
      assert (cart + [item])[1..] == cart[1..] + [item];
    }
  }

  /**
   * The total under the table equals the sum of the line amounts shown in
   * the last money column; the checkout summary uses the same expressions.
   */
  lemma {:induction false} TotalIsSumOfLines(cart: seq<CartItem>)
    ensures Total(cart) == SumOfLines(cart)
    decreases |cart|
  {
    if cart != [] {
      var n := |cart| - 1;
      assert Total(cart) == Total(cart[..n]) + LineTotal(cart[n]);
      TotalIsSumOfLines(cart[..n]);
      SumOfLinesSnoc(cart[..n], cart[n]);
      assert cart[..n] + [cart[n]] == cart;
    }
  }

  /** The total of two carts put together is the sum of their totals. */
  lemma {:induction false} TotalAppend(a: seq<CartItem>, b: seq<CartItem>)
    ensures Total(a + b) == Total(a) + Total(b)
  {
    TotalIsSumOfLines(a + b);
    TotalIsSumOfLines(a);
    TotalIsSumOfLines(b);
    SumOfLinesAppend(a, b);
  }

  lemma {:induction false} SumOfLinesAppend(a: seq<CartItem>, b: seq<CartItem>)
    ensures SumOfLines(a + b) == SumOfLines(a) + SumOfLines(b)
    decreases |a|
  {
    if a == [] {
      assert a + b == b;
    } else {
      SumOfLinesAppend(a[1..], b);
      assert (a + b)[1..] == a[1..] + b;
    }
  }

  /** Without a discount a line costs price times quantity. */
  lemma UndiscountedLine(item: CartItem)
    requires item.product.discount == 0.0
    ensures LineTotal(item) == item.product.price * item.quantity as real
  {
  }

  /** What the page asks the application shell to do with the cart. */
  datatype CartAction = UpdateQty(id: Id, amount: int) | Remove(id: Id)

  /** The minus button of a line. */
  function Decrease(item: CartItem): CartAction { UpdateQty(item.product.id, -1) }

  /** The plus button of a line. */
  function Increase(item: CartItem): CartAction { UpdateQty(item.product.id, 1) }

  /** The bin button of a line. */
  function Delete(item: CartItem): CartAction { Remove(item.product.id) }

  /** The shell's handlers wired to the page's callbacks. */
  function Dispatch(cart: seq<CartItem>, action: CartAction): seq<CartItem> {
    match action
    case UpdateQty(id, amount) => UpdateQuantity(cart, id, amount)
    case Remove(id) => RemoveFromCart(cart, id)
  }

  /** Plus adds one unit to that line and leaves every other line as it was. */
  lemma IncreaseAddsOne(cart: seq<CartItem>, i: int)
    requires UniqueIds(cart) && 0 <= i < |cart| && cart[i].quantity >= 1
    ensures var r := Dispatch(cart, Increase(cart[i]));
      && |r| == |cart|
      && r[i] == cart[i].(quantity := cart[i].quantity + 1)
      && (forall j :: 0 <= j < |cart| && j != i ==> r[j] == cart[j])
  {
  }

  /** Minus on a line with one unit leaves it at one unit. */
  lemma DecreaseStopsAtOne(cart: seq<CartItem>, i: int)
    requires 0 <= i < |cart| && cart[i].quantity <= 1
    ensures Dispatch(cart, Decrease(cart[i]))[i].quantity == 1
  {
  }

  /**
   * The bin button removes that product and keeps every line of other
   * products; in a cart free of duplicates it takes out exactly that line and
   * keeps the others in order.
   */
  lemma DeleteRemovesProduct(cart: seq<CartItem>, i: int)
    requires 0 <= i < |cart|
    ensures !InCart(Dispatch(cart, Delete(cart[i])), cart[i].product.id)
    ensures forall j :: 0 <= j < |cart| && cart[j].product.id != cart[i].product.id ==>
      cart[j] in Dispatch(cart, Delete(cart[i]))
    ensures UniqueIds(cart) ==> Dispatch(cart, Delete(cart[i])) == cart[..i] + cart[i + 1..]
  {
    if UniqueIds(cart) {
      RemoveOneLine(cart, i);
    }
  }

  /** What the page shows. */
  datatype CartView = EmptyNotice | Table(rows: seq<CartItem>, total: real)

  function View(cart: seq<CartItem>): (v: CartView)
    ensures v.EmptyNotice? <==> |cart| == 0
    ensures v.Table? ==> v.rows == cart && v.total == SumOfLines(cart)
  {
    TotalIsSumOfLines(cart);
    if |cart| == 0 then EmptyNotice else Table(cart, Total(cart))
  }
}
