/**
 * The customer's order list: the columns computed from each order, the status
 * chip, the cancel button and the removal of a cancelled order from the list.
 */
module MyOrders {
  import opened Base
  import OrderModel

  const LoadFailedMessage := "Lỗi tải đơn hàng"
  const UnknownStatusLabel := "Đang xử lý"
  const MissingSizeLabel := "Chưa chọn"

  /** An order line as the page reads it; the page expects a discount percentage on it. */
  datatype RowItem = RowItem(name: string, size: string, quantity: int, price: real, discount: real)

  /** An order as the page reads it from GET /api/orders/my-orders. */
  datatype OrderRow = OrderRow(id: Id, status: string, items: seq<RowItem>)

  /** The chip colour for a status; the page knows five status words. */
  function StatusColor(status: string): (c: string)
    ensures c == "default" <==> status !in {"pending", "processing", "shipped", "delivered", "cancelled"}
    ensures status == "pending" ==> c == "warning"
    ensures status == "processing" ==> c == "info"
    ensures status == "shipped" ==> c == "primary"
    ensures status == "delivered" ==> c == "success"
    ensures status == "cancelled" ==> c == "error"
  {
    if status == "pending" then "warning"
    else if status == "processing" then "info"
    else if status == "shipped" then "primary"
    else if status == "delivered" then "success"
    else if status == "cancelled" then "error"
    else "default"
  }

  /** The cancel button is shown for pending and processing orders, and for no other status. */
  function CanCancel(status: string): (shown: bool)
    ensures shown <==> status == "pending" || status == "processing"
  {
    status in ["pending", "processing"]
  }

  /** The cancel button appears exactly for the two statuses coloured warning and info. */
  lemma CancelButtonStatuses(status: string)
    ensures CanCancel(status) <==> StatusColor(status) in {"warning", "info"}
  {
  }

  /**
   * Every status the order schema can store has the default colour and no
   * cancel button: the page's status words are not the stored labels.
   */
  lemma StoredStatusesUncoloured(st: OrderModel.OrderStatus)
    ensures StatusColor(OrderModel.Label(st)) == "default"
    ensures !CanCancel(OrderModel.Label(st))
  {
  }

  /** The chip text: the status, or "Đang xử lý" when there is none. */
  function ChipLabel(status: string): (l: string)
    ensures l != ""
    ensures status != "" ==> l == status
    ensures status == "" ==> l == UnknownStatusLabel
  {
    if status == "" then UnknownStatusLabel else status
  }

  /** The size shown for an order line, or "Chưa chọn" when it has none. */
  function SizeLabel(size: string): (l: string)
    ensures l != ""
    ensures size != "" ==> l == size
    ensures size == "" ==> l == MissingSizeLabel
  {
    if size == "" then MissingSizeLabel else size
  }

  /** `slice(-6)`: the last six characters of the id, or all of a shorter id. */
  function ShortId(id: string): (r: string)
    ensures |r| == if |id| < 6 then |id| else 6
    ensures id == id[..|id| - |r|] + r
  {
    if |id| >= 6 then id[|id| - 6..] else id
  }

  /**
   * The quantity column: the quantities of the lines, added left to right;
   * with every line holding at least one unit it is at least the number of lines.
   */
  function QuantityColumn(items: seq<RowItem>): (q: int)
    ensures (forall i :: 0 <= i < |items| ==> items[i].quantity >= 1) ==> q >= |items|
  {
    if items == [] then 0 else QuantityColumn(items[..|items| - 1]) + items[|items| - 1].quantity
  }

  /** A line whose quantity and price are non-negative and whose discount is at most 100 percent. */
  predicate ValidRow(item: RowItem) {
    item.quantity >= 0 && item.price >= 0.0 && item.discount <= 100.0
  }

  /** The amount of one line after its discount; never negative for a valid line. */
  function LineAmount(item: RowItem): (a: real)
    ensures ValidRow(item) ==> a >= 0.0
  {
    var unit := item.price * (1.0 - item.discount / 100.0);
    assert ValidRow(item) ==> unit >= 0.0;
    item.quantity as real * unit
  }

  /**
   * The total column: the discounted line amounts, added left to right; never
   * negative while quantities and prices are non-negative and discounts are at most 100.
   */
  function TotalColumn(items: seq<RowItem>): (t: real)
    ensures (forall i :: 0 <= i < |items| ==> ValidRow(items[i])) ==> t >= 0.0
  {
    if items == [] then 0.0 else TotalColumn(items[..|items| - 1]) + LineAmount(items[|items| - 1])
  }

  /** Both columns add up over a split of the lines. */
  lemma {:induction false} ColumnsAppend(a: seq<RowItem>, b: seq<RowItem>)
    ensures QuantityColumn(a + b) == QuantityColumn(a) + QuantityColumn(b)
    ensures TotalColumn(a + b) == TotalColumn(a) + TotalColumn(b)
    decreases |b|
  {
    if b == [] {
      assert a + b == a;
    } else {
      ColumnsAppend(a, b[..|b| - 1]);
      assert (a + b)[..|a + b| - 1] == a + b[..|b| - 1];
    }
  }

  /**
   * `cancelOrder`: only a confirmed request that the server accepted removes
   * the order from the list; the other orders stay in order.
   */
  function CancelOrder(orders: seq<OrderRow>, id: Id, confirmed: bool, deleted: bool): (r: seq<OrderRow>)
    ensures !(confirmed && deleted) ==> r == orders
    ensures confirmed && deleted ==> forall o :: o in r <==> o in orders && o.id != id
  {
    if confirmed && deleted then Filter(orders, (o: OrderRow) => o.id != id) else orders
  }

  /** In a list without duplicate ids, cancelling the i-th order removes exactly that entry. */
  lemma CancelRemovesOneRow(orders: seq<OrderRow>, i: int)
    requires 0 <= i < |orders|
    requires forall j, k :: 0 <= j < k < |orders| ==> orders[j].id != orders[k].id
    ensures CancelOrder(orders, orders[i].id, true, true) == orders[..i] + orders[i + 1..]
  {
    var id := orders[i].id;
    var before, after := orders[..i], orders[i + 1..];
    forall j | 0 <= j < |before| ensures before[j].id != id {
      assert before[j] == orders[j];
    }
    forall j | 0 <= j < |after| ensures after[j].id != id {
      assert after[j] == orders[i + 1 + j];
    }
    FilterDropsOne(before, orders[i], after, (o: OrderRow) => o.id != id);
    assert orders == before + [orders[i]] + after;
  }

  /** What the page shows, in the order the page tests for it. */
  datatype Screen = Spinner | ErrorAlert(message: string) | NoOrders | Rows(orders: seq<OrderRow>)

  function View(loading: bool, error: string, orders: seq<OrderRow>): (v: Screen)
    ensures v.Spinner? <==> loading
    ensures v.ErrorAlert? <==> !loading && error != ""
    ensures v.ErrorAlert? ==> v.message == error
    ensures v.Rows? ==> v.orders == orders && |orders| > 0
    ensures !loading && error == "" ==> (v.NoOrders? <==> |orders| == 0)
  {
    if loading then Spinner
    else if error != "" then ErrorAlert(error)
    else if |orders| == 0 then NoOrders
    else Rows(orders)
  }
}
