/**
 * The admin order table: the owner and total columns, the status selector and
 * the request it sends, and which panels the page shows.
 */
module AdminOrders {
  import opened Base
  import opened OrderModel
  import OrderRoutes
  import AdminDashboard

  const LoadFailedMessage := "Không thể tải danh sách đơn hàng"
  const HiddenOwner := "Ẩn"
  const UpdateFailedAlert := "Cập nhật trạng thái thất bại!"

  /**
   * The total column: quantity times price, added left to right, without
   * discounts; never negative for non-negative prices and quantities.
   */
  function OrderTotal(items: seq<Item>): (t: real)
    ensures (forall k :: 0 <= k < |items| ==> items[k].price >= 0.0 && items[k].quantity >= 0) ==> t >= 0.0
  {
    if items == [] then 0.0
    else OrderTotal(items[..|items| - 1]) + items[|items| - 1].quantity as real * items[|items| - 1].price
  }

  /** The table's total of an order is the amount the dashboard adds to its revenue for it. */
  lemma {:induction false} OrderTotalIsGross(items: seq<Item>)
    ensures OrderTotal(items) == AdminDashboard.ItemsGross(items)
    decreases |items|
  {
    if items != [] {
      OrderTotalIsGross(items[..|items| - 1]);
    }
  }

  /** The owner column: the owner's name, or "Ẩn" for a missing owner or an empty name. */
  function OwnerCell(owner: Option<OrderRoutes.Owner>): (cell: string)
    ensures cell != ""
    ensures owner.Some? && owner.value.name != "" ==> cell == owner.value.name
    ensures owner.None? || owner.value.name == "" ==> cell == HiddenOwner
  {
    if owner.Some? && owner.value.name != "" then owner.value.name else HiddenOwner
  }

  /** The options of the status selector, in display order. */
  const StatusOptions: seq<string> := ["Chờ xử lý", "Đang giao", "Hoàn thành", "Đã huỷ"]

  /** The selector offers exactly the four stored labels, so every choice passes the server's check. */
  lemma StatusOptionsAreLabels()
    ensures forall s :: s in StatusOptions <==> ParseStatus(s).Some?
    ensures forall st: OrderStatus :: Label(st) in StatusOptions
  {
    forall s | ParseStatus(s).Some? ensures s in StatusOptions {
      LabelRoundTrip(ParseStatus(s).value);
    }
  }

  /** The PUT to /api/orders/:id/status sent when the admin picks a status. */
  datatype StatusRequest = StatusRequest(orderId: Id, status: string)

  /** What the page does after the PUT: reload the list, or show an alert. */
  datatype AfterUpdate = Refetch | Alert(message: string)

  /** `handleStatusChange`: sends the choice for that order; reloads on success, alerts on failure. */
  function ChangeStatus(orderId: Id, choice: string, succeeded: bool): (r: (StatusRequest, AfterUpdate))
    ensures r.0.orderId == orderId && r.0.status == choice
    ensures r.1.Refetch? <==> succeeded
    ensures !succeeded ==> r.1 == Alert(UpdateFailedAlert)
  {
    (StatusRequest(orderId, choice), if succeeded then Refetch else Alert(UpdateFailedAlert))
  }

  /** Every option the selector can send is accepted by the status update and stored as that label. */
  lemma ChosenStatusIsStored(orderId: Id, i: int, succeeded: bool)
    requires 0 <= i < |StatusOptions|
    ensures var req := ChangeStatus(orderId, StatusOptions[i], succeeded).0;
      ParseStatus(req.status).Some? && Label(ParseStatus(req.status).value) == StatusOptions[i]
  {
    StatusOptionsAreLabels();
  }

  /** The panels of the page, each shown independently of the others. */
  datatype Panels = Panels(spinner: bool, errorAlert: bool, emptyNotice: bool, table: bool)

  function View(loading: bool, error: string, orders: seq<OrderRoutes.ListedOrder>): (p: Panels)
    ensures p.spinner <==> loading
    ensures p.errorAlert <==> error != ""
    ensures !(p.emptyNotice && p.table)
    ensures !loading ==> (p.emptyNotice <==> |orders| == 0) && (p.table <==> |orders| > 0)
    ensures loading ==> !p.emptyNotice && !p.table
  {
    Panels(loading, error != "", !loading && |orders| == 0, !loading && |orders| > 0)
  }

  /** A failed load shows the error together with the "no orders" notice. */
  lemma FailedLoadAlsoShowsEmptyNotice(message: string)
    requires message != ""
    ensures View(false, message, []).errorAlert && View(false, message, []).emptyNotice
  {
  }
}
