/**
 * The order routes: create, the caller's orders, every order for the admin
 * screen, and the status update. Create and `my-orders` sit behind
 * `protect, adminOnly` as the routes are written; the status update sits
 * behind `protect` alone and assigns the requested status without looking at
 * the current one.
 */
module OrderRoutes {
  import opened Base
  import opened UserRecord
  import opened OrderModel
  import opened AuthMiddleware
  import opened Store

  const EmptyCartMessage := "Giỏ hàng trống"
  const CreateFailedMessage := "Đặt hàng thất bại"
  const OrderNotFoundMessage := "Không tìm thấy đơn hàng"
  const StatusFailedMessage := "Lỗi cập nhật trạng thái đơn"
  const StatusUpdatedMessage := "Cập nhật thành công"

  /** The body of a successful status update: a confirmation and the saved order. */
  datatype StatusUpdated = StatusUpdated(message: string, order: Order)

  /** `populate('user', 'name email')`: the owner's id, name and email, or null once the user is gone. */
  datatype Owner = Owner(id: Id, name: string, email: string)

  /** An order of the admin listing, with its populated owner. */
  datatype ListedOrder = ListedOrder(order: Order, owner: Option<Owner>)

  function OwnerOf(users: map<Id, User>, id: Id): Option<Owner> {
    if id in users then Some(Owner(users[id].id, users[id].name, users[id].email)) else None
  }

  /** `sort({createdAt: -1})`: newer orders first. */
  predicate NewestFirst(s: seq<Order>) {
    forall i, j :: 0 <= i < j < |s| ==> s[i].createdAt >= s[j].createdAt
  }

  /** `find({user: owner})` when `owner` is given, `find()` otherwise. */
  predicate Selected(o: Order, owner: Option<Id>) {
    owner.None? || o.user == owner.value
  }

  /** `s` holds, each exactly once and newest first, the stored orders the query selects. */
  ghost predicate Lists(s: seq<Order>, orders: map<Id, Order>, owner: Option<Id>) {
    && (forall o :: o in s ==> o.id in orders && orders[o.id] == o && Selected(o, owner))
    && (forall k :: k in orders && Selected(orders[k], owner) ==> orders[k] in s)
    && UniqueIds(s)
    && NewestFirst(s)
  }

  /** No order appears twice. */
  predicate UniqueIds(s: seq<Order>) {
    forall i, j :: 0 <= i < j < |s| ==> s[i].id != s[j].id
  }

  /** In a newest-first sequence the head is at least as new as every element. */
  lemma HeadIsNewest(s: seq<Order>)
    requires NewestFirst(s) && s != []
    ensures forall x :: x in s ==> s[0].createdAt >= x.createdAt
  {
    forall x | x in s ensures s[0].createdAt >= x.createdAt {
      var j :| 0 <= j < |s| && s[j] == x;
    }
  }

  /**
   * Putting back the head of a newest-first sequence in front of the rest with
   * `o` inserted keeps the order and holds the head, the rest and `o`.
   */
  lemma InsertBehindHead(s: seq<Order>, o: Order, tail: seq<Order>)
    requires NewestFirst(s) && s != [] && s[0].createdAt > o.createdAt
    requires NewestFirst(tail)
    requires multiset(tail) == multiset(s[1..]) + multiset{o}
    ensures NewestFirst([s[0]] + tail)
    ensures multiset([s[0]] + tail) == multiset(s) + multiset{o}
  {
    HeadIsNewest(s);
    forall x | x in tail ensures s[0].createdAt >= x.createdAt {
      assert x in multiset(tail);
      if x != o {
        assert x in multiset(s[1..]);
        assert x in s[1..];
      }
    }
    assert s == [s[0]] + s[1..];
  }

  /** Places `o` in a newest-first sequence, before the first order that is not newer. */
  function InsertByDate(s: seq<Order>, o: Order): (r: seq<Order>)
    requires NewestFirst(s)
    ensures |r| == |s| + 1
    ensures forall x :: x in r <==> x in s || x == o
    ensures NewestFirst(r)
    ensures multiset(r) == multiset(s) + multiset{o}
  {
    if s == [] || s[0].createdAt <= o.createdAt then
      HeadIsNewest([o] + s);
      [o] + s
    else
      var tail := InsertByDate(s[1..], o);
      InsertBehindHead(s, o, tail);
      [s[0]] + tail
  }

  /** Inserting an order whose id is new keeps the ids distinct. */
  lemma {:induction false} InsertKeepsIdsUnique(s: seq<Order>, o: Order)
    requires NewestFirst(s) && UniqueIds(s)
    requires forall x :: x in s ==> x.id != o.id
    ensures UniqueIds(InsertByDate(s, o))
  {
    if s == [] || s[0].createdAt <= o.createdAt {
      assert InsertByDate(s, o) == [o] + s;
      assert forall j :: 0 <= j < |s| ==> s[j] in s;
    } else {
      var tail := InsertByDate(s[1..], o);
      InsertKeepsIdsUnique(s[1..], o);
      assert InsertByDate(s, o) == [s[0]] + tail;
      forall j | 0 <= j < |tail| ensures tail[j].id != s[0].id {
        assert tail[j] in tail;
        if tail[j] != o {
          var k :| 0 <= k < |s[1..]| && s[1..][k] == tail[j];
          assert s[k + 1] == tail[j];
        } else {
          assert s[0] in s;
        }
      }
    }
  }

  /** The query with its sort. */
  method Query(orders: map<Id, Order>, owner: Option<Id>) returns (s: seq<Order>)
    requires forall k :: k in orders ==> orders[k].id == k
    ensures Lists(s, orders, owner)
  {
    s := [];
    var rest := orders.Keys;
    while rest != {}
      invariant rest <= orders.Keys
      invariant forall o :: o in s ==> o.id in orders && o.id !in rest && orders[o.id] == o && Selected(o, owner)
      invariant forall k :: k in orders && k !in rest && Selected(orders[k], owner) ==> orders[k] in s
      invariant UniqueIds(s)
      invariant NewestFirst(s)
      decreases rest
    {
      var k :| k in rest;
      if Selected(orders[k], owner) {
        InsertKeepsIdsUnique(s, orders[k]);
        s := InsertByDate(s, orders[k]);
      }
      rest := rest - {k};
    }
  }

  /** POST /api/orders. */
  method CreateOrder(db: Db, header: Option<string>, verify: string -> Option<Id>,
                     shippingInfo: ShippingInfo, items: Option<seq<ItemInput>>, freshId: Id, now: int)
    returns (r: Reply<Order>)
    requires db.Valid() && freshId !in db.orders
    modifies db`orders
    ensures db.Valid()
    ensures ProtectAdmin(header, verify, db.users).Reject? ==>
              r == Refused(ProtectAdmin(header, verify, db.users)) && db.orders == old(db.orders)
    ensures ProtectAdmin(header, verify, db.users).Next? && (items.None? || items.value == []) ==>
              r == Fail(400, EmptyCartMessage) && db.orders == old(db.orders)
    ensures ProtectAdmin(header, verify, db.users).Next? && items.Some? && items.value != [] &&
            !ShippingComplete(shippingInfo) ==>
              r == Fail(500, CreateFailedMessage) && db.orders == old(db.orders)
    ensures ProtectAdmin(header, verify, db.users).Next? && items.Some? && items.value != [] &&
            ShippingComplete(shippingInfo) ==>
              var o := NewOrder(freshId, ProtectAdmin(header, verify, db.users).user.value.id, shippingInfo,
                                items.value, now);
              r == Ok(201, o) && db.orders == old(db.orders)[freshId := o]
  {
    var gate := ProtectAdmin(header, verify, db.users);
    if gate.Reject? {
      return Refused(gate);
    }
    if items.None? || |items.value| == 0 {
      return Fail(400, EmptyCartMessage);
    }
    var order := NewOrder(freshId, gate.user.value.id, shippingInfo, items.value, now);
    if !Valid(order) {
      return Fail(500, CreateFailedMessage);
    }
    db.orders := db.orders[freshId := order];
    r := Ok(201, order);
  }

  /** GET /api/orders/my-orders. */
  method MyOrders(db: Db, header: Option<string>, verify: string -> Option<Id>) returns (r: Reply<seq<Order>>)
    requires db.Valid()
    ensures ProtectAdmin(header, verify, db.users).Reject? ==> r == Refused(ProtectAdmin(header, verify, db.users))
    ensures ProtectAdmin(header, verify, db.users).Next? ==>
              r.Ok? && r.status == 200 &&
              Lists(r.body, db.orders, Some(ProtectAdmin(header, verify, db.users).user.value.id))
  {
    var gate := ProtectAdmin(header, verify, db.users);
    if gate.Reject? {
      return Refused(gate);
    }
    var s := Query(db.orders, Some(gate.user.value.id));
    r := Ok(200, s);
  }

  /** Attaches each order's owner, as `populate` does. */
  function Populate(s: seq<Order>, users: map<Id, User>): (r: seq<ListedOrder>)
    ensures |r| == |s|
    ensures forall i :: 0 <= i < |s| ==> r[i].order == s[i] && r[i].owner == OwnerOf(users, s[i].user)
  {
    seq(|s|, i requires 0 <= i < |s| => ListedOrder(s[i], OwnerOf(users, s[i].user)))
  }

  /** GET /api/orders/admin. */
  method AdminOrders(db: Db, header: Option<string>, verify: string -> Option<Id>)
    returns (r: Reply<seq<ListedOrder>>)
    requires db.Valid()
    ensures ProtectAdmin(header, verify, db.users).Reject? ==> r == Refused(ProtectAdmin(header, verify, db.users))
    ensures ProtectAdmin(header, verify, db.users).Next? ==>
              r.Ok? && r.status == 200 &&
              (exists s :: Lists(s, db.orders, None) && r.body == Populate(s, db.users))
  {
    var gate := ProtectAdmin(header, verify, db.users);
    if gate.Reject? {
      return Refused(gate);
    }
    var s := Query(db.orders, None);
    r := Ok(200, Populate(s, db.users));
  }

  /** PUT /api/orders/:id/status. */
  method UpdateStatus(db: Db, header: Option<string>, verify: string -> Option<Id>, id: Id, status: string)
    returns (r: Reply<StatusUpdated>)
    requires db.Valid()
    modifies db`orders
    ensures db.Valid()
    ensures Protect(header, verify, db.users).Reject? ==>
              r == Refused(Protect(header, verify, db.users)) && db.orders == old(db.orders)
    ensures Protect(header, verify, db.users).Next? && id !in old(db.orders) ==>
              r == Fail(404, OrderNotFoundMessage) && db.orders == old(db.orders)
    ensures Protect(header, verify, db.users).Next? && id in old(db.orders) && ParseStatus(status).None? ==>
              r == Fail(500, StatusFailedMessage) && db.orders == old(db.orders)
    ensures Protect(header, verify, db.users).Next? && id in old(db.orders) && ParseStatus(status).Some? ==>
              var updated := old(db.orders)[id].(status := ParseStatus(status).value);
              r == Ok(200, StatusUpdated(StatusUpdatedMessage, updated)) && db.orders == old(db.orders)[id := updated]
  {
    var gate := Protect(header, verify, db.users);
    if gate.Reject? {
      return Refused(gate);
    }
    if id !in db.orders {
      return Fail(404, OrderNotFoundMessage);
    }
    var parsed := ParseStatus(status);
    if parsed.None? {
      return Fail(500, StatusFailedMessage);
    }
    var updated := db.orders[id].(status := parsed.value);
    db.orders := db.orders[id := updated];
    r := Ok(200, StatusUpdated(StatusUpdatedMessage, updated));
  }
}
