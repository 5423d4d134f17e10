/**
 * The MongoDB database: one map per collection, keyed by document id. Route
 * handlers receive the database and may change only the collection they write.
 */
module Store {
  import opened Base
  import opened UserRecord
  import OrderModel
  import ProductModel

  /** No two stored users share an email address. */
  ghost predicate EmailsUnique(users: map<Id, User>) {
    forall a, b :: a in users && b in users && users[a].email == users[b].email ==> a == b
  }

  class Db {
    var users: map<Id, User>
    var orders: map<Id, OrderModel.Order>
    var products: map<Id, ProductModel.Product>

    /** Every document is filed under its own id and passed validation when it was saved. */
    ghost predicate Valid()
      reads this
    {
      && (forall k :: k in users ==> users[k].id == k)
      && EmailsUnique(users)
      && (forall k :: k in orders ==> orders[k].id == k && OrderModel.Valid(orders[k]))
      && (forall k :: k in products ==> products[k].id == k && ProductModel.Valid(products[k]))
    }

    constructor ()
      ensures Valid()
      ensures users == map[] && orders == map[] && products == map[]
    {
      users, orders, products := map[], map[], map[];
    }
  }

  /** A sequence that names no id twice. */
  predicate DistinctIds(ids: seq<Id>) {
    forall i, j :: 0 <= i < j < |ids| ==> ids[i] != ids[j]
  }

  /** `Model.find()` without a sort: every id of the collection once, in an order the model leaves open. */
  method KeysOf<T>(m: map<Id, T>) returns (ids: seq<Id>)
    ensures DistinctIds(ids)
    ensures forall k :: k in ids <==> k in m
    ensures |ids| == |m|
  {
    ids := [];
    var rest := m.Keys;
    while rest != {}
      invariant rest <= m.Keys
      invariant forall k :: k in ids <==> k in m && k !in rest
      invariant DistinctIds(ids)
      invariant |ids| + |rest| == |m.Keys|
      decreases rest
    {
      var k :| k in rest;
      ids := ids + [k];
      rest := rest - {k};
    }
  }
}
