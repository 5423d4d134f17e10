/** The product routes: an open listing, and create, delete and update behind `protect, adminOnly`. */
module ProductRoutes {
  import opened Base
  import opened ProductModel
  import opened AuthMiddleware
  import opened Store

  const CreateFailedMessage := "Không thể thêm sản phẩm"
  const ProductNotFoundMessage := "Không tìm thấy sản phẩm"
  const ProductDeletedMessage := "Đã xoá sản phẩm"
  const UpdateFailedMessage := "Cập nhật thất bại"

  /** GET /api/products: no guard, every product once. */
  method ListProducts(db: Db) returns (s: seq<Product>)
    requires db.Valid()
    ensures |s| == |db.products|
    ensures forall k :: k in db.products ==> db.products[k] in s
    ensures forall i :: 0 <= i < |s| ==> s[i].id in db.products && db.products[s[i].id] == s[i]
    ensures forall i, j :: 0 <= i < j < |s| ==> s[i].id != s[j].id
  {
    var products := db.products;
    var ids := KeysOf(products);
    s := seq(|ids|, i requires 0 <= i < |ids| => products[ids[i]]);
    assert forall i :: 0 <= i < |ids| ==> ids[i] in products && s[i].id == ids[i];
    forall k | k in products ensures products[k] in s {
      var i :| 0 <= i < |ids| && ids[i] == k;
      assert s[i] == products[k];
    }
  }

  /** POST /api/products. */
  method CreateProduct(db: Db, header: Option<string>, verify: string -> Option<Id>, input: ProductInput,
                       freshId: Id, now: int)
    returns (r: Reply<Product>)
    requires db.Valid() && freshId !in db.products
    modifies db`products
    ensures db.Valid()
    ensures ProtectAdmin(header, verify, db.users).Reject? ==>
              r == Refused(ProtectAdmin(header, verify, db.users)) && db.products == old(db.products)
    ensures ProtectAdmin(header, verify, db.users).Next? && !InputComplete(input) ==>
              r == Fail(500, CreateFailedMessage) && db.products == old(db.products)
    ensures ProtectAdmin(header, verify, db.users).Next? && InputComplete(input) ==>
              r == Ok(201, NewProduct(freshId, input, now)) &&
              db.products == old(db.products)[freshId := NewProduct(freshId, input, now)]
  {
    var gate := ProtectAdmin(header, verify, db.users);
    if gate.Reject? {
      return Refused(gate);
    }
    if !InputComplete(input) {
      return Fail(500, CreateFailedMessage);
    }
    var p := NewProduct(freshId, input, now);
    db.products := db.products[freshId := p];
    r := Ok(201, p);
  }

  /** DELETE /api/products/:id. */
  method DeleteProduct(db: Db, header: Option<string>, verify: string -> Option<Id>, id: Id)
    returns (r: Reply<string>)
    requires db.Valid()
    modifies db`products
    ensures db.Valid()
    ensures ProtectAdmin(header, verify, db.users).Reject? ==>
              r == Refused(ProtectAdmin(header, verify, db.users)) && db.products == old(db.products)
    ensures ProtectAdmin(header, verify, db.users).Next? && id !in old(db.products) ==>
              r == Fail(404, ProductNotFoundMessage) && db.products == old(db.products)
    ensures ProtectAdmin(header, verify, db.users).Next? && id in old(db.products) ==>
              r == Ok(200, ProductDeletedMessage) && db.products == old(db.products) - {id}
  {
    var gate := ProtectAdmin(header, verify, db.users);
    if gate.Reject? {
      return Refused(gate);
    }
    if id !in db.products {
      return Fail(404, ProductNotFoundMessage);
    }
    db.products := db.products - {id};
    r := Ok(200, ProductDeletedMessage);
  }

  /** PUT /api/products/:id: the five fields are overwritten, then the document is validated and saved. */
  method UpdateProduct(db: Db, header: Option<string>, verify: string -> Option<Id>, id: Id, input: ProductInput)
    returns (r: Reply<Product>)
    requires db.Valid()
    modifies db`products
    ensures db.Valid()
    ensures ProtectAdmin(header, verify, db.users).Reject? ==>
              r == Refused(ProtectAdmin(header, verify, db.users)) && db.products == old(db.products)
    ensures ProtectAdmin(header, verify, db.users).Next? && id !in old(db.products) ==>
              r == Fail(404, ProductNotFoundMessage) && db.products == old(db.products)
    ensures ProtectAdmin(header, verify, db.users).Next? && id in old(db.products) && !InputComplete(input) ==>
              r == Fail(500, UpdateFailedMessage) && db.products == old(db.products)
    ensures ProtectAdmin(header, verify, db.users).Next? && id in old(db.products) && InputComplete(input) ==>
              r == Ok(200, Overwrite(old(db.products)[id], input)) &&
              db.products == old(db.products)[id := Overwrite(old(db.products)[id], input)]
  {
    var gate := ProtectAdmin(header, verify, db.users);
    if gate.Reject? {
      return Refused(gate);
    }
    if id !in db.products {
      return Fail(404, ProductNotFoundMessage);
    }
    if !InputComplete(input) {
      return Fail(500, UpdateFailedMessage);
    }
    var updated := Overwrite(db.products[id], input);
    db.products := db.products[id := updated];
    r := Ok(200, updated);
  }
}
