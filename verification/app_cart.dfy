/**
 * The shopping cart kept by the application shell: add, remove and change
 * quantity, and the badge that shows the number of units in the cart.
 */
module App {
  import opened Base
  import opened Home

  /** A cart line: the product, the size chosen on the catalog and the number of units. */
  datatype CartItem = CartItem(product: Product, selectedSize: string, quantity: int)

  predicate InCart(cart: seq<CartItem>, id: Id) {
    exists i :: 0 <= i < |cart| && cart[i].product.id == id
  }

  /** No product appears on two lines. */
  predicate UniqueIds(cart: seq<CartItem>) {
    forall i, j :: 0 <= i < j < |cart| ==> cart[i].product.id != cart[j].product.id
  }

  /** Every line holds at least one unit. */
  predicate QuantitiesPositive(cart: seq<CartItem>) {
    forall i :: 0 <= i < |cart| ==> cart[i].quantity >= 1
  }

  function Bump(item: CartItem, id: Id): CartItem {
    if item.product.id == id then item.(quantity := item.quantity + 1) else item
  }

  function BumpAll(cart: seq<CartItem>, id: Id): (r: seq<CartItem>)
    ensures |r| == |cart|
  {
    seq(|cart|, i requires 0 <= i < |cart| => Bump(cart[i], id))
  }

  /**
   * `handleAddToCart`: a product already in the cart gains one unit on every
   * line that holds it, keeping the size chosen first; a new product is
   * appended with one unit and the chosen size.
   */
  function AddToCart(cart: seq<CartItem>, pick: Pick): (r: seq<CartItem>)
    ensures InCart(cart, pick.product.id) ==>
      && |r| == |cart|
      && forall i :: 0 <= i < |cart| ==>
           && r[i].product == cart[i].product
           && r[i].selectedSize == cart[i].selectedSize
           && r[i].quantity == cart[i].quantity + (if cart[i].product.id == pick.product.id then 1 else 0)
    ensures !InCart(cart, pick.product.id) ==> r == cart + [CartItem(pick.product, pick.selectedSize, 1)]
  {
    if InCart(cart, pick.product.id) then BumpAll(cart, pick.product.id)
    else cart + [CartItem(pick.product, pick.selectedSize, 1)]
  }

  /** `handleRemoveFromCart`: drops every line of that product and keeps the rest in order. */
  function RemoveFromCart(cart: seq<CartItem>, id: Id): (r: seq<CartItem>)
    ensures forall x :: x in r <==> x in cart && x.product.id != id
    ensures !InCart(r, id)
    ensures |r| <= |cart|
  {
    Filter(cart, (item: CartItem) => item.product.id != id)
  }

  /** The quantity after a change of `amount`: never below one. */
  function NewQuantity(quantity: int, amount: int): (q: int)
    ensures q >= 1
    ensures quantity + amount >= 1 ==> q == quantity + amount
    ensures quantity + amount < 1 ==> q == 1
  {
    if quantity + amount > 0 then quantity + amount else 1
  }

  /** `handleUpdateQuantity`: changes the quantity of that product's lines and leaves the others alone. */
  function UpdateQuantity(cart: seq<CartItem>, id: Id, amount: int): (r: seq<CartItem>)
    ensures |r| == |cart|
    ensures forall i :: 0 <= i < |cart| ==>
      r[i].product == cart[i].product && r[i].selectedSize == cart[i].selectedSize
    ensures forall i :: 0 <= i < |cart| && cart[i].product.id == id ==>
      r[i].quantity == NewQuantity(cart[i].quantity, amount)
    ensures forall i :: 0 <= i < |cart| && cart[i].product.id != id ==> r[i] == cart[i]
  {
    seq(|cart|, i requires 0 <= i < |cart| =>
      if cart[i].product.id == id then cart[i].(quantity := NewQuantity(cart[i].quantity, amount)) else cart[i])
  }

  /**
   * The badge on the cart icon: the sum of the quantities, added left to
   * right; while every line holds a unit it is at least the number of lines.
   */
  function Badge(cart: seq<CartItem>): (b: int)
    ensures QuantitiesPositive(cart) ==> b >= |cart|
  {
    if cart == [] then 0 else Badge(cart[..|cart| - 1]) + cart[|cart| - 1].quantity
  }

  /** The number of lines that hold a product. */
  function Count(cart: seq<CartItem>, id: Id): nat {
    if cart == [] then 0
    else Count(cart[..|cart| - 1], id) + (if cart[|cart| - 1].product.id == id then 1 else 0)
  }

  lemma {:induction false} BadgeAppend(a: seq<CartItem>, b: seq<CartItem>)
    ensures Badge(a + b) == Badge(a) + Badge(b)
    decreases |b|
  {
    if b == [] {
      assert a + b == a;
    } else {
      BadgeAppend(a, b[..|b| - 1]);
      assert (a + b)[..|a + b| - 1] == a + b[..|b| - 1];
    }
  }

  lemma {:induction false} BumpBadge(cart: seq<CartItem>, id: Id)
    ensures Badge(BumpAll(cart, id)) == Badge(cart) + Count(cart, id)
    decreases |cart|
  {
    if cart != [] {
      var n := |cart| - 1;
      BumpBadge(cart[..n], id);
      assert BumpAll(cart, id)[..n] == BumpAll(cart[..n], id);
    }
  }

  lemma {:induction false} AbsentCountsZero(cart: seq<CartItem>, id: Id)
    requires !InCart(cart, id)
    ensures Count(cart, id) == 0
    decreases |cart|
  {
    if cart != [] {
      var n := |cart| - 1;
      assert forall i :: 0 <= i < n ==> cart[..n][i] == cart[i];
      AbsentCountsZero(cart[..n], id);
    }
  }

  /** In a cart without duplicates a product present in it lies on exactly one line. */
  lemma {:induction false} UniqueCountsOne(cart: seq<CartItem>, id: Id)
    requires UniqueIds(cart) && InCart(cart, id)
    ensures Count(cart, id) == 1
    decreases |cart|
  {
    var n := |cart| - 1;
    assert UniqueIds(cart[..n]);
    if cart[n].product.id == id {
      assert forall i :: 0 <= i < n ==> cart[..n][i].product.id != id;
      AbsentCountsZero(cart[..n], id);
    } else {
      var i :| 0 <= i < |cart| && cart[i].product.id == id;
      assert cart[..n][i].product.id == id;
      UniqueCountsOne(cart[..n], id);
    }
  }

  /** Adding keeps a cart free of duplicate products. */
  lemma AddKeepsIdsUnique(cart: seq<CartItem>, pick: Pick)
    requires UniqueIds(cart)
    ensures UniqueIds(AddToCart(cart, pick))
  {
    var r := AddToCart(cart, pick);
    if !InCart(cart, pick.product.id) {
      forall i, j | 0 <= i < j < |r| ensures r[i].product.id != r[j].product.id {
        if j == |cart| {
          assert r[i] == cart[i];
        }
      }
    }
  }

  /** In a cart free of duplicates every add raises the badge by exactly one. */
  lemma AddRaisesBadgeByOne(cart: seq<CartItem>, pick: Pick)
    requires UniqueIds(cart)
    ensures Badge(AddToCart(cart, pick)) == Badge(cart) + 1
  {
    if InCart(cart, pick.product.id) {
      BumpBadge(cart, pick.product.id);
      UniqueCountsOne(cart, pick.product.id);
    } else {
      BadgeAppend(cart, [CartItem(pick.product, pick.selectedSize, 1)]);
      assert Badge([CartItem(pick.product, pick.selectedSize, 1)]) == 1 by {
        assert [CartItem(pick.product, pick.selectedSize, 1)][..0] == [];
      }
    }
  }

  /** None of the three handlers can produce a line with fewer than one unit. */
  lemma CartKeepsQuantitiesPositive(cart: seq<CartItem>, pick: Pick, id: Id, amount: int)
    requires QuantitiesPositive(cart)
    ensures QuantitiesPositive(AddToCart(cart, pick))
    ensures QuantitiesPositive(RemoveFromCart(cart, id))
    ensures QuantitiesPositive(UpdateQuantity(cart, id, amount))
  {
    var r := RemoveFromCart(cart, id);
    forall i | 0 <= i < |r| ensures r[i].quantity >= 1 {
      assert r[i] in cart;
    }
  }

  /** Removing or changing a product that is not in the cart leaves the cart as it was. */
  lemma AbsentIdLeavesCart(cart: seq<CartItem>, id: Id, amount: int)
    requires !InCart(cart, id)
    ensures RemoveFromCart(cart, id) == cart
    ensures UpdateQuantity(cart, id, amount) == cart
  {
    FilterKeepsAll(cart, (item: CartItem) => item.product.id != id);
  }

  /** Removal keeps the surviving lines in their order: it works piece by piece on a split cart. */
  lemma RemoveKeepsOrder(a: seq<CartItem>, b: seq<CartItem>, id: Id)
    ensures RemoveFromCart(a + b, id) == RemoveFromCart(a, id) + RemoveFromCart(b, id)
  {
    FilterConcat(a, b, (item: CartItem) => item.product.id != id);
  }

  /** In a cart free of duplicates, removing the product on line i takes out exactly that line. */
  lemma RemoveOneLine(cart: seq<CartItem>, i: int)
    requires UniqueIds(cart) && 0 <= i < |cart|
    ensures RemoveFromCart(cart, cart[i].product.id) == cart[..i] + cart[i + 1..]
  {
    var id := cart[i].product.id;
    var before, after := cart[..i], cart[i + 1..];
    forall j | 0 <= j < |before| ensures before[j].product.id != id {
      assert before[j] == cart[j];
    }
    forall j | 0 <= j < |after| ensures after[j].product.id != id {
      assert after[j] == cart[i + 1 + j];
    }
    FilterDropsOne(before, cart[i], after, (item: CartItem) => item.product.id != id);
    assert cart == before + [cart[i]] + after;
  }

  /** The catalog's add button feeds the cart the product with the size chosen for it. */
  lemma CatalogAddAppendsChoice(cart: seq<CartItem>, selected: map<Id, string>, p: Product)
    requires p.id in selected && selected[p.id] != "" && !InCart(cart, p.id)
    ensures AddSelected(selected, p).Some?
    ensures AddToCart(cart, AddSelected(selected, p).value) == cart + [CartItem(p, selected[p.id], 1)]
  {
  }
}
