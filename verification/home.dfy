/**
 * The catalog page: the filter effect over the product list, the per-product
 * size selection and the add-to-cart button. Lower-casing covers the ASCII
 * letters and trimming the common white-space characters; see README.
 */
module Home {
  import opened Base

  /** A product as the catalog receives it from GET /api/products. */
  datatype Product = Product(id: Id, name: string, price: real, size: string, discount: real, image: string)

  /** The four filter controls; the discount control holds no number while it shows "Tất cả". */
  datatype Filters = Filters(search: string, size: string, price: string, discount: Option<int>)

  predicate IsSpace(c: char) {
    c in {' ', '\t', '\n', '\r', '\U{000B}', '\U{000C}', '\U{00A0}', '\U{FEFF}', '\U{2028}', '\U{2029}'}
  }

  /** Nothing but white space. */
  predicate Blank(s: string) {
    forall i :: 0 <= i < |s| ==> IsSpace(s[i])
  }

  function TrimStart(s: string): string
    decreases |s|
  {
    if s != [] && IsSpace(s[0]) then TrimStart(s[1..]) else s
  }

  function TrimEnd(s: string): string
    decreases |s|
  {
    if s != [] && IsSpace(s[|s| - 1]) then TrimEnd(s[..|s| - 1]) else s
  }

  /** `String.prototype.trim`. */
  function Trim(s: string): string {
    TrimEnd(TrimStart(s))
  }

  lemma {:induction false} TrimStartFacts(s: string)
    ensures TrimStart(s) == "" <==> Blank(s)
    ensures TrimStart(s) != "" ==> !IsSpace(TrimStart(s)[0])
    decreases |s|
  {
    if s != [] && IsSpace(s[0]) {
      TrimStartFacts(s[1..]);
      assert Blank(s) <==> Blank(s[1..]) by {
        if Blank(s[1..]) {
          forall i | 0 <= i < |s| ensures IsSpace(s[i]) {
            if i > 0 { assert s[i] == s[1..][i - 1]; }
          }
        }
      }
    }
  }

  lemma {:induction false} TrimEndKeepsHead(t: string)
    requires t != "" && !IsSpace(t[0])
    ensures TrimEnd(t) != ""
    decreases |t|
  {
    if IsSpace(t[|t| - 1]) {
      TrimEndKeepsHead(t[..|t| - 1]);
    }
  }

  /** The search box counts as empty exactly when it holds only white space. */
  lemma TrimEmptyIffBlank(s: string)
    ensures Trim(s) == "" <==> Blank(s)
  {
    TrimStartFacts(s);
    if TrimStart(s) != "" {
      TrimEndKeepsHead(TrimStart(s));
    }
  }

  function LowerChar(c: char): char {
    if 'A' <= c <= 'Z' then (c as int + 32) as char else c
  }

  /** `String.prototype.toLowerCase`, on the ASCII letters. */
  function ToLower(s: string): (r: string)
    ensures |r| == |s|
    ensures forall i :: 0 <= i < |s| ==> r[i] == LowerChar(s[i])
  {
    seq(|s|, i requires 0 <= i < |s| => LowerChar(s[i]))
  }

  /** `String.prototype.includes`. */
  predicate Contains(text: string, part: string) {
    exists i :: 0 <= i <= |text| && part <= text[i..]
  }

  /** The search applies when the box holds more than white space. */
  predicate SearchActive(f: Filters) {
    Trim(f.search) != ""
  }

  /** The discount control applies when it holds a non-zero number. */
  predicate DiscountActive(f: Filters) {
    f.discount.Some? && f.discount.value != 0
  }

  /** The three price ranges; any other choice keeps every price. */
  predicate InPriceRange(price: real, choice: string) {
    if choice == "lt500" then price < 500000.0
    else if choice == "500to1m" then 500000.0 <= price <= 1000000.0
    else if choice == "gt1m" then price > 1000000.0
    else true
  }

  predicate SearchOk(p: Product, f: Filters) {
    SearchActive(f) ==> Contains(ToLower(p.name), ToLower(f.search))
  }

  predicate SizeOk(p: Product, f: Filters) {
    f.size != "" ==> p.size == f.size
  }

  predicate DiscountOk(p: Product, f: Filters) {
    DiscountActive(f) ==> p.discount >= f.discount.value as real
  }

  /**
   * A product is shown when it passes every active control. The search keyword
   * is the lower-cased box content as typed, surrounding spaces included.
   */
  function Visible(p: Product, f: Filters): (shown: bool)
    ensures shown && f.size != "" ==> p.size == f.size
    ensures shown && f.price == "lt500" ==> p.price < 500000.0
    ensures shown && f.price == "500to1m" ==> 500000.0 <= p.price <= 1000000.0
    ensures shown && f.price == "gt1m" ==> p.price > 1000000.0
    ensures shown && f.discount.Some? && f.discount.value != 0 ==> p.discount >= f.discount.value as real
    ensures shown && Trim(f.search) != "" ==> Contains(ToLower(p.name), ToLower(f.search))
    ensures !SearchActive(f) && f.size == "" && !DiscountActive(f) ==> (shown <==> InPriceRange(p.price, f.price))
  {
    SearchOk(p, f) && SizeOk(p, f) && InPriceRange(p.price, f.price) && DiscountOk(p, f)
  }

  /** The controls applied up to and including the size stage. */
  predicate UpToSize(p: Product, f: Filters) {
    SearchOk(p, f) && SizeOk(p, f)
  }

  /** The controls applied up to and including the price stage. */
  predicate UpToPrice(p: Product, f: Filters) {
    UpToSize(p, f) && InPriceRange(p.price, f.price)
  }

  /** The filter effect: up to four filter stages, each applied to the result of the previous. */
  method FilterEffect(products: seq<Product>, f: Filters) returns (result: seq<Product>)
    ensures result == Filter(products, (p: Product) => Visible(p, f))
  {
    result := products;
    if Trim(f.search) != "" {
      var keyword := ToLower(f.search);
      result := Filter(result, (p: Product) => Contains(ToLower(p.name), keyword));
      FilterAgrees(products, (p: Product) => Contains(ToLower(p.name), keyword), (p: Product) => SearchOk(p, f));
    } else {
      FilterKeepsAll(products, (p: Product) => SearchOk(p, f));
    }
    assert result == Filter(products, (p: Product) => SearchOk(p, f));

    if f.size != "" {
      var stage := (p: Product) => p.size == f.size;
      FilterTwice(products, (p: Product) => SearchOk(p, f), stage, (p: Product) => UpToSize(p, f));
      result := Filter(result, stage);
    } else {
      FilterAgrees(products, (p: Product) => SearchOk(p, f), (p: Product) => UpToSize(p, f));
    }
    assert result == Filter(products, (p: Product) => UpToSize(p, f));

    if f.price == "lt500" || f.price == "500to1m" || f.price == "gt1m" {
      var stage: Product -> bool;
      if f.price == "lt500" {
        stage := (p: Product) => p.price < 500000.0;
      } else if f.price == "500to1m" {
        stage := (p: Product) => p.price >= 500000.0 && p.price <= 1000000.0;
      } else {
        stage := (p: Product) => p.price > 1000000.0;
      }
      assert forall p: Product :: stage(p) == InPriceRange(p.price, f.price);
      FilterTwice(products, (p: Product) => UpToSize(p, f), stage, (p: Product) => UpToPrice(p, f));
      result := Filter(result, stage);
    } else {
      FilterAgrees(products, (p: Product) => UpToSize(p, f), (p: Product) => UpToPrice(p, f));
    }
    assert result == Filter(products, (p: Product) => UpToPrice(p, f));

    if f.discount.Some? && f.discount.value != 0 {
      var threshold := f.discount.value;
      var stage := (p: Product) => p.discount >= threshold as real;
      FilterTwice(products, (p: Product) => UpToPrice(p, f), stage, (p: Product) => Visible(p, f));
      result := Filter(result, stage);
    } else {
      FilterAgrees(products, (p: Product) => UpToPrice(p, f), (p: Product) => Visible(p, f));
    }
  }

  /** With every control empty the whole list is shown. */
  lemma NoFiltersShowAll(products: seq<Product>)
    ensures Filter(products, (p: Product) => Visible(p, Filters("", "", "", None))) == products
  {
    assert Trim("") == "";
    FilterKeepsAll(products, (p: Product) => Visible(p, Filters("", "", "", None)));
  }

  /** A search box holding only white space filters nothing. */
  lemma BlankSearchIgnored(p: Product, f: Filters)
    requires Blank(f.search)
    ensures Visible(p, f) <==> Visible(p, f.(search := ""))
  {
    TrimEmptyIffBlank(f.search);
    TrimEmptyIffBlank("");
  }

  /** Every price lies in exactly one of the three ranges. */
  lemma PriceRangesPartition(price: real)
    ensures InPriceRange(price, "lt500") || InPriceRange(price, "500to1m") || InPriceRange(price, "gt1m")
    ensures !(InPriceRange(price, "lt500") && InPriceRange(price, "500to1m"))
    ensures !(InPriceRange(price, "lt500") && InPriceRange(price, "gt1m"))
    ensures !(InPriceRange(price, "500to1m") && InPriceRange(price, "gt1m"))
  {
  }

  lemma {:induction false} LowerTwice(s: string)
    ensures ToLower(ToLower(s)) == ToLower(s)
  {
    forall i | 0 <= i < |s| ensures LowerChar(LowerChar(s[i])) == LowerChar(s[i]) {
    }
  }

  lemma {:induction false} LowerKeepsSpaces(s: string)
    ensures Blank(ToLower(s)) <==> Blank(s)
  {
    forall i | 0 <= i < |s| ensures IsSpace(LowerChar(s[i])) <==> IsSpace(s[i]) {
    }
  }

  /** Typing the keyword in upper or lower case shows the same products. */
  lemma SearchIgnoresCase(p: Product, f: Filters)
    ensures Visible(p, f) <==> Visible(p, f.(search := ToLower(f.search)))
  {
    LowerTwice(f.search);
    LowerKeepsSpaces(f.search);
    TrimEmptyIffBlank(f.search);
    TrimEmptyIffBlank(ToLower(f.search));
  }

  /** `handleSizeSelect`: records the size for one product and keeps every other choice. */
  function SelectSize(selected: map<Id, string>, productId: Id, size: string): (r: map<Id, string>)
    ensures r.Keys == selected.Keys + {productId} && r[productId] == size
    ensures forall k :: k in selected && k != productId ==> r[k] == selected[k]
  {
    selected[productId := size]
  }

  /** A product extended with the size chosen for it. */
  datatype Pick = Pick(product: Product, selectedSize: string)

  /** `handleAddToCart` on the catalog: nothing without a chosen size, else the product with that size. */
  function AddSelected(selected: map<Id, string>, p: Product): (r: Option<Pick>)
    ensures r.None? <==> p.id !in selected || selected[p.id] == ""
    ensures r.Some? ==> r.value == Pick(p, selected[p.id]) && r.value.selectedSize != ""
  {
    if p.id in selected && selected[p.id] != "" then Some(Pick(p, selected[p.id])) else None
  }

  /** Choosing a size and then pressing add forwards the product with that size. */
  lemma SelectThenAdd(selected: map<Id, string>, p: Product, size: string)
    requires size != ""
    ensures AddSelected(SelectSize(selected, p.id, size), p) == Some(Pick(p, size))
  {
  }
}
