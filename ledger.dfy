/**
 * The stock ledger: how an adjustment of a given type moves a product's or a
 * variant's on-hand stock and in-cart quantity (update_product_stock_for_adjustment),
 * the guard that line validation applies before it, and the parent-level
 * recomputation of status and storefront (B2C) visibility.
 */
module Ledger {
  import opened Wrappers
  import opened StockStatus

  datatype AdjustmentType = CartStock | Return | Damage | InternalConsumption | ExtraGiven

  /** Python's int() of a number: truncation toward zero. */
  function Trunc(x: real): (r: int)
    ensures 0.0 <= x ==> r as real <= x < r as real + 1.0
    ensures x < 0.0 ==> r as real - 1.0 < x <= r as real
  {
    if x >= 0.0 then x.Floor else -((-x).Floor)
  }

  lemma TruncOfInt(n: int)
    ensures Trunc(n as real) == n
  {
  }

  /** The two quantities every stock unit carries. */
  datatype Levels = Levels(stock: int, inCart: int)

  /** The new stock before it is written back through int(). */
  function RawStock(stock: int, t: AdjustmentType, q: real): real {
    if t == Return then stock as real + q else stock as real - q
  }

  /**
   * The mutation table: cart_stock moves q from stock to cart, return moves it
   * back (the cart never below 0), damage, internal consumption and extra given
   * take q from stock only. Both fields are truncated toward zero.
   */
  function Adjusted(l: Levels, t: AdjustmentType, q: real): Levels {
    match t
    case CartStock => Levels(Trunc(RawStock(l.stock, t, q)), Trunc(l.inCart as real + q))
    case Return =>
      var left := l.inCart as real - q;
      Levels(Trunc(RawStock(l.stock, t, q)), Trunc(if left > 0.0 then left else 0.0))
    case _ => Levels(Trunc(RawStock(l.stock, t, q)), l.inCart)
  }

  /** The types that take stock away without touching the cart. */
  predicate IsRemoval(t: AdjustmentType) {
    t == Damage || t == InternalConsumption || t == ExtraGiven
  }

  /** For a whole quantity the table is exact. */
  lemma AdjustedWhole(l: Levels, t: AdjustmentType, n: int)
    ensures var r := Adjusted(l, t, n as real);
            && (t == CartStock ==> r == Levels(l.stock - n, l.inCart + n))
            && (t == Return ==> r == Levels(l.stock + n, if l.inCart - n > 0 then l.inCart - n else 0))
            && (IsRemoval(t) ==> r == Levels(l.stock - n, l.inCart))
  {
  }

  /**
   * Line validation: the quantity must be at most the in-cart quantity for a
   * return, at most the available stock otherwise, and positive.
   */
  predicate Admissible(t: AdjustmentType, q: real, available: int, inCart: int) {
    && !(t == Return && q > inCart as real)
    && !(t != Return && q > available as real)
    && !(q <= 0.0)
  }

  /** Moving a whole quantity into the cart and returning it restores both fields. */
  lemma {:induction false} CartThenReturnRestores(l: Levels, n: int)
    requires 0 < n && 0 <= l.inCart
    ensures Adjusted(Adjusted(l, CartStock, n as real), Return, n as real) == l
  {
    AdjustedWhole(l, CartStock, n);
    AdjustedWhole(Levels(l.stock - n, l.inCart + n), Return, n);
  }

  /** Removals never touch the cart and, once validated, strictly lower the stock. */
  lemma {:induction false} RemovalLowersStock(l: Levels, t: AdjustmentType, q: real)
    requires IsRemoval(t) && 0 <= l.inCart && Admissible(t, q, l.stock - l.inCart, l.inCart)
    ensures Adjusted(l, t, q).inCart == l.inCart
    ensures l.inCart <= Adjusted(l, t, q).stock < l.stock
  {
    assert RawStock(l.stock, t, q) >= l.inCart as real;
  }

  /** A validated adjustment keeps stock and cart non-negative. */
  lemma {:induction false} AdmissibleKeepsLevelsNonNegative(l: Levels, t: AdjustmentType, q: real)
    requires 0 <= l.stock && 0 <= l.inCart && Admissible(t, q, l.stock - l.inCart, l.inCart)
    ensures 0 <= Adjusted(l, t, q).stock && 0 <= Adjusted(l, t, q).inCart
  {
    if t != Return {
      assert RawStock(l.stock, t, q) >= l.inCart as real;
    }
  }

  /**
   * A fractional quantity is truncated on write: moving half a unit into the
   * cart takes a whole unit off the stock and puts nothing in the cart.
   */
  lemma FractionalCartLosesStock()
    ensures Adjusted(Levels(10, 0), CartStock, 0.5) == Levels(9, 0)
  {
  }

  // ---------------------------------------------------------------- product records

  datatype StockMode = ParentMode | VariantMode

  /** A variant entry of a product's variants list, as far as stock and pricing go. */
  datatype Variant = Variant(
    id: string, name: string, unit: string, purchasePrice: real, salePrice: real,
    stock: int, inCart: int, lowStockAlert: int, status: Status, onB2C: bool)

  /** A product record; stock fields missing in the store are 0 here. */
  datatype Product = Product(
    productId: string, name: string, stockMode: StockMode, unit: string,
    purchasePrice: real, salePrice: real,
    stock: int, inCart: int, lowStockAlert: int, status: Status, onB2C: bool,
    variants: seq<Variant>)

  /**
   * The parent branch: the mutation table on the product's own stock, then the
   * status from the truncated stock and the threshold, and visibility from the
   * untruncated new stock less the (new) in-cart quantity.
   */
  function AdjustParent(p: Product, t: AdjustmentType, q: real): (r: Product)
    ensures Levels(r.stock, r.inCart) == Adjusted(Levels(p.stock, p.inCart), t, q)
    ensures r.status == CalculateStatus(r.stock, p.lowStockAlert)
    ensures r.onB2C <==> RawStock(p.stock, t, q) - r.inCart as real > 0.0
    ensures r == p.(stock := r.stock, inCart := r.inCart, status := r.status, onB2C := r.onB2C)
  {
    var l := Adjusted(Levels(p.stock, p.inCart), t, q);
    var available := RawStock(p.stock, t, q) - l.inCart as real;
    var onB2C :=
      if available <= 0.0 then false
      else if !p.onB2C && available > 0.0 then true
      else p.onB2C;
    p.(stock := l.stock, inCart := l.inCart,
       status := CalculateStatus(Trunc(RawStock(p.stock, t, q)), Trunc(p.lowStockAlert as real)),
       onB2C := onB2C)
  }

  /** The first index whose variant has the given id. */
  predicate IsFirstMatch(vs: seq<Variant>, id: string, k: int) {
    0 <= k < |vs| && vs[k].id == id && forall j :: 0 <= j < k ==> vs[j].id != id
  }

  function FirstVariantIndex(vs: seq<Variant>, id: string): (r: Option<nat>)
    ensures r.None? <==> forall j :: 0 <= j < |vs| ==> vs[j].id != id
    ensures r.Some? ==> IsFirstMatch(vs, id, r.value)
  {
    if vs == [] then None
    else if vs[0].id == id then Some(0)
    else match FirstVariantIndex(vs[1..], id)
      case None => None
      case Some(k) => Some(k + 1)
  }

  /** The mutation table on one variant; its status and visibility are not recomputed. */
  function AdjustVariant(v: Variant, t: AdjustmentType, q: real): Variant {
    var l := Adjusted(Levels(v.stock, v.inCart), t, q);
    v.(stock := l.stock, inCart := l.inCart)
  }

  /**
   * The variant branch: only the first variant with the id changes; the product
   * is not written at all (None) when no variant has it.
   */
  function AdjustVariantOf(p: Product, variantId: string, t: AdjustmentType, q: real): (r: Option<Product>)
    ensures r.None? <==> forall j :: 0 <= j < |p.variants| ==> p.variants[j].id != variantId
    ensures r.Some? ==>
              exists k :: (IsFirstMatch(p.variants, variantId, k)
                           && r.value == p.(variants := p.variants[k := AdjustVariant(p.variants[k], t, q)]))
  {
    match FirstVariantIndex(p.variants, variantId)
    case None => None
    case Some(k) => Some(p.(variants := p.variants[k := AdjustVariant(p.variants[k], t, q)]))
  }

  /** Python truthiness of the optional variant id: None and "" select the parent. */
  predicate TargetsVariant(variantId: Option<string>) {
    variantId.Some? && variantId.value != ""
  }

  /** The product after one adjustment, or None when the variant is unknown (nothing is written). */
  function AdjustProduct(p: Product, variantId: Option<string>, t: AdjustmentType, q: real): Option<Product> {
    if TargetsVariant(variantId) then AdjustVariantOf(p, variantId.value, t, q)
    else Some(AdjustParent(p, t, q))
  }

  /**
   * A variant adjustment leaves the parent's own stock, cart, status and
   * visibility alone, and every variant other than the first match.
   */
  lemma {:induction false} VariantAdjustmentIsLocal(p: Product, id: string, t: AdjustmentType, q: real, j: int)
    requires AdjustVariantOf(p, id, t, q).Some?
    requires 0 <= j < |p.variants| && (p.variants[j].id != id || !IsFirstMatch(p.variants, id, j))
    ensures var r := AdjustVariantOf(p, id, t, q).value;
            && r.stock == p.stock && r.inCart == p.inCart && r.status == p.status && r.onB2C == p.onB2C
            && |r.variants| == |p.variants| && r.variants[j] == p.variants[j]
  {
    var k :| IsFirstMatch(p.variants, id, k)
      && AdjustVariantOf(p, id, t, q).value == p.(variants := p.variants[k := AdjustVariant(p.variants[k], t, q)]);
  }

  /** For a whole quantity the parent is visible exactly when stock exceeds the cart afterwards. */
  lemma {:induction false} ParentVisibilityWhole(p: Product, t: AdjustmentType, n: int)
    ensures var r := AdjustParent(p, t, n as real);
            r.onB2C <==> r.stock > r.inCart
  {
    AdjustedWhole(Levels(p.stock, p.inCart), t, n);
  }

  /**
   * Moving 95 of 100 units into the cart (threshold 10) leaves 5 in stock and 95
   * in the cart: low stock, and hidden from the storefront.
   */
  lemma CartScenario(p: Product)
    requires p.stock == 100 && p.inCart == 0 && p.lowStockAlert == 10 && p.onB2C
    ensures var r := AdjustParent(p, CartStock, 95.0);
            r.stock == 5 && r.inCart == 95 && r.status == LowStock && !r.onB2C
  {
  }
}
