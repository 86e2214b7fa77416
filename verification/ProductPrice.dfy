/** The price the product page shows, against the price the cart charges. */
module ProductPrice {
  import opened DealerPricing
  import opened Options
  import opened Products

  /** `Math.max(0, Math.min(100, n))`, whose result is not a number when `n` is not. */
  function ClampNumber(n: Number): Number {
    match n
    case NaN => NaN
    case PosInf => Finite(100.0)
    case NegInf => Finite(0.0)
    case Finite(x) => Finite(Clamp(x))
  }

  /** The raw percentage as the page reads it, apart from the cart; an empty supplier id counts as none. */
  function ShownRaw(customer: Customer, supplierId: Option<SupplierId>): Number {
    var row :=
      if supplierId.Some? && supplierId.value.text != "" then FindRow(customer.supplierDiscounts, supplierId.value)
      else None;
    if row.Some? then
      if OptionPositive(row.value.profitDiscountPercent) then Finite(0.0) else row.value.discountPercent
    else if OptionPositive(customer.profitDiscountPercent) then Finite(0.0)
    else if customer.discountPercent.Some? then customer.discountPercent.value
    else Finite(0.0)
  }

  /** The price a logged-in customer is shown, before formatting. */
  function ShownPrice(base: real, customer: Customer, supplierId: Option<SupplierId>,
                      prices: Option<PriceMap>, slug: Slug): real {
    var quoted := QuotedPrice(prices, slug);
    if quoted.Some? then quoted.value
    else
      var percent := ClampNumber(ShownRaw(customer, supplierId));
      if percent.Finite? && percent.value > 0.0 then Discounted(base, percent.value) else base
  }

  /** Kuruş as printed: two decimals, halves away from zero. */
  function PrintedKurus(x: real): int {
    if x >= 0.0 then (x * 100.0 + 0.5).Floor else -((-x * 100.0 + 0.5).Floor)
  }

  /** Half way between two whole kuruş. */
  predicate HalfKurus(x: real) {
    x * 100.0 + 0.5 == (x * 100.0 + 0.5).Floor as real
  }

  lemma PrintedAfterRounding(x: real)
    ensures PrintedKurus(Round2(x)) == PrintedKurus(x) <==> x >= 0.0 || !HalfKurus(x)
  {
    var n := (x * 100.0 + 0.5).Floor;
    PrintedWhole(n, Round2(x));
    if x < 0.0 {
      var m := (-x * 100.0 + 0.5).Floor;
      assert m as real <= -x * 100.0 + 0.5 < m as real + 1.0;
      assert n as real <= x * 100.0 + 0.5 < n as real + 1.0;
    }
  }

  lemma PrintedWhole(n: int, x: real)
    requires x == n as real / 100.0
    ensures PrintedKurus(x) == n
  {
    assert x * 100.0 == n as real;
    assert (n as real + 0.5).Floor == n && ((-n) as real + 0.5).Floor == -n;
  }

  /** The one line of the product in the cart. */
  function Charged(base: real, customer: Customer, supplierId: Option<SupplierId>,
                   prices: Option<PriceMap>, slug: Slug): real {
    UnitPrice(CartItem(slug, base, 1, supplierId), Some(customer), prices)
  }

  /** What a supplier's row says, and what the customer's own discounts say. */
  function RowDecision(row: SupplierDiscount): Number {
    if OptionPositive(row.profitDiscountPercent) then Finite(0.0) else row.discountPercent
  }

  function OwnDecision(customer: Customer): Number {
    if OptionPositive(customer.profitDiscountPercent) then Finite(0.0)
    else if customer.discountPercent.Some? then customer.discountPercent.value
    else Finite(0.0)
  }

  /** The raw percentage as the cart reads it; an empty supplier id is an id like any other. */
  function ChargedRaw(customer: Customer, supplierId: Option<SupplierId>): Number {
    RawPercent(customer, if supplierId.Some? then FindRow(customer.supplierDiscounts, supplierId.value) else None)
  }

  /** No row is filed under the product's empty supplier id, or it says what the customer's own discounts say. */
  predicate SameSource(customer: Customer, supplierId: Option<SupplierId>) {
    supplierId == Some(SupplierId("")) ==>
      var row := FindRow(customer.supplierDiscounts, SupplierId(""));
      row.Some? ==> RowDecision(row.value) == OwnDecision(customer)
  }

  /** Page and cart read the same percentage exactly then. */
  lemma SameRawExactly(customer: Customer, supplierId: Option<SupplierId>)
    ensures ShownRaw(customer, supplierId) == ChargedRaw(customer, supplierId) <==> SameSource(customer, supplierId)
  {
    assert supplierId.Some? && supplierId.value.text == "" ==> supplierId == Some(SupplierId(""));
  }

  /** The percentage does not spoil the agreement of page and cart on this price. */
  predicate Agreeable(base: real, raw: Number) {
    match raw
    case NaN => true
    case NegInf => true
    case PosInf => PrintedKurus(base) == 0
    case Finite(x) => x <= 0.0 || base >= 0.0 || x >= 100.0 || !HalfKurus(Discounted(base, x))
  }

  /**
   * Where they read the same percentage, the page and the cart print the same price, unless it is
   * infinite or a negative price falls half way between two kuruş after its discount.
   */
  lemma ShownIsCharged(base: real, customer: Customer, supplierId: Option<SupplierId>,
                       prices: Option<PriceMap>, slug: Slug)
    ensures SameSource(customer, supplierId) || QuotedPrice(prices, slug).Some? ==>
      (PrintedKurus(ShownPrice(base, customer, supplierId, prices, slug))
         == PrintedKurus(Charged(base, customer, supplierId, prices, slug))
       <==> QuotedPrice(prices, slug).Some? || Agreeable(base, ShownRaw(customer, supplierId)))
  {
    var quoted, raw := QuotedPrice(prices, slug), ShownRaw(customer, supplierId);
    SameRawExactly(customer, supplierId);
    if quoted.Some? {
      PrintedAfterRounding(quoted.value);
    } else if raw.PosInf? {
      assert Discounted(base, 100.0) == 0.0;
    } else if raw.Finite? && raw.value > 0.0 {
      DiscountedSign(base, Clamp(raw.value));
      PrintedAfterRounding(Discounted(base, Clamp(raw.value)));
    }
  }

  /** The page takes plus infinity for a full discount. */
  lemma InfiniteDiscountIsFull(base: real, customer: Customer, supplierId: Option<SupplierId>,
                               prices: Option<PriceMap>, slug: Slug)
    requires QuotedPrice(prices, slug) == None && ShownRaw(customer, supplierId).PosInf?
    ensures ShownPrice(base, customer, supplierId, prices, slug) == 0.0
  {
    assert Discounted(base, 100.0) == 0.0;
  }

  lemma DiscountedSign(base: real, percent: real)
    requires 0.0 <= percent <= 100.0
    ensures base >= 0.0 ==> Discounted(base, percent) >= 0.0
    ensures percent == 100.0 ==> Discounted(base, percent) == 0.0
    ensures base < 0.0 && percent < 100.0 ==> Discounted(base, percent) < 0.0
  {
  }

  /** A row filed under an empty supplier id is applied by the cart and not by the page. */
  lemma EmptySupplierIdDiffers()
    ensures var rows := [SupplierDiscount(SupplierId(""), Finite(50.0), None)];
      var customer := Customer(None, None, rows);
      && ShownPrice(10.0, customer, Some(SupplierId("")), None, Slug("x")) == 10.0
      && Charged(10.0, customer, Some(SupplierId("")), None, Slug("x")) == 5.0
  {
    assert Discounted(10.0, 50.0) == 5.0;
    assert 5.0 * 100.0 + 0.5 == 500.5;
  }
}
