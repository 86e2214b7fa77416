/** What a dealer pays for a cart line, and what the product page shows for the same product. */
module DealerPricing {
  import opened Options
  import opened Products

  datatype SupplierId = SupplierId(text: string)

  /** A JavaScript number; rounding errors of finite numbers are not modelled. */
  datatype Number = NaN | PosInf | NegInf | Finite(value: real)

  datatype SupplierDiscount = SupplierDiscount(
    supplierId: SupplierId, discountPercent: Number, profitDiscountPercent: Option<Number>)

  datatype Customer = Customer(
    discountPercent: Option<Number>, profitDiscountPercent: Option<Number>, supplierDiscounts: seq<SupplierDiscount>)

  datatype CartItem = CartItem(slug: Slug, price: real, qty: int, supplierId: Option<SupplierId>)

  type PriceMap = map<Slug, Number>

  predicate Positive(n: Number) {
    n == PosInf || (n.Finite? && n.value > 0.0)
  }

  predicate OptionPositive(n: Option<Number>) {
    n.Some? && Positive(n.value)
  }

  /** Half up to two decimals. */
  function Round2(x: real): real {
    (x * 100.0 + 0.5).Floor as real / 100.0
  }

  function FindRow(rows: seq<SupplierDiscount>, id: SupplierId): Option<SupplierDiscount> {
    if rows == [] then None
    else if rows[0].supplierId == id then Some(rows[0])
    else FindRow(rows[1..], id)
  }

  /** The off-list percentage before clamping: the supplier's row, else the customer's own. */
  function RawPercent(customer: Customer, row: Option<SupplierDiscount>): Number {
    if row.Some? then
      if OptionPositive(row.value.profitDiscountPercent) then Finite(0.0) else row.value.discountPercent
    else if OptionPositive(customer.profitDiscountPercent) then Finite(0.0)
    else if customer.discountPercent.Some? then customer.discountPercent.value
    else Finite(0.0)
  }

  function Clamp(x: real): real {
    if x < 0.0 then 0.0 else if x > 100.0 then 100.0 else x
  }

  function EffectiveDiscountPercent(customer: Option<Customer>, supplierId: Option<SupplierId>): (percent: real)
    ensures 0.0 <= percent <= 100.0
    ensures customer == None ==> percent == 0.0
  {
    if customer == None then 0.0
    else
      var row := if supplierId.Some? then FindRow(customer.value.supplierDiscounts, supplierId.value) else None;
      var raw := RawPercent(customer.value, row);
      if !raw.Finite? then 0.0 else Clamp(raw.value)
  }

  /** The price the backend quotes for a slug, when it is a positive finite number. */
  function QuotedPrice(prices: Option<PriceMap>, slug: Slug): Option<real> {
    if prices == None || slug.text == "" || slug !in prices.value then None
    else
      var n := prices.value[slug];
      if n.Finite? && n.value > 0.0 then Some(n.value) else None
  }

  function Discounted(price: real, percent: real): real {
    price * (1.0 - percent / 100.0)
  }

  function UnitPrice(item: CartItem, customer: Option<Customer>, prices: Option<PriceMap>): real {
    var quoted := QuotedPrice(prices, item.slug);
    if quoted.Some? then Round2(quoted.value)
    else
      var percent := EffectiveDiscountPercent(customer, item.supplierId);
      if percent <= 0.0 then item.price else Round2(Discounted(item.price, percent))
  }

  /** `items.reduce((sum, item) => sum + w(item), 0)`. */
  function SumOf(w: CartItem -> real, items: seq<CartItem>): real {
    if items == [] then 0.0 else SumOf(w, items[..|items| - 1]) + w(items[|items| - 1])
  }

  function Times(price: real, qty: real): real {
    price * qty
  }

  function LineTotal(customer: Option<Customer>, prices: Option<PriceMap>): CartItem -> real {
    (item: CartItem) => Times(UnitPrice(item, customer, prices), QtyLine(item))
  }

  function ListLine(item: CartItem): real {
    Times(item.price, QtyLine(item))
  }

  function QtyLine(item: CartItem): real {
    item.qty as real
  }

  function Subtotal(items: seq<CartItem>, customer: Option<Customer>, prices: Option<PriceMap>): real {
    SumOf(LineTotal(customer, prices), items)
  }

  function ListTotal(items: seq<CartItem>): real {
    SumOf(ListLine, items)
  }

  // ----- Which entry decides -----

  /** The row found is the supplier's first. */
  lemma {:induction false} FindRowIsFirst(rows: seq<SupplierDiscount>, id: SupplierId, i: nat)
    requires i < |rows| && rows[i].supplierId == id && forall j | 0 <= j < i :: rows[j].supplierId != id
    ensures FindRow(rows, id) == Some(rows[i])
  {
    if i > 0 {
      FindRowIsFirst(rows[1..], id, i - 1);
    }
  }

  lemma {:induction false} FindRowIsNone(rows: seq<SupplierDiscount>, id: SupplierId)
    requires forall r | r in rows :: r.supplierId != id
    ensures FindRow(rows, id) == None
  {
    if rows != [] {
      FindRowIsNone(rows[1..], id);
    }
  }

  /** A profit discount counts when it is greater than zero, however large. */
  lemma PositiveMeans(n: Option<Number>)
    ensures OptionPositive(n) <==> n == Some(PosInf) || exists x :: x > 0.0 && n == Some(Finite(x))
  {
    if n.Some? && n.value.Finite? {
      assert n == Some(Finite(n.value.value));
    }
  }

  /** What a list discount comes to: itself from 0 to 100, the nearer bound beyond, and nothing when it is no number. */
  ghost predicate ComesTo(n: Option<Number>, percent: real) {
    match n
    case Some(Finite(x)) => percent == x || (x < 0.0 && percent == 0.0) || (x > 100.0 && percent == 100.0)
    case _ => percent == 0.0
  }

  /**
   * A supplier's first row decides alone, whatever the other rows and the customer's own discounts: it
   * gives its list discount, or none when it has a profit discount.
   */
  lemma SupplierRowDecides(a: Customer, id: SupplierId, i: nat)
    requires i < |a.supplierDiscounts| && a.supplierDiscounts[i].supplierId == id
    requires forall j | 0 <= j < i :: a.supplierDiscounts[j].supplierId != id
    ensures var row, percent := a.supplierDiscounts[i], EffectiveDiscountPercent(Some(a), Some(id));
      && (OptionPositive(row.profitDiscountPercent) ==> percent == 0.0)
      && (!OptionPositive(row.profitDiscountPercent) ==> ComesTo(Some(row.discountPercent), percent))
  {
    FindRowIsFirst(a.supplierDiscounts, id, i);
  }

  /** Without a row of the supplier the customer's own discounts decide alike. */
  lemma OwnDiscountDecides(a: Customer, supplierId: Option<SupplierId>)
    requires supplierId.Some? ==> forall r | r in a.supplierDiscounts :: r.supplierId != supplierId.value
    ensures var percent := EffectiveDiscountPercent(Some(a), supplierId);
      && (OptionPositive(a.profitDiscountPercent) ==> percent == 0.0)
      && (!OptionPositive(a.profitDiscountPercent) ==> ComesTo(a.discountPercent, percent))
  {
    if supplierId.Some? {
      FindRowIsNone(a.supplierDiscounts, supplierId.value);
    }
  }

  // ----- Rounding -----

  /** A whole number of kuruş. */
  ghost predicate WholeKurus(price: real) {
    price * 100.0 == (price * 100.0).Floor as real
  }

  lemma Round2IsNear(x: real)
    ensures WholeKurus(Round2(x)) && -0.005 < Round2(x) - x <= 0.005
  {
    var n := (x * 100.0 + 0.5).Floor;
    assert n as real <= x * 100.0 + 0.5 < n as real + 1.0;
    WholeIsWhole(n);
  }

  lemma CloseIntegers(m: int, n: int)
    requires -1.0 < m as real - n as real < 1.0
    ensures m == n
  {
  }

  lemma OneWholeNear(y: real, z: real, m: int, n: int)
    requires y * 100.0 == m as real && z * 100.0 == n as real && -0.01 < y - z < 0.01
    ensures y == z
  {
    assert m as real - n as real == (y - z) * 100.0;
    CloseIntegers(m, n);
  }

  /** Rounding gives the nearest whole kuruş, and of two the upper one; nothing else does. */
  lemma Round2IsNearest(x: real, y: real)
    ensures y == Round2(x) <==> WholeKurus(y) && -0.005 < y - x <= 0.005
  {
    Round2IsNear(x);
    if WholeKurus(y) && -0.005 < y - x <= 0.005 {
      OneWholeNear(y, Round2(x), (y * 100.0).Floor, (Round2(x) * 100.0).Floor);
    }
  }

  lemma WholeIsWhole(n: int)
    ensures WholeKurus(n as real / 100.0)
  {
    assert n as real / 100.0 * 100.0 == n as real;
    assert (n as real).Floor == n;
  }

  lemma Round2Monotone(x: real, y: real)
    requires x <= y
    ensures Round2(x) <= Round2(y)
  {
    assert x * 100.0 + 0.5 <= y * 100.0 + 0.5;
    FloorMonotone(x * 100.0 + 0.5, y * 100.0 + 0.5);
  }

  lemma FloorMonotone(x: real, y: real)
    requires x <= y
    ensures x.Floor <= y.Floor
  {
  }

  /** The unit price without rounding. */
  ghost function ExactUnit(item: CartItem, customer: Option<Customer>, prices: Option<PriceMap>): real {
    var quoted := QuotedPrice(prices, item.slug);
    if quoted.Some? then quoted.value
    else Discounted(item.price, EffectiveDiscountPercent(customer, item.supplierId))
  }

  ghost function ExactLine(customer: Option<Customer>, prices: Option<PriceMap>): CartItem -> real {
    (item: CartItem) => Times(ExactUnit(item, customer, prices), QtyLine(item))
  }

  lemma {:induction false} SumsNear(w: CartItem -> real, v: CartItem -> real, items: seq<CartItem>)
    requires forall item | item in items :: -0.005 * QtyLine(item) <= w(item) - v(item) <= 0.005 * QtyLine(item)
    ensures var bound := 0.005 * SumOf(QtyLine, items); -bound <= SumOf(w, items) - SumOf(v, items) <= bound
  {
    if items != [] {
      SumsNear(w, v, items[..|items| - 1]);
      assert items[|items| - 1] in items;
    }
  }

  lemma {:induction false} SumsOrdered(w: CartItem -> real, v: CartItem -> real, items: seq<CartItem>)
    requires forall item | item in items :: w(item) <= v(item)
    ensures SumOf(w, items) <= SumOf(v, items)
  {
    if items != [] {
      SumsOrdered(w, v, items[..|items| - 1]);
      assert items[|items| - 1] in items;
    }
  }

  lemma UnitPriceNearExact(item: CartItem, customer: Option<Customer>, prices: Option<PriceMap>)
    ensures -0.005 <= UnitPrice(item, customer, prices) - ExactUnit(item, customer, prices) <= 0.005
  {
    var quoted := QuotedPrice(prices, item.slug);
    if quoted.Some? {
      Round2IsNear(quoted.value);
    } else {
      Round2IsNear(Discounted(item.price, EffectiveDiscountPercent(customer, item.supplierId)));
    }
  }

  /** The backend quotes a price for the line: its slug has a positive finite entry. */
  predicate Quotes(prices: Option<PriceMap>, slug: Slug, price: real) {
    prices.Some? && slug.text != "" && slug in prices.value && prices.value[slug] == Finite(price) && price > 0.0
  }

  lemma QuotedMeansQuotes(prices: Option<PriceMap>, slug: Slug, price: real)
    ensures QuotedPrice(prices, slug) == Some(price) <==> Quotes(prices, slug, price)
  {
  }

  lemma UnitPriceIsQuoted(item: CartItem, customer: Option<Customer>, prices: Option<PriceMap>, price: real)
    requires Quotes(prices, item.slug, price)
    ensures UnitPrice(item, customer, prices) == Round2(price)
  {
    QuotedMeansQuotes(prices, item.slug, price);
  }

  /** A discounted price is the price less that many hundredths of it. */
  lemma DiscountedIs(price: real, percent: real)
    ensures Discounted(price, percent) == price * (100.0 - percent) / 100.0
  {
  }

  /** Without a quoted price, the list price, less the percentage and then rounded when there is a percentage. */
  lemma UnitPriceIsDiscounted(item: CartItem, customer: Option<Customer>, prices: Option<PriceMap>)
    requires forall price :: !Quotes(prices, item.slug, price)
    ensures var percent := EffectiveDiscountPercent(customer, item.supplierId);
      UnitPrice(item, customer, prices)
        == if percent == 0.0 then item.price else Round2(Discounted(item.price, percent))
  {
    var quoted := QuotedPrice(prices, item.slug);
    if quoted.Some? {
      QuotedMeansQuotes(prices, item.slug, quoted.value);
    }
  }

  lemma {:induction false} SumOfConcat(w: CartItem -> real, a: seq<CartItem>, b: seq<CartItem>)
    ensures SumOf(w, a + b) == SumOf(w, a) + SumOf(w, b)
  {
    if b == [] {
      assert a + b == a;
    } else {
      assert (a + b)[..|a + b| - 1] == a + b[..|b| - 1];
      SumOfConcat(w, a, b[..|b| - 1]);
    }
  }

  lemma SumOfOne(w: CartItem -> real, item: CartItem)
    ensures SumOf(w, [item]) == w(item)
  {
    assert [item][..0] == [];
  }

  /** One line costs its unit price times its quantity, and two carts together cost what they cost apart. */
  lemma SubtotalAddsUp(item: CartItem, a: seq<CartItem>, b: seq<CartItem>, customer: Option<Customer>,
                       prices: Option<PriceMap>)
    ensures Subtotal([], customer, prices) == 0.0
    ensures Subtotal([item], customer, prices) == UnitPrice(item, customer, prices) * item.qty as real
    ensures Subtotal(a + b, customer, prices) == Subtotal(a, customer, prices) + Subtotal(b, customer, prices)
    ensures ListTotal([item]) == item.price * item.qty as real && ListTotal(a + b) == ListTotal(a) + ListTotal(b)
  {
    SumOfConcat(LineTotal(customer, prices), a, b);
    SumOfConcat(ListLine, a, b);
    SumOfOne(LineTotal(customer, prices), item);
    SumOfOne(ListLine, item);
  }

  lemma Product(x: real, y: real)
    requires x >= 0.0 && y >= 0.0
    ensures x * y >= 0.0
  {
  }

  lemma ScaledError(a: real, b: real, q: real)
    requires -0.005 <= a - b <= 0.005 && q >= 0.0
    ensures -0.005 * q <= Times(a, q) - Times(b, q) <= 0.005 * q
  {
    Product(0.005 - (a - b), q);
    Product(a - b + 0.005, q);
    assert (0.005 - (a - b)) * q == 0.005 * q - (a * q - b * q);
    assert (a - b + 0.005) * q == a * q - b * q + 0.005 * q;
  }

  lemma LineNearExact(item: CartItem, customer: Option<Customer>, prices: Option<PriceMap>)
    requires item.qty >= 0
    ensures var w, v := LineTotal(customer, prices), ExactLine(customer, prices);
      -0.005 * QtyLine(item) <= w(item) - v(item) <= 0.005 * QtyLine(item)
  {
    UnitPriceNearExact(item, customer, prices);
    ScaledError(UnitPrice(item, customer, prices), ExactUnit(item, customer, prices), QtyLine(item));
  }

  /** The subtotal is within half a kuruş per piece of the exact discounted total. */
  lemma SubtotalNearExact(items: seq<CartItem>, customer: Option<Customer>, prices: Option<PriceMap>)
    requires forall item | item in items :: item.qty >= 0
    ensures var error := Subtotal(items, customer, prices) - SumOf(ExactLine(customer, prices), items);
      -0.005 * SumOf(QtyLine, items) <= error <= 0.005 * SumOf(QtyLine, items)
  {
    var w, v := LineTotal(customer, prices), ExactLine(customer, prices);
    forall item | item in items ensures -0.005 * QtyLine(item) <= w(item) - v(item) <= 0.005 * QtyLine(item) {
      LineNearExact(item, customer, prices);
    }
    SumsNear(w, v, items);
  }

  /** The discounted price rounds to at most the list price. */
  predicate RoundsWithin(price: real, percent: real) {
    Discounted(price, percent) * 100.0 < (price * 100.0).Floor as real + 0.5
  }

  lemma RoundedWithin(x: real, price: real)
    ensures Round2(x) <= price <==> x * 100.0 < (price * 100.0).Floor as real + 0.5
  {
    var n, k := (x * 100.0 + 0.5).Floor, (price * 100.0).Floor;
    assert Round2(x) <= price <==> n as real <= price * 100.0;
    assert n as real <= price * 100.0 <==> n <= k;
  }

  /** A unit price stays within the list price exactly when there is no discount or it rounds within it. */
  lemma UnitPriceWithinListExactly(item: CartItem, customer: Option<Customer>)
    ensures var p := EffectiveDiscountPercent(customer, item.supplierId);
      UnitPrice(item, customer, None) <= item.price <==> p == 0.0 || RoundsWithin(item.price, p)
  {
    RoundedWithin(Discounted(item.price, EffectiveDiscountPercent(customer, item.supplierId)), item.price);
  }

  /**
   * A larger discount gives no larger unit price exactly when the smaller one is a discount, or neither
   * is, or the larger one rounds within the list price.
   */
  lemma UnitPriceFallsExactly(item: CartItem, less: Option<Customer>, more: Option<Customer>)
    requires item.price >= 0.0
    requires EffectiveDiscountPercent(less, item.supplierId) <= EffectiveDiscountPercent(more, item.supplierId)
    ensures var p := EffectiveDiscountPercent(less, item.supplierId);
      var q := EffectiveDiscountPercent(more, item.supplierId);
      UnitPrice(item, more, None) <= UnitPrice(item, less, None) <==>
      p > 0.0 || q == 0.0 || RoundsWithin(item.price, q)
  {
    var p, q := EffectiveDiscountPercent(less, item.supplierId), EffectiveDiscountPercent(more, item.supplierId);
    if p > 0.0 {
      DiscountedFalls(item.price, p, q);
      Round2Monotone(Discounted(item.price, q), Discounted(item.price, p));
    } else {
      UnitPriceWithinListExactly(item, more);
    }
  }

  lemma WholeRoundsWithin(price: real, percent: real)
    requires price >= 0.0 && WholeKurus(price) && percent >= 0.0
    ensures RoundsWithin(price, percent)
  {
    DiscountedFalls(price, 0.0, percent);
    assert Discounted(price, 0.0) == price;
  }

  /** A larger discount never gives a larger unit price, when list prices are whole kuruş. */
  lemma UnitPriceFallsWithDiscount(item: CartItem, less: Option<Customer>, more: Option<Customer>)
    requires item.price >= 0.0 && WholeKurus(item.price)
    requires EffectiveDiscountPercent(less, item.supplierId) <= EffectiveDiscountPercent(more, item.supplierId)
    ensures UnitPrice(item, more, None) <= UnitPrice(item, less, None) <= item.price
  {
    WholeRoundsWithin(item.price, EffectiveDiscountPercent(less, item.supplierId));
    WholeRoundsWithin(item.price, EffectiveDiscountPercent(more, item.supplierId));
    UnitPriceFallsExactly(item, less, more);
    UnitPriceWithinListExactly(item, less);
  }

  lemma DiscountedFalls(price: real, p: real, q: real)
    requires price >= 0.0 && p <= q
    ensures Discounted(price, q) <= Discounted(price, p)
  {
    assert Discounted(price, p) - Discounted(price, q) == price * (q / 100.0 - p / 100.0);
  }

  ghost predicate WholeListPrices(items: seq<CartItem>) {
    forall item | item in items :: item.qty >= 0 && item.price >= 0.0 && WholeKurus(item.price)
  }

  lemma ScaledOrder(a: real, b: real, q: real)
    requires a <= b && q >= 0.0
    ensures Times(a, q) <= Times(b, q)
  {
    assert (b - a) * q == b * q - a * q;
  }

  lemma LineFallsWithDiscount(item: CartItem, less: Option<Customer>, more: Option<Customer>)
    requires item.qty >= 0 && item.price >= 0.0 && WholeKurus(item.price)
    requires EffectiveDiscountPercent(less, item.supplierId) <= EffectiveDiscountPercent(more, item.supplierId)
    ensures LineTotal(more, None)(item) <= LineTotal(less, None)(item) <= ListLine(item)
  {
    UnitPriceFallsWithDiscount(item, less, more);
    ScaledOrder(UnitPrice(item, more, None), UnitPrice(item, less, None), QtyLine(item));
    ScaledOrder(UnitPrice(item, less, None), item.price, QtyLine(item));
  }

  /** The subtotal never exceeds the list total and never rises when discounts rise. */
  lemma SubtotalFallsWithDiscount(items: seq<CartItem>, less: Option<Customer>, more: Option<Customer>)
    requires WholeListPrices(items)
    requires forall item | item in items ::
               EffectiveDiscountPercent(less, item.supplierId) <= EffectiveDiscountPercent(more, item.supplierId)
    ensures Subtotal(items, more, None) <= Subtotal(items, less, None) <= ListTotal(items)
  {
    forall item | item in items
      ensures LineTotal(more, None)(item) <= LineTotal(less, None)(item) <= ListLine(item)
    {
      LineFallsWithDiscount(item, less, more);
    }
    SumsOrdered(LineTotal(more, None), LineTotal(less, None), items);
    SumsOrdered(LineTotal(less, None), ListLine, items);
  }

  /** A cart line with a fraction of a kuruş in its list price, which one percent off makes dearer. */
  lemma DiscountCanRaiseFractionalPrice(slug: Slug)
    ensures var item := CartItem(slug, 0.006, 1, None);
      UnitPrice(item, Some(Customer(Some(Finite(1.0)), None, [])), None) > item.price
  {
    var item := CartItem(slug, 0.006, 1, None);
    UnitPriceWithinListExactly(item, Some(Customer(Some(Finite(1.0)), None, [])));
    assert Discounted(0.006, 1.0) * 100.0 == 0.594 && (0.006 * 100.0).Floor == 0;
  }
}
