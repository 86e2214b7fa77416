/** The cart store: lines with distinct slugs and quantities from 1 to 99. */
module Cart {
  import opened DealerPricing
  import opened Products

  const MAX_QTY := 99

  // ----- The store -----

  /** `Math.max(1, Math.min(MAX_QTY, Math.floor(qty)))` for a finite quantity. */
  function SafeQty(qty: real): (q: int)
    ensures 1 <= q <= MAX_QTY
    ensures 1.0 <= qty <= MAX_QTY as real ==> q as real <= qty < q as real + 1.0
    ensures (qty < 1.0 ==> q == 1) && (qty > MAX_QTY as real ==> q == MAX_QTY)
  {
    if qty.Floor < 1 then 1 else if qty.Floor > MAX_QTY then MAX_QTY else qty.Floor
  }

  ghost predicate ValidCart(items: seq<CartItem>) {
    && (forall i, j | 0 <= i < j < |items| :: items[i].slug != items[j].slug)
    && (forall i | 0 <= i < |items| :: 1 <= items[i].qty <= MAX_QTY)
  }

  function IndexOfSlug(items: seq<CartItem>, slug: Slug): (i: nat)
    ensures i <= |items|
    ensures i < |items| ==> items[i].slug == slug
    ensures forall j | 0 <= j < i :: items[j].slug != slug
  {
    if items == [] || items[0].slug == slug then 0 else 1 + IndexOfSlug(items[1..], slug)
  }

  /** The quantity of a slug; zero when it is not in the cart. */
  function QtyOf(items: seq<CartItem>, slug: Slug): int {
    var i := IndexOfSlug(items, slug);
    if i < |items| then items[i].qty else 0
  }

  function Min(a: int, b: int): int {
    if a < b then a else b
  }

  /** `items.map(i => i.slug === slug ? { ...i, qty: change(i.qty) } : i)`. */
  function WithQty(items: seq<CartItem>, slug: Slug, change: int -> int): seq<CartItem> {
    seq(|items|, k requires 0 <= k < |items| =>
      if items[k].slug == slug then items[k].(qty := change(items[k].qty)) else items[k])
  }

  /** `items.filter(i => i.slug !== slug)`. */
  function Without(items: seq<CartItem>, slug: Slug): seq<CartItem> {
    if items == [] then []
    else Without(items[..|items| - 1], slug) + if items[|items| - 1].slug == slug then [] else [items[|items| - 1]]
  }

  class CartStore {
    var items: seq<CartItem>

    constructor ()
      ensures items == [] && ValidCart(items)
    {
      items := [];
    }

    /** `line` is the product as `toCartItem` makes it, with any quantity. */
    method Add(line: CartItem, qty: real)
      requires ValidCart(items)
      modifies this
      ensures ValidCart(items)
      ensures var sum := old(QtyOf(items, line.slug)) + SafeQty(qty);
        QtyOf(items, line.slug) == if sum <= 99 then sum else 99
      ensures forall slug | slug != line.slug :: QtyOf(items, slug) == old(QtyOf(items, slug))
      ensures old(QtyOf(items, line.slug)) == 0 ==> items == old(items) + [line.(qty := SafeQty(qty))]
      ensures old(QtyOf(items, line.slug)) != 0 ==> SameLines(items, old(items))
    {
      var safe := SafeQty(qty);
      var i := IndexOfSlug(items, line.slug);
      if i < |items| {
        var change := (q: int) => Min(MAX_QTY, q + safe);
        assert change(items[i].qty) == Min(MAX_QTY, items[i].qty + safe);
        UpdateQty(items, i, change);
        items := WithQty(items, line.slug, change);
      } else {
        AppendLine(items, line.(qty := safe));
        items := items + [line.(qty := safe)];
      }
    }

    method Remove(slug: Slug)
      requires ValidCart(items)
      modifies this
      ensures ValidCart(items) && QtyOf(items, slug) == 0
      ensures var i := IndexOfSlug(old(items), slug);
        items == if i < |old(items)| then old(items)[..i] + old(items)[i + 1..] else old(items)
      ensures forall other | other != slug :: QtyOf(items, other) == old(QtyOf(items, other))
    {
      RemoveLine(items, slug);
      WithoutIsCut(items, slug);
      items := Without(items, slug);
    }

    method SetQty(slug: Slug, qty: real)
      requires ValidCart(items)
      modifies this
      ensures ValidCart(items) && SameLines(items, old(items))
      ensures QtyOf(items, slug) == if old(QtyOf(items, slug)) == 0 then 0 else SafeQty(qty)
      ensures forall other | other != slug :: QtyOf(items, other) == old(QtyOf(items, other))
    {
      var safe := SafeQty(qty);
      var change := (q: int) => safe;
      var i := IndexOfSlug(items, slug);
      if i < |items| {
        UpdateQty(items, i, change);
      } else {
        assert WithQty(items, slug, change) == items;
      }
      items := WithQty(items, slug, change);
    }

    method Clear()
      modifies this
      ensures items == [] && ValidCart(items)
    {
      items := [];
    }

    method Total() returns (total: real)
      ensures total == ListTotal(items)
    {
      total := 0.0;
      for i := 0 to |items|
        invariant total == SumOf(ListLine, items[..i])
      {
        assert items[..i + 1][..i] == items[..i];
        total := total + ListLine(items[i]);
      }
      assert items[..|items|] == items;
    }

    method Count() returns (count: int)
      ensures count as real == SumOf(QtyLine, items)
    {
      count := 0;
      for i := 0 to |items|
        invariant count as real == SumOf(QtyLine, items[..i])
      {
        assert items[..i + 1][..i] == items[..i];
        count := count + items[i].qty;
      }
      assert items[..|items|] == items;
    }
  }

  /** The same lines in the same order, whatever their quantities. */
  ghost predicate SameLines(a: seq<CartItem>, b: seq<CartItem>) {
    |a| == |b| && forall i | 0 <= i < |a| :: a[i].(qty := 0) == b[i].(qty := 0)
  }

  lemma IndexIs(items: seq<CartItem>, i: nat)
    requires ValidCart(items) && i < |items|
    ensures IndexOfSlug(items, items[i].slug) == i
  {
  }

  lemma UpdateQty(items: seq<CartItem>, i: nat, change: int -> int)
    requires ValidCart(items) && i < |items| && 1 <= change(items[i].qty) <= MAX_QTY
    ensures var items' := WithQty(items, items[i].slug, change);
      && ValidCart(items') && SameLines(items', items)
      && QtyOf(items', items[i].slug) == change(items[i].qty)
      && forall slug | slug != items[i].slug :: QtyOf(items', slug) == QtyOf(items, slug)
  {
    var items' := WithQty(items, items[i].slug, change);
    assert items' == items[i := items[i].(qty := change(items[i].qty))];
    IndexIs(items', i);
    forall slug | slug != items[i].slug ensures QtyOf(items', slug) == QtyOf(items, slug) {
      var j := IndexOfSlug(items, slug);
      if j < |items| {
        IndexIs(items', j);
      }
    }
  }

  lemma AppendLine(items: seq<CartItem>, line: CartItem)
    requires ValidCart(items) && 1 <= line.qty <= MAX_QTY && IndexOfSlug(items, line.slug) == |items|
    ensures var items' := items + [line];
      && ValidCart(items')
      && QtyOf(items', line.slug) == line.qty
      && forall slug | slug != line.slug :: QtyOf(items', slug) == QtyOf(items, slug)
  {
    var items' := items + [line];
    IndexIs(items', |items|);
    forall slug | slug != line.slug ensures QtyOf(items', slug) == QtyOf(items, slug) {
      var j := IndexOfSlug(items, slug);
      if j < |items| {
        IndexIs(items', j);
      }
    }
  }

  lemma {:induction false} WithoutMembers(items: seq<CartItem>, slug: Slug)
    ensures forall item :: item in Without(items, slug) <==> item in items && item.slug != slug
  {
    if items != [] {
      WithoutMembers(items[..|items| - 1], slug);
      assert items == items[..|items| - 1] + [items[|items| - 1]];
    }
  }

  lemma {:induction false} WithoutValid(items: seq<CartItem>, slug: Slug)
    requires ValidCart(items)
    ensures ValidCart(Without(items, slug))
  {
    if items != [] {
      var front, last := items[..|items| - 1], items[|items| - 1];
      WithoutValid(front, slug);
      WithoutMembers(front, slug);
      var rest := Without(front, slug);
      forall k | 0 <= k < |rest| ensures rest[k].slug != last.slug {
        assert rest[k] in front;
      }
    }
  }

  lemma {:induction false} NothingToRemove(items: seq<CartItem>, slug: Slug)
    requires forall k | 0 <= k < |items| :: items[k].slug != slug
    ensures Without(items, slug) == items
  {
    if items != [] {
      NothingToRemove(items[..|items| - 1], slug);
    }
  }

  lemma {:induction false} CutOneLine(items: seq<CartItem>, slug: Slug, i: nat)
    requires i < |items| && items[i].slug == slug
    requires forall k | 0 <= k < |items| && k != i :: items[k].slug != slug
    ensures Without(items, slug) == items[..i] + items[i + 1..]
  {
    var front := items[..|items| - 1];
    if i == |front| {
      NothingToRemove(front, slug);
      assert items[..i] + items[i + 1..] == front;
    } else {
      CutOneLine(front, slug, i);
      assert front[i + 1..] + [items[|front|]] == items[i + 1..];
    }
  }

  lemma OnlyLine(items: seq<CartItem>, slug: Slug, i: nat)
    requires ValidCart(items) && i < |items| && items[i].slug == slug
    ensures forall k | 0 <= k < |items| && k != i :: items[k].slug != slug
  {
  }

  /** Filtering a slug out cuts its one line out of the cart and keeps the order of the others. */
  lemma WithoutIsCut(items: seq<CartItem>, slug: Slug)
    requires ValidCart(items)
    ensures var i := IndexOfSlug(items, slug);
      Without(items, slug) == if i < |items| then items[..i] + items[i + 1..] else items
  {
    var i := IndexOfSlug(items, slug);
    if i < |items| {
      OnlyLine(items, slug, i);
      CutOneLine(items, slug, i);
    } else {
      NothingToRemove(items, slug);
    }
  }

  /** In a valid cart the quantity of a slug is that of its one line. */
  lemma QtyOfMember(items: seq<CartItem>, item: CartItem)
    requires ValidCart(items) && item in items
    ensures QtyOf(items, item.slug) == item.qty
  {
    var i :| 0 <= i < |items| && items[i] == item;
    IndexIs(items, i);
  }

  lemma RemoveLine(items: seq<CartItem>, slug: Slug)
    requires ValidCart(items)
    ensures var items' := Without(items, slug);
      && ValidCart(items') && QtyOf(items', slug) == 0
      && forall other | other != slug :: QtyOf(items', other) == QtyOf(items, other)
  {
    var items' := Without(items, slug);
    WithoutMembers(items, slug);
    WithoutValid(items, slug);
    forall other ensures QtyOf(items', other) == if other == slug then 0 else QtyOf(items, other) {
      var i, j := IndexOfSlug(items, other), IndexOfSlug(items', other);
      assert i < |items| && other != slug ==> items[i] in items';
      if j < |items'| {
        QtyOfMember(items', items'[j]);
        QtyOfMember(items, items'[j]);
      }
    }
  }
}
