/** The split of a cart into one package per supplier. */
module CartSplit {
  import opened DealerPricing
  import opened Options
  import opened Sequences

  type Order = (SupplierId, SupplierId) -> bool

  const UNKNOWN_SUPPLIER := SupplierId("__unknown__")

  function KeyOf(item: CartItem): SupplierId {
    if item.supplierId.Some? then item.supplierId.value else UNKNOWN_SUPPLIER
  }

  /** Two lines share a package exactly when they share the supplier, no supplier counting as the unknown one. */
  lemma SamePackageExactly(a: CartItem, b: CartItem)
    ensures KeyOf(a) == KeyOf(b) <==>
      || a.supplierId == b.supplierId
      || (a.supplierId == None && b.supplierId == Some(SupplierId("__unknown__")))
      || (b.supplierId == None && a.supplierId == Some(SupplierId("__unknown__")))
  {
    assert a.supplierId.Some? && b.supplierId.Some? && a.supplierId.value == b.supplierId.value ==>
      a.supplierId == b.supplierId;
  }

  datatype Group = Group(supplierId: SupplierId, index: nat, items: seq<CartItem>, totalQty: int, subtotal: real)

  /** The comparison of keys, as a total order without ties. */
  ghost predicate TotalOrder(le: Order) {
    && (forall a, b :: le(a, b) || le(b, a))
    && (forall a, b :: le(a, b) && le(b, a) ==> a == b)
    && (forall a, b, c :: le(a, b) && le(b, c) ==> le(a, c))
  }

  // ----- Reference definitions -----

  /** The lines of one supplier, in cart order. */
  function LinesOf(items: seq<CartItem>, key: SupplierId): seq<CartItem> {
    if items == [] then []
    else
      var last := items[|items| - 1];
      LinesOf(items[..|items| - 1], key) + if KeyOf(last) == key then [last] else []
  }

  function KeySet(items: seq<CartItem>): set<SupplierId> {
    set item | item in items :: KeyOf(item)
  }

  function Insert(le: Order, key: SupplierId, keys: seq<SupplierId>): seq<SupplierId> {
    if keys == [] || le(key, keys[0]) then [key] + keys else [keys[0]] + Insert(le, key, keys[1..])
  }

  function Sort(le: Order, keys: seq<SupplierId>): seq<SupplierId> {
    if keys == [] then [] else Insert(le, keys[0], Sort(le, keys[1..]))
  }

  ghost predicate Sorted(le: Order, keys: seq<SupplierId>) {
    forall i, j | 0 <= i < j < |keys| :: le(keys[i], keys[j])
  }

  ghost predicate Lists(keys: seq<SupplierId>, all: set<SupplierId>) {
    Distinct(keys) && forall key :: key in keys <==> key in all
  }

  lemma {:induction false} InsertKeepsOrder(le: Order, key: SupplierId, keys: seq<SupplierId>)
    requires TotalOrder(le) && Sorted(le, keys) && Distinct(keys) && key !in keys
    ensures var r := Insert(le, key, keys);
      Sorted(le, r) && Distinct(r) && forall k :: k in r <==> k == key || k in keys
  {
    if keys != [] && !le(key, keys[0]) {
      InsertKeepsOrder(le, key, keys[1..]);
      assert keys == [keys[0]] + keys[1..];
      var rest := Insert(le, key, keys[1..]);
      forall i | 0 <= i < |rest| ensures le(keys[0], rest[i]) && keys[0] != rest[i] {
        assert rest[i] in rest;
      }
    }
  }

  lemma {:induction false} SortLists(le: Order, keys: seq<SupplierId>, all: set<SupplierId>)
    requires TotalOrder(le) && Lists(keys, all)
    ensures Sorted(le, Sort(le, keys)) && Lists(Sort(le, keys), all)
  {
    if keys != [] {
      assert keys == [keys[0]] + keys[1..];
      SortLists(le, keys[1..], all - {keys[0]});
      InsertKeepsOrder(le, keys[0], Sort(le, keys[1..]));
    }
  }

  /** A set of keys has one sorted listing. */
  lemma {:induction false} SortedIsUnique(le: Order, a: seq<SupplierId>, b: seq<SupplierId>, all: set<SupplierId>)
    requires TotalOrder(le) && Sorted(le, a) && Sorted(le, b) && Lists(a, all) && Lists(b, all)
    ensures a == b
    decreases |a|
  {
    assert a != [] ==> a[0] in a;
    assert b != [] ==> b[0] in b;
    if a != [] {
      assert a == [a[0]] + a[1..] && b == [b[0]] + b[1..];
      SortedIsUnique(le, a[1..], b[1..], all - {a[0]});
    }
  }

  // ----- Sums over groups -----

  /** The groups' sums of `w`, added up. */
  function SumOfGroups(w: CartItem -> real, keys: seq<SupplierId>, items: seq<CartItem>): real {
    if keys == [] then 0.0 else SumOf(w, LinesOf(items, keys[0])) + SumOfGroups(w, keys[1..], items)
  }

  lemma {:induction false} SumOfNoLines(w: CartItem -> real, keys: seq<SupplierId>)
    ensures SumOfGroups(w, keys, []) == 0.0
  {
    if keys != [] {
      SumOfNoLines(w, keys[1..]);
    }
  }

  /** One more line adds its weight to the one group with its key. */
  lemma {:induction false} SumOfGroupsGrows(w: CartItem -> real, keys: seq<SupplierId>, items: seq<CartItem>,
                                            last: CartItem)
    requires Distinct(keys)
    ensures SumOfGroups(w, keys, items + [last])
         == SumOfGroups(w, keys, items) + if KeyOf(last) in keys then w(last) else 0.0
  {
    if keys != [] {
      SumOfGroupsGrows(w, keys[1..], items, last);
      LinesGrow(items, last, keys[0]);
      SumGrows(w, LinesOf(items, keys[0]), last);
      assert keys == [keys[0]] + keys[1..];
    }
  }

  lemma LinesGrow(items: seq<CartItem>, last: CartItem, key: SupplierId)
    ensures LinesOf(items + [last], key) == LinesOf(items, key) + if KeyOf(last) == key then [last] else []
  {
    assert (items + [last])[..|items|] == items;
  }

  lemma SumGrows(w: CartItem -> real, items: seq<CartItem>, last: CartItem)
    ensures SumOf(w, items + [last]) == SumOf(w, items) + w(last)
    ensures SumOf(w, items + []) == SumOf(w, items)
  {
    assert (items + [last])[..|items|] == items && items + [] == items;
  }

  /** Whatever is added up over the lines adds up to the same over the groups. */
  lemma {:induction false} GroupsSumToWhole(w: CartItem -> real, keys: seq<SupplierId>, items: seq<CartItem>)
    requires Distinct(keys) && forall item | item in items :: KeyOf(item) in keys
    ensures SumOfGroups(w, keys, items) == SumOf(w, items)
  {
    if items == [] {
      SumOfNoLines(w, keys);
    } else {
      var front, last := items[..|items| - 1], items[|items| - 1];
      assert items == front + [last];
      GroupsSumToWhole(w, keys, front);
      SumOfGroupsGrows(w, keys, front, last);
    }
  }

  // ----- Permuted carts -----

  lemma {:induction false} LinesMultiset(items: seq<CartItem>, key: SupplierId, item: CartItem)
    ensures multiset(LinesOf(items, key))[item] == if KeyOf(item) == key then multiset(items)[item] else 0
  {
    if items != [] {
      var front, last := items[..|items| - 1], items[|items| - 1];
      LinesMultiset(front, key, item);
      assert items == front + [last];
    }
  }

  lemma {:induction false} SumAfterRemoval(w: CartItem -> real, items: seq<CartItem>, i: nat)
    requires i < |items|
    ensures SumOf(w, items) == SumOf(w, items[..i] + items[i + 1..]) + w(items[i])
  {
    var front, last := items[..|items| - 1], items[|items| - 1];
    if i < |front| {
      SumAfterRemoval(w, front, i);
      var rest := front[..i] + front[i + 1..];
      SumGrows(w, rest, last);
      assert items[..i] + items[i + 1..] == rest + [last];
    } else {
      assert items[..i] + items[i + 1..] == front;
    }
  }

  /** A sum does not depend on the order of the lines. */
  lemma {:induction false} SumOfPermuted(w: CartItem -> real, a: seq<CartItem>, b: seq<CartItem>)
    requires multiset(a) == multiset(b)
    ensures SumOf(w, a) == SumOf(w, b)
    decreases |a|
  {
    assert |multiset(a)| == |a| && |multiset(b)| == |b|;
    if a != [] {
      var front, last := a[..|a| - 1], a[|a| - 1];
      assert a == front + [last];
      assert last in multiset(b);
      var i :| 0 <= i < |b| && b[i] == last;
      RemoveOne(a, |a| - 1);
      RemoveOne(b, i);
      assert front == a[..|a| - 1] + a[|a|..];
      SumAfterRemoval(w, b, i);
      SumOfPermuted(w, front, b[..i] + b[i + 1..]);
    }
  }

  lemma RemoveOne(items: seq<CartItem>, i: nat)
    requires i < |items|
    ensures multiset(items[..i] + items[i + 1..]) == multiset(items) - multiset{items[i]}
  {
    assert items == items[..i] + [items[i]] + items[i + 1..];
  }

  lemma LinesPermuted(a: seq<CartItem>, b: seq<CartItem>, key: SupplierId)
    requires multiset(a) == multiset(b)
    ensures multiset(LinesOf(a, key)) == multiset(LinesOf(b, key))
  {
    forall item ensures multiset(LinesOf(a, key))[item] == multiset(LinesOf(b, key))[item] {
      LinesMultiset(a, key, item);
      LinesMultiset(b, key, item);
    }
  }

  // ----- The split -----

  function GroupFor(items: seq<CartItem>, customer: Option<Customer>, prices: Option<PriceMap>,
                    key: SupplierId, index: nat): Group {
    var lines := LinesOf(items, key);
    Group(key, index, lines, SumQty(lines), Subtotal(lines, customer, prices))
  }

  function SumQty(items: seq<CartItem>): int {
    if items == [] then 0 else SumQty(items[..|items| - 1]) + items[|items| - 1].qty
  }

  lemma {:induction false} SumQtyIsSum(items: seq<CartItem>)
    ensures SumQty(items) as real == SumOf(QtyLine, items)
  {
    if items != [] {
      SumQtyIsSum(items[..|items| - 1]);
    }
  }

  /** `byId` holds the lines of each key met, in order, and `keys` the keys in order of first appearance. */
  ghost predicate Bucketed(items: seq<CartItem>, keys: seq<SupplierId>, byId: map<SupplierId, seq<CartItem>>) {
    && Lists(keys, byId.Keys)
    && forall key {:trigger BucketOf(items, byId, key)} :: BucketOf(items, byId, key)
  }

  ghost predicate BucketOf(items: seq<CartItem>, byId: map<SupplierId, seq<CartItem>>, key: SupplierId) {
    && (key in byId ==> byId[key] != [])
    && LinesOf(items, key) == if key in byId then byId[key] else []
  }

  /** One turn of the grouping loop. */
  function Pushed(item: CartItem, keys: seq<SupplierId>, byId: map<SupplierId, seq<CartItem>>)
    : (seq<SupplierId>, map<SupplierId, seq<CartItem>>)
  {
    var key := KeyOf(item);
    if key in byId then (keys, byId[key := byId[key] + [item]]) else (keys + [key], byId[key := [item]])
  }

  lemma BucketedNext(items: seq<CartItem>, i: nat, keys: seq<SupplierId>, byId: map<SupplierId, seq<CartItem>>)
    requires i < |items| && Bucketed(items[..i], keys, byId)
    ensures var next := Pushed(items[i], keys, byId); Bucketed(items[..i + 1], next.0, next.1)
  {
    BucketedGrows(items[..i], keys, byId, items[i]);
    assert items[..i + 1] == items[..i] + [items[i]];
  }

  lemma BucketedGrows(items: seq<CartItem>, keys: seq<SupplierId>, byId: map<SupplierId, seq<CartItem>>, last: CartItem)
    requires Bucketed(items, keys, byId)
    ensures var next := Pushed(last, keys, byId); Bucketed(items + [last], next.0, next.1)
  {
    var next := Pushed(last, keys, byId);
    assert next.1.Keys == byId.Keys + {KeyOf(last)};
    forall key ensures BucketOf(items + [last], next.1, key) {
      assert BucketOf(items, byId, key);
      LinesGrow(items, last, key);
    }
  }

  lemma BucketedKeys(items: seq<CartItem>, keys: seq<SupplierId>, byId: map<SupplierId, seq<CartItem>>)
    requires Bucketed(items, keys, byId)
    ensures byId.Keys == KeySet(items)
  {
    forall key ensures key in byId <==> key in KeySet(items) {
      assert BucketOf(items, byId, key);
      KeysHaveLines(items, key);
    }
  }

  lemma {:induction false} KeysHaveLines(items: seq<CartItem>, key: SupplierId)
    ensures key in KeySet(items) <==> LinesOf(items, key) != []
  {
    if items != [] {
      var front, last := items[..|items| - 1], items[|items| - 1];
      KeysHaveLines(front, key);
      assert items == front + [last];
      assert KeySet(items) == KeySet(front) + {KeyOf(last)};
    }
  }

  /** The groups of a cart: one for each key, numbered in key order, each with its own lines. */
  ghost predicate IsSplit(items: seq<CartItem>, customer: Option<Customer>, prices: Option<PriceMap>,
                          groups: seq<Group>) {
    && Lists(Ids(groups), KeySet(items))
    && forall i | 0 <= i < |groups| :: groups[i] == GroupFor(items, customer, prices, Ids(groups)[i], i + 1)
  }

  function Ids(groups: seq<Group>): (ids: seq<SupplierId>)
    ensures |ids| == |groups|
  {
    seq(|groups|, i requires 0 <= i < |groups| => groups[i].supplierId)
  }

  method PushLine(item: CartItem, keys: seq<SupplierId>, byId: map<SupplierId, seq<CartItem>>)
    returns (keys': seq<SupplierId>, byId': map<SupplierId, seq<CartItem>>)
    ensures (keys', byId') == Pushed(item, keys, byId)
  {
    var key := KeyOf(item);
    keys', byId' := keys, byId;
    if key in byId {
      byId' := byId[key := byId[key] + [item]];
    } else {
      byId' := byId[key := [item]];
      keys' := keys + [key];
    }
  }

  method BucketLines(items: seq<CartItem>) returns (order: seq<SupplierId>, byId: map<SupplierId, seq<CartItem>>)
    ensures Bucketed(items, order, byId)
  {
    order, byId := [], map[];
    for i := 0 to |items|
      invariant Bucketed(items[..i], order, byId)
    {
      BucketedNext(items, i, order, byId);
      order, byId := PushLine(items[i], order, byId);
    }
    assert items[..|items|] == items;
  }

  method NumberGroups(items: seq<CartItem>, customer: Option<Customer>, prices: Option<PriceMap>,
                      sortedKeys: seq<SupplierId>, byId: map<SupplierId, seq<CartItem>>)
    returns (groups: seq<Group>)
    requires forall key | key in sortedKeys :: key in byId && byId[key] == LinesOf(items, key)
    ensures |groups| == |sortedKeys|
    ensures forall k | 0 <= k < |groups| :: groups[k] == GroupFor(items, customer, prices, sortedKeys[k], k + 1)
  {
    groups := [];
    for i := 0 to |sortedKeys|
      invariant |groups| == i
      invariant forall k | 0 <= k < i :: groups[k] == GroupFor(items, customer, prices, sortedKeys[k], k + 1)
    {
      var group := byId[sortedKeys[i]];
      groups := groups + [Group(sortedKeys[i], i + 1, group, SumQty(group), Subtotal(group, customer, prices))];
    }
  }

  method SplitCartBySupplier(items: seq<CartItem>, customer: Option<Customer>, prices: Option<PriceMap>, le: Order)
    returns (groups: seq<Group>)
    requires TotalOrder(le)
    ensures IsSplit(items, customer, prices, groups) && Sorted(le, Ids(groups))
  {
    if items == [] {
      return [];
    }
    var order, byId := BucketLines(items);
    BucketedKeys(items, order, byId);
    SortLists(le, order, byId.Keys);
    var sortedKeys := Sort(le, order);
    forall key | key in sortedKeys ensures key in byId && byId[key] == LinesOf(items, key) {
      assert BucketOf(items, byId, key);
    }
    groups := NumberGroups(items, customer, prices, sortedKeys, byId);
    assert Ids(groups) == sortedKeys;
  }

  method CountDistinctSuppliers(items: seq<CartItem>) returns (count: nat)
    ensures count == |KeySet(items)|
  {
    var keys := {};
    for i := 0 to |items|
      invariant keys == KeySet(items[..i])
    {
      assert items[..i + 1] == items[..i] + [items[i]];
      keys := keys + {KeyOf(items[i])};
    }
    assert items[..|items|] == items;
    count := |keys|;
  }

  // ----- What the split guarantees -----

  lemma {:induction false} ListingSize(keys: seq<SupplierId>, all: set<SupplierId>)
    requires Lists(keys, all)
    ensures |keys| == |all|
  {
    if keys == [] {
      assert all == {};
    } else {
      assert keys == [keys[0]] + keys[1..];
      ListingSize(keys[1..], all - {keys[0]});
    }
  }

  /** A line is as often in its supplier's group as in the cart, and in no other group. */
  predicate HoldsOwnLines(items: seq<CartItem>, g: Group, item: CartItem) {
    multiset(g.items)[item] == if g.supplierId == KeyOf(item) then multiset(items)[item] else 0
  }

  lemma GroupHoldsOwnLines(items: seq<CartItem>, customer: Option<Customer>, prices: Option<PriceMap>,
                           groups: seq<Group>, item: CartItem, i: nat)
    requires IsSplit(items, customer, prices, groups) && i < |groups|
    ensures HoldsOwnLines(items, groups[i], item)
  {
    LinesMultiset(items, Ids(groups)[i], item);
  }

  lemma LineHasGroup(items: seq<CartItem>, groups: seq<Group>, item: CartItem)
    requires Lists(Ids(groups), KeySet(items)) && item in items
    ensures exists i :: 0 <= i < |groups| && groups[i].supplierId == KeyOf(item)
  {
    assert KeyOf(item) in Ids(groups);
    var i :| 0 <= i < |groups| && Ids(groups)[i] == KeyOf(item);
    assert groups[i].supplierId == KeyOf(item);
  }

  /** There are as many groups as distinct suppliers, and every line is in the one group with its key. */
  lemma SplitIsPartition(items: seq<CartItem>, customer: Option<Customer>, prices: Option<PriceMap>,
                         groups: seq<Group>, item: CartItem)
    requires IsSplit(items, customer, prices, groups)
    ensures |groups| == |KeySet(items)|
    ensures forall i | 0 <= i < |groups| :: HoldsOwnLines(items, groups[i], item)
    ensures item in items ==> exists i :: 0 <= i < |groups| && groups[i].supplierId == KeyOf(item)
    ensures forall i, j | 0 <= i < j < |groups| :: groups[i].supplierId != groups[j].supplierId
    ensures forall i | 0 <= i < |groups| :: groups[i].index == i + 1
  {
    ListingSize(Ids(groups), KeySet(items));
    forall i | 0 <= i < |groups| ensures HoldsOwnLines(items, groups[i], item) {
      GroupHoldsOwnLines(items, customer, prices, groups, item, i);
    }
    if item in items {
      LineHasGroup(items, groups, item);
    }
    forall i, j | 0 <= i < j < |groups| ensures groups[i].supplierId != groups[j].supplierId {
      assert Ids(groups)[i] != Ids(groups)[j];
    }
  }

  lemma LineInGroup(items: seq<CartItem>, customer: Option<Customer>, prices: Option<PriceMap>,
                    groups: seq<Group>, item: CartItem, i: nat)
    requires IsSplit(items, customer, prices, groups) && i < |groups|
    ensures item in groups[i].items <==> item in items && groups[i].supplierId == KeyOf(item)
  {
    GroupHoldsOwnLines(items, customer, prices, groups, item, i);
    assert item in groups[i].items <==> multiset(groups[i].items)[item] > 0;
    assert item in items <==> multiset(items)[item] > 0;
  }

  /** Two lines are in one group exactly when they have the same key. */
  lemma GroupsSeparateSuppliers(items: seq<CartItem>, customer: Option<Customer>, prices: Option<PriceMap>,
                                groups: seq<Group>, a: CartItem, b: CartItem)
    requires IsSplit(items, customer, prices, groups) && a in items && b in items
    ensures (exists i | 0 <= i < |groups| :: a in groups[i].items && b in groups[i].items) <==> KeyOf(a) == KeyOf(b)
  {
    LineHasGroup(items, groups, a);
    var i :| 0 <= i < |groups| && groups[i].supplierId == KeyOf(a);
    forall k | 0 <= k < |groups|
      ensures a in groups[k].items <==> groups[k].supplierId == KeyOf(a)
      ensures b in groups[k].items <==> groups[k].supplierId == KeyOf(b)
    {
      LineInGroup(items, customer, prices, groups, a, k);
      LineInGroup(items, customer, prices, groups, b, k);
    }
    assert a in groups[i].items;
  }

  /** A group's lines are in cart order: those of two stretches of a cart follow each other. */
  lemma {:induction false} LinesInCartOrder(a: seq<CartItem>, b: seq<CartItem>, key: SupplierId)
    ensures LinesOf(a + b, key) == LinesOf(a, key) + LinesOf(b, key)
  {
    if b == [] {
      assert a + b == a;
    } else {
      var front, last := b[..|b| - 1], b[|b| - 1];
      LinesInCartOrder(a, front, key);
      LinesGrow(a + front, last, key);
      LinesGrow(front, last, key);
      assert a + b == (a + front) + [last] && b == front + [last];
    }
  }

  /** A group's quantity and subtotal are those of a cart of its lines alone. */
  lemma GroupCountsItsLines(items: seq<CartItem>, customer: Option<Customer>, prices: Option<PriceMap>,
                            groups: seq<Group>, g: Group)
    requires IsSplit(items, customer, prices, groups) && g in groups
    ensures g.totalQty as real == SumOf(QtyLine, g.items) && g.subtotal == Subtotal(g.items, customer, prices)
  {
    var i :| 0 <= i < |groups| && groups[i] == g;
    SumQtyIsSum(LinesOf(items, Ids(groups)[i]));
  }

  function TotalOfGroups(groups: seq<Group>): (int, real) {
    if groups == [] then (0, 0.0)
    else
      var rest := TotalOfGroups(groups[1..]);
      (groups[0].totalQty + rest.0, groups[0].subtotal + rest.1)
  }

  lemma {:induction false} GroupTotals(items: seq<CartItem>, customer: Option<Customer>, prices: Option<PriceMap>,
                                       keys: seq<SupplierId>, groups: seq<Group>, from: nat)
    requires |groups| == |keys|
    requires forall i | 0 <= i < |groups| :: groups[i] == GroupFor(items, customer, prices, keys[i], from + i)
    ensures TotalOfGroups(groups).0 as real == SumOfGroups(QtyLine, keys, items)
    ensures TotalOfGroups(groups).1 == SumOfGroups(LineTotal(customer, prices), keys, items)
  {
    if groups != [] {
      SumQtyIsSum(LinesOf(items, keys[0]));
      GroupTotals(items, customer, prices, keys[1..], groups[1..], from + 1);
    }
  }

  /** Group quantities sum to the cart's count, and group subtotals to the cart's subtotal. */
  lemma SplitPreservesTotals(items: seq<CartItem>, customer: Option<Customer>, prices: Option<PriceMap>,
                             groups: seq<Group>)
    requires IsSplit(items, customer, prices, groups)
    ensures TotalOfGroups(groups).0 == SumQty(items)
    ensures TotalOfGroups(groups).1 == Subtotal(items, customer, prices)
  {
    var keys := Ids(groups);
    GroupTotals(items, customer, prices, keys, groups, 1);
    SumQtyIsSum(items);
    forall item | item in items ensures KeyOf(item) in keys {
      assert KeyOf(item) in KeySet(items);
    }
    GroupsSumToWhole(QtyLine, keys, items);
    GroupsSumToWhole(LineTotal(customer, prices), keys, items);
  }

  lemma GroupIgnoresOrder(a: seq<CartItem>, b: seq<CartItem>, customer: Option<Customer>, prices: Option<PriceMap>,
                          key: SupplierId, index: nat)
    requires multiset(a) == multiset(b)
    ensures var x, y := GroupFor(a, customer, prices, key, index), GroupFor(b, customer, prices, key, index);
      x.(items := []) == y.(items := []) && multiset(x.items) == multiset(y.items)
  {
    var x, y := LinesOf(a, key), LinesOf(b, key);
    LinesPermuted(a, b, key);
    SumQtyIsSum(x);
    SumQtyIsSum(y);
    SumOfPermuted(QtyLine, x, y);
    SumOfPermuted(LineTotal(customer, prices), x, y);
  }

  lemma KeysIgnoreOrder(a: seq<CartItem>, b: seq<CartItem>)
    requires multiset(a) == multiset(b)
    ensures KeySet(a) == KeySet(b)
  {
    assert forall item :: item in a <==> item in multiset(a);
    assert forall item :: item in b <==> item in multiset(b);
  }

  /** Reordering the cart changes no supplier's package number, quantity or subtotal. */
  lemma SplitIgnoresOrder(a: seq<CartItem>, b: seq<CartItem>, customer: Option<Customer>, prices: Option<PriceMap>,
                          le: Order, groupsA: seq<Group>, groupsB: seq<Group>)
    requires TotalOrder(le) && multiset(a) == multiset(b)
    requires IsSplit(a, customer, prices, groupsA) && Sorted(le, Ids(groupsA))
    requires IsSplit(b, customer, prices, groupsB) && Sorted(le, Ids(groupsB))
    ensures |groupsA| == |groupsB|
    ensures forall i | 0 <= i < |groupsA| ::
              && groupsA[i].(items := []) == groupsB[i].(items := [])
              && multiset(groupsA[i].items) == multiset(groupsB[i].items)
  {
    KeysIgnoreOrder(a, b);
    SortedIsUnique(le, Ids(groupsA), Ids(groupsB), KeySet(a));
    GroupsIgnoreOrder(a, b, customer, prices, groupsA, groupsB);
  }

  lemma GroupsIgnoreOrder(a: seq<CartItem>, b: seq<CartItem>, customer: Option<Customer>, prices: Option<PriceMap>,
                          groupsA: seq<Group>, groupsB: seq<Group>)
    requires multiset(a) == multiset(b) && Ids(groupsA) == Ids(groupsB)
    requires IsSplit(a, customer, prices, groupsA) && IsSplit(b, customer, prices, groupsB)
    ensures forall i | 0 <= i < |groupsA| ::
              && groupsA[i].(items := []) == groupsB[i].(items := [])
              && multiset(groupsA[i].items) == multiset(groupsB[i].items)
  {
    forall i | 0 <= i < |groupsA|
      ensures groupsA[i].(items := []) == groupsB[i].(items := [])
      ensures multiset(groupsA[i].items) == multiset(groupsB[i].items)
    {
      GroupIgnoresOrder(a, b, customer, prices, Ids(groupsA)[i], i + 1);
    }
  }
}
