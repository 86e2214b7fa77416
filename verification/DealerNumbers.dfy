/**
 * Dealer numbers: one shared sequence, numbers taken one at a time, and the script that gives one to
 * every customer still without, in a block.
 */
module DealerNumbers {
  import opened Options

  const PREFIX := "BAYI-"
  const PAD_WIDTH: nat := 6

  // ----- Printed forms -----

  function Digit(d: nat): char
    requires d < 10
  {
    ('0' as int + d) as char
  }

  function Digits(n: nat): (s: string)
    ensures s != ""
  {
    if n < 10 then [Digit(n)] else Digits(n / 10) + [Digit(n % 10)]
  }

  function Zeros(k: nat): string {
    seq(k, _ => '0')
  }

  /** JavaScript's `padStart`: a longer text is left as it is. */
  function PadStart(s: string): string {
    if |s| >= PAD_WIDTH then s else Zeros(PAD_WIDTH - |s|) + s
  }

  /** SQL's `LPAD`: a longer text is cut to the width. */
  function Lpad(s: string): string {
    if |s| >= PAD_WIDTH then s[..PAD_WIDTH] else Zeros(PAD_WIDTH - |s|) + s
  }

  /** The number a string of digits stands for; leading zeros do not count. */
  function Value(s: string): int {
    if s == "" then 0 else Value(s[..|s| - 1]) * 10 + (s[|s| - 1] as int - '0' as int)
  }

  lemma {:induction false} ValueOfDigits(n: nat)
    ensures Value(Digits(n)) == n
  {
    if n >= 10 {
      ValueOfDigits(n / 10);
      assert Digits(n)[..|Digits(n)| - 1] == Digits(n / 10);
    } else {
      assert [Digit(n)][..0] == "";
    }
  }

  lemma {:induction false} ZerosDoNotCount(k: nat, s: string)
    ensures Value(Zeros(k) + s) == Value(s)
    decreases k + |s|
  {
    var t := Zeros(k) + s;
    if s != "" {
      ZerosDoNotCount(k, s[..|s| - 1]);
      assert t[..|t| - 1] == Zeros(k) + s[..|s| - 1];
    } else if k > 0 {
      ZerosDoNotCount(k - 1, "");
      assert t[..|t| - 1] == Zeros(k - 1) + "";
    }
  }

  lemma {:induction false} DigitsFit(n: nat, bound: nat, width: nat)
    requires width >= 1 && bound == Power(width) && n < bound
    ensures |Digits(n)| <= width
  {
    if n >= 10 {
      DigitsFit(n / 10, bound / 10, width - 1);
    }
  }

  function Power(k: nat): nat {
    if k == 0 then 1 else 10 * Power(k - 1)
  }

  /** `padStart` keeps different numbers apart, whatever their length. */
  lemma PadStartInjective(a: nat, b: nat)
    ensures PadStart(Digits(a)) == PadStart(Digits(b)) <==> a == b
  {
    PadStartValue(a);
    PadStartValue(b);
  }

  lemma PadStartValue(n: nat)
    ensures Value(PadStart(Digits(n))) == n
  {
    ValueOfDigits(n);
    ZerosDoNotCount(if |Digits(n)| < PAD_WIDTH then PAD_WIDTH - |Digits(n)| else 0, Digits(n));
  }

  /** Up to six digits the two paddings agree. */
  lemma PaddingsAgree(n: nat)
    requires n <= 999999
    ensures Lpad(Digits(n)) == PadStart(Digits(n))
  {
    assert Power(6) == 1000000 by { assert Power(3) == 1000; }
    DigitsFit(n, 1000000, 6);
    assert |Digits(n)| == PAD_WIDTH ==> Digits(n)[..PAD_WIDTH] == Digits(n);
  }

  lemma {:induction false} DigitsReach(n: nat, bound: nat, width: nat)
    requires bound == Power(width) && n >= bound
    ensures |Digits(n)| > width
  {
    if width > 0 {
      DigitsReach(n / 10, bound / 10, width - 1);
    }
  }

  /** The number the first six digits of `n` stand for. */
  function Leading(n: nat): (k: nat)
    ensures k <= 999999 && k <= n
    ensures n <= 999999 ==> k == n
  {
    if n <= 999999 then n else Leading(n / 10)
  }

  /** `LPAD` prints the first six digits, padded when there are fewer. */
  lemma {:induction false} LpadPrintsLeading(n: nat)
    ensures Lpad(Digits(n)) == PadStart(Digits(Leading(n)))
  {
    if n <= 999999 {
      PaddingsAgree(n);
    } else {
      LpadPrintsLeading(n / 10);
      HundredThousand();
      DigitsReach(n / 10, 100000, 5);
      assert Digits(n)[..PAD_WIDTH] == Digits(n / 10)[..PAD_WIDTH];
    }
  }

  lemma HundredThousand()
    ensures Power(5) == 100000
  {
    assert Power(3) == 1000;
  }

  /** `LPAD` keeps the numbers from 1 to `last` apart exactly when they all have at most six digits. */
  lemma LpadInjectiveExactlyToSixDigits(last: nat)
    ensures (forall a: nat, b: nat | a <= last && b <= last :: Lpad(Digits(a)) == Lpad(Digits(b)) ==> a == b)
       <==> last <= 999999
  {
    if last <= 999999 {
      forall a: nat, b: nat | a <= last && b <= last && Lpad(Digits(a)) == Lpad(Digits(b)) ensures a == b {
        PaddingsAgree(a);
        PaddingsAgree(b);
        PadStartInjective(a, b);
      }
    } else {
      LpadPrintsLeading(1000000);
      LpadPrintsLeading(100000);
      assert Leading(1000000) == Leading(100000);
    }
  }

  // ----- The database -----

  /** A number as it was written: padded by JavaScript, or by SQL, which cuts long ones. */
  datatype Number = Padded(n: nat) | Cut(n: nat)

  function Text(x: Number): string {
    PREFIX + match x case Padded(n) => PadStart(Digits(n)) case Cut(n) => Lpad(Digits(n))
  }

  /** The number a text can be read as. */
  function Printed(x: Number): nat {
    match x case Padded(n) => n case Cut(n) => Leading(n)
  }

  /** Two texts are alike exactly when the numbers they can be read as are. */
  lemma TextIsPrinted(x: Number, y: Number)
    ensures Text(x) == Text(y) <==> Printed(x) == Printed(y)
  {
    LpadPrintsLeading(x.n);
    LpadPrintsLeading(y.n);
    PadStartInjective(Printed(x), Printed(y));
    assert Text(x)[|PREFIX|..] == PadStart(Digits(Printed(x))) && Text(y)[|PREFIX|..] == PadStart(Digits(Printed(y)));
  }

  ghost predicate AllDigits(s: string) {
    forall k | 0 <= k < |s| :: '0' <= s[k] <= '9'
  }

  /** The prefix and six digits for `n`, or more when `n` needs them. */
  ghost predicate Form(text: string, n: nat) {
    && |text| >= |PREFIX| + PAD_WIDTH && text[..|PREFIX|] == PREFIX
    && AllDigits(text[|PREFIX|..]) && Value(text[|PREFIX|..]) == n
    && (|text| == |PREFIX| + PAD_WIDTH || text[|PREFIX|] != '0')
  }

  lemma {:induction false} DigitsAreDigits(n: nat)
    ensures AllDigits(Digits(n)) && (n > 0 ==> Digits(n)[0] != '0')
  {
    if n >= 10 {
      DigitsAreDigits(n / 10);
    }
  }

  lemma PaddedForm(n: nat)
    ensures var s := PadStart(Digits(n));
      && |s| >= PAD_WIDTH && AllDigits(s) && Value(s) == n
      && (|s| == PAD_WIDTH <==> n <= 999999) && (|s| == PAD_WIDTH || s[0] != '0')
  {
    DigitsAreDigits(n);
    PadStartValue(n);
    assert Power(6) == 1000000 by { assert Power(3) == 1000; }
    if n <= 999999 {
      DigitsFit(n, 1000000, 6);
    } else {
      DigitsReach(n, 1000000, 6);
    }
  }

  /** What is stored is the prefix and exactly six digits up to 999999, more digits beyond, and reads as the number. */
  lemma TextForm(x: Number)
    ensures Form(Text(x), Printed(x))
    ensures |Text(x)| == 11 <==> Printed(x) <= 999999
  {
    LpadPrintsLeading(x.n);
    PaddedForm(Printed(x));
    assert Text(x)[..|PREFIX|] == PREFIX && Text(x)[|PREFIX|..] == PadStart(Digits(Printed(x)));
  }

  /** Ids in the database's sorting order. */
  datatype Id = Id(order: int)
  datatype Customer = Customer(createdAt: int, number: Option<Number>)
  type Customers = map<Id, Customer>
  type Positive = x: int | 1 <= x witness 1

  /** The customer table and the sequence; the sequence never goes back with a failed transaction. */
  datatype Db = Db(customers: Customers, lastValue: Positive, isCalled: bool)

  /** The highest number handed out so far. */
  function Base(db: Db): nat {
    if db.isCalled then db.lastValue else db.lastValue - 1
  }

  /** `nextval`: the first call gives the start value itself. */
  function Issue(db: Db): Db {
    db.(lastValue := if db.isCalled then db.lastValue + 1 else db.lastValue, isCalled := true)
  }

  /** The sequence gives the number after the highest handed out, which is then the highest. */
  lemma NextIsAfterBase(db: Db)
    ensures Issue(db).lastValue == Base(db) + 1 == Base(Issue(db))
  {
  }

  predicate Numbered(customers: Customers, id: Id) {
    id in customers && customers[id].number.Some?
  }

  function NumberOf(customers: Customers, id: Id): Number
    requires Numbered(customers, id)
  {
    customers[id].number.value
  }

  /** The unique index on the printed number; missing numbers never clash. */
  predicate Unique(customers: Customers) {
    forall a, b | a in customers && b in customers && Numbered(customers, a) && Numbered(customers, b) ::
      Text(NumberOf(customers, a)) == Text(NumberOf(customers, b)) ==> a == b
  }

  /** A write the unique index refuses changes nothing but the sequence. */
  function Write(db: Db, customers: Customers): Db {
    if Unique(customers) then db.(customers := customers) else db
  }

  function Unnumbered(customers: Customers): set<Id> {
    set id | id in customers && customers[id].number == None
  }

  /** The script's order: creation time, then id. */
  predicate Before(customers: Customers, a: Id, b: Id)
    requires a in customers && b in customers
  {
    || customers[a].createdAt < customers[b].createdAt
    || (customers[a].createdAt == customers[b].createdAt && a.order < b.order)
  }

  /** Those of `ids` that come before `id`. */
  function Earlier(customers: Customers, ids: set<Id>, id: Id): set<Id>
    requires id in customers && ids <= customers.Keys
  {
    set j | j in ids && Before(customers, j, id)
  }

  /** `ROW_NUMBER()` in that order. */
  function Rank(customers: Customers, ids: set<Id>, id: Id): nat
    requires id in customers && ids <= customers.Keys
  {
    |Earlier(customers, ids, id)| + 1
  }

  function Filled(customers: Customers, base: nat): Customers {
    map id | id in customers ::
      if customers[id].number == None
      then Customer(customers[id].createdAt, Some(Cut(base + Rank(customers, Unnumbered(customers), id))))
      else customers[id]
  }

  /** The script's `setval`, for a base and a count read before; a count of zero ends the script earlier. */
  function MoveTo(db: Db, base: nat, count: nat): Db {
    if count == 0 then db else db.(lastValue := base + count, isCalled := true)
  }

  /** Its update: the block's numbers for the customers without one at that moment, or a refusal. */
  function FillFrom(db: Db, base: nat): Db {
    Write(db, Filled(db.customers, base))
  }

  /** Both, with nothing in between. */
  function Reserve(db: Db, base: nat, count: nat): Db {
    if count == 0 then db else FillFrom(MoveTo(db, base, count), base)
  }

  /** The script with nothing in between its steps. */
  function Undisturbed(db: Db): Db {
    Reserve(db, Base(db), |Unnumbered(db.customers)|)
  }

  /** The column's default draws a number even when the row is refused. */
  function Created(db: Db, id: Id, createdAt: int): Db {
    var d := Issue(db);
    if id in db.customers then d
    else Write(d, db.customers[id := Customer(createdAt, Some(Cut(Base(d))))])
  }

  function WithNumber(customers: Customers, id: Id, n: nat): Customers
    requires id in customers
  {
    customers[id := customers[id].(number := Some(Padded(n)))]
  }

  /** The service's update: it names the customer only, and does not ask for a missing number. */
  function Put(db: Db, id: Id, n: nat): Db {
    if id !in db.customers then db else Write(db, WithNumber(db.customers, id, n))
  }

  /** The service's call with nothing in between its read, its draw and its update. */
  function Ensured(db: Db, id: Id): Db {
    if id !in db.customers || Numbered(db.customers, id) then db else Put(Issue(db), id, Base(db) + 1)
  }

  // ----- Ranks -----

  lemma CardinalityGrows(a: set<Id>, b: set<Id>)
    requires a <= b
    ensures |a| <= |b| && (a != b ==> |a| < |b|)
  {
    assert b == a + (b - a) && |b| == |a| + |b - a|;
  }

  lemma RanksAscend(customers: Customers, ids: set<Id>, a: Id, b: Id)
    requires ids <= customers.Keys && a in ids && b in ids
    ensures 1 <= Rank(customers, ids, a) <= |ids|
    ensures Before(customers, a, b) ==> Rank(customers, ids, a) < Rank(customers, ids, b)
  {
    var early := Earlier(customers, ids, a);
    assert a !in early && early != ids;
    CardinalityGrows(early, ids);
    if Before(customers, a, b) {
      assert a in Earlier(customers, ids, b);
      CardinalityGrows(early, Earlier(customers, ids, b));
    }
  }

  /** The ranks are a numbering: different customers, different ranks, from 1 to their count. */
  lemma RanksDiffer(customers: Customers, ids: set<Id>, a: Id, b: Id)
    requires ids <= customers.Keys && a in ids && b in ids
    ensures Rank(customers, ids, a) == Rank(customers, ids, b) <==> a == b
  {
    RanksAscend(customers, ids, a, b);
    RanksAscend(customers, ids, b, a);
  }

  /** No rank is left out. */
  lemma {:induction false} RankIsTaken(customers: Customers, ids: set<Id>, k: nat) returns (id: Id)
    requires ids <= customers.Keys && 1 <= k <= |ids|
    ensures id in ids && Rank(customers, ids, id) == k
    decreases |ids|
  {
    var pivot :| pivot in ids;
    var early := Earlier(customers, ids, pivot);
    var r := Rank(customers, ids, pivot);
    var late := ids - early - {pivot};
    assert ids == early + {pivot} + late && |ids| == r + |late|;
    id := pivot;
    if k < r {
      id := RankIsTaken(customers, early, k);
      assert Earlier(customers, ids, id) == Earlier(customers, early, id);
    } else if k > r {
      id := RankIsTaken(customers, late, k - r);
      SplitEarlier(customers, ids, pivot, id);
    }
  }

  lemma SplitEarlier(customers: Customers, ids: set<Id>, pivot: Id, id: Id)
    requires ids <= customers.Keys && pivot in ids && id in ids - Earlier(customers, ids, pivot) - {pivot}
    ensures var late := ids - Earlier(customers, ids, pivot) - {pivot};
      Rank(customers, ids, id) == Rank(customers, ids, pivot) + Rank(customers, late, id)
  {
    var early := Earlier(customers, ids, pivot);
    var late := ids - early - {pivot};
    var between := Earlier(customers, late, id);
    assert Earlier(customers, ids, id) == early + ({pivot} + between);
    assert |{pivot} + between| == 1 + |between|;
  }

  lemma FilledCustomer(customers: Customers, base: nat, id: Id)
    requires id in customers
    ensures id in Filled(customers, base) && Numbered(Filled(customers, base), id)
    ensures if Numbered(customers, id) then Filled(customers, base)[id] == customers[id]
      else NumberOf(Filled(customers, base), id) == Cut(base + Rank(customers, Unnumbered(customers), id))
           && base < NumberOf(Filled(customers, base), id).n <= base + |Unnumbered(customers)|
  {
    if !Numbered(customers, id) {
      RanksAscend(customers, Unnumbered(customers), id, id);
    }
  }

  // ----- What the unique index means -----

  ghost predicate Within(customers: Customers, top: nat) {
    forall a {:trigger Numbered(customers, a)} | Numbered(customers, a) :: 1 <= NumberOf(customers, a).n <= top
  }

  ghost predicate Differ(customers: Customers) {
    forall a, b {:trigger Numbered(customers, a), Numbered(customers, b)} |
      Numbered(customers, a) && Numbered(customers, b) && NumberOf(customers, a).n == NumberOf(customers, b).n :: a == b
  }

  /** The index lets two customers share a number only past six digits, padded for one and cut for the other. */
  lemma UniqueMeansDiffer(customers: Customers, a: Id, b: Id)
    requires Unique(customers) && Numbered(customers, a) && Numbered(customers, b)
    requires NumberOf(customers, a).n == NumberOf(customers, b).n
    ensures a == b || (NumberOf(customers, a).n > 999999 && NumberOf(customers, a) != NumberOf(customers, b))
  {
    TextIsPrinted(NumberOf(customers, a), NumberOf(customers, b));
  }

  lemma RemovalIsUnique(customers: Customers, id: Id)
    requires Unique(customers)
    ensures Unique(customers - {id})
  {
    var after := customers - {id};
    forall a | Numbered(after, a) ensures Numbered(customers, a) && NumberOf(after, a) == NumberOf(customers, a) {
    }
  }

  /** An update is refused exactly when another customer's number prints like the one to be written. */
  lemma PutRefusedExactly(db: Db, id: Id, n: nat)
    requires Unique(db.customers) && id in db.customers
    ensures !Unique(WithNumber(db.customers, id, n)) <==>
      exists a :: a != id && Numbered(db.customers, a) && Printed(NumberOf(db.customers, a)) == n
  {
    var after := WithNumber(db.customers, id, n);
    forall a | a != id
      ensures Numbered(after, a) <==> Numbered(db.customers, a)
      ensures Numbered(after, a) ==> NumberOf(after, a) == NumberOf(db.customers, a)
      ensures Numbered(after, a) ==> (Text(NumberOf(after, a)) == Text(Padded(n)) <==> Printed(NumberOf(after, a)) == n)
    {
      if Numbered(after, a) {
        TextIsPrinted(NumberOf(after, a), Padded(n));
      }
    }
    assert Numbered(after, id) && NumberOf(after, id) == Padded(n);
    if !Unique(after) {
      var a, b :| a in after && b in after && Numbered(after, a) && Numbered(after, b)
        && Text(NumberOf(after, a)) == Text(NumberOf(after, b)) && a != b;
      assert a != id ==> a in db.customers;
      assert b != id ==> b in db.customers;
    }
  }

  /** An update changes the text of a customer who has one exactly when nobody's number prints like the new one. */
  lemma PutChangesTextExactly(db: Db, u: Id, n: nat)
    requires Unique(db.customers) && Numbered(db.customers, u)
    ensures Numbered(Put(db, u, n).customers, u)
    ensures Text(NumberOf(Put(db, u, n).customers, u)) != Text(NumberOf(db.customers, u)) <==>
      forall a | Numbered(db.customers, a) :: Printed(NumberOf(db.customers, a)) != n
  {
    PutRefusedExactly(db, u, n);
    TextIsPrinted(NumberOf(db.customers, u), Padded(n));
  }

  // ----- When the unique index refuses a block -----

  /** `m` and `other` are two numbers of the block that print alike. */
  predicate Twins(base: nat, size: nat, m: nat, other: nat) {
    base < m <= base + size && base < other <= base + size && m != other && Leading(m) == Leading(other)
  }

  /** `m` is a number of the block that prints like `holder`'s. */
  predicate Held(customers: Customers, base: nat, size: nat, m: nat, holder: Id) {
    base < m <= base + size && Numbered(customers, holder) && Printed(NumberOf(customers, holder)) == Leading(m)
  }

  ghost predicate Clash(customers: Customers, base: nat, size: nat) {
    || (exists m: nat, other: nat :: Twins(base, size, m, other))
    || (exists m: nat, holder :: Held(customers, base, size, m, holder))
  }

  /** Every number of the block goes to some waiting customer. */
  lemma BlockNumberIsGiven(customers: Customers, base: nat, m: nat) returns (a: Id)
    requires base < m <= base + |Unnumbered(customers)|
    ensures a in customers && !Numbered(customers, a)
    ensures Numbered(Filled(customers, base), a) && NumberOf(Filled(customers, base), a) == Cut(m)
  {
    a := RankIsTaken(customers, Unnumbered(customers), m - base);
    FilledCustomer(customers, base, a);
  }

  lemma TwinsAreRefused(customers: Customers, base: nat, m: nat, other: nat)
    requires Twins(base, |Unnumbered(customers)|, m, other)
    ensures !Unique(Filled(customers, base))
  {
    var after := Filled(customers, base);
    var a := BlockNumberIsGiven(customers, base, m);
    var b := BlockNumberIsGiven(customers, base, other);
    TextIsPrinted(Cut(m), Cut(other));
    SameTextRefused(after, a, b);
  }

  lemma SameTextRefused(customers: Customers, a: Id, b: Id)
    requires Numbered(customers, a) && Numbered(customers, b) && a != b
    requires Text(NumberOf(customers, a)) == Text(NumberOf(customers, b))
    ensures !Unique(customers)
  {
  }

  lemma HeldIsRefused(customers: Customers, base: nat, m: nat, holder: Id)
    requires Held(customers, base, |Unnumbered(customers)|, m, holder)
    ensures !Unique(Filled(customers, base))
  {
    var a := BlockNumberIsGiven(customers, base, m);
    FilledCustomer(customers, base, holder);
    TextIsPrinted(Cut(m), NumberOf(customers, holder));
    SameTextRefused(Filled(customers, base), a, holder);
  }

  lemma RefusedMeansClash(customers: Customers, base: nat, a: Id, b: Id)
    requires Unique(customers) && a in customers && b in customers && a != b
    requires Text(NumberOf(Filled(customers, base), a)) == Text(NumberOf(Filled(customers, base), b))
    ensures Clash(customers, base, |Unnumbered(customers)|)
  {
    var waiting, size, after := Unnumbered(customers), |Unnumbered(customers)|, Filled(customers, base);
    FilledCustomer(customers, base, a);
    FilledCustomer(customers, base, b);
    TextIsPrinted(NumberOf(after, a), NumberOf(after, b));
    if a in waiting && b in waiting {
      RanksDiffer(customers, waiting, a, b);
      assert Twins(base, size, NumberOf(after, a).n, NumberOf(after, b).n);
    } else if a in waiting {
      assert Held(customers, base, size, NumberOf(after, a).n, b);
    } else if b in waiting {
      assert Held(customers, base, size, NumberOf(after, b).n, a);
    }
  }

  /** A block is refused exactly when one of its numbers prints like another of them or like a number held. */
  lemma RefusedExactlyOnClash(db: Db, base: nat, count: nat)
    requires Unique(db.customers) && count > 0 && Unnumbered(db.customers) != {}
    ensures Reserve(db, base, count).customers == db.customers <==>
      Clash(db.customers, base, |Unnumbered(db.customers)|)
  {
    var size, after := |Unnumbered(db.customers)|, Filled(db.customers, base);
    if m: nat, other: nat :| Twins(base, size, m, other) {
      TwinsAreRefused(db.customers, base, m, other);
    }
    if m: nat, holder :| Held(db.customers, base, size, m, holder) {
      HeldIsRefused(db.customers, base, m, holder);
    }
    if !Unique(after) {
      var a, b :| a in after && b in after && Numbered(after, a) && Numbered(after, b)
        && Text(NumberOf(after, a)) == Text(NumberOf(after, b)) && a != b;
      RefusedMeansClash(db.customers, base, a, b);
    } else {
      FilledIsNew(db.customers, base);
    }
  }

  lemma FilledIsNew(customers: Customers, base: nat)
    requires Unnumbered(customers) != {}
    ensures Filled(customers, base) != customers && Unnumbered(Filled(customers, base)) == {}
  {
    forall id | id in customers ensures Numbered(Filled(customers, base), id) {
      FilledCustomer(customers, base, id);
    }
    var id :| id in Unnumbered(customers);
    assert !Numbered(customers, id);
  }

  /** While six digits suffice, a block is refused exactly when one of its numbers is held. */
  lemma RefusedExactlyWhenHeld(db: Db, base: nat, count: nat)
    requires Unique(db.customers) && Within(db.customers, 999999) && count > 0 && Unnumbered(db.customers) != {}
    requires base + |Unnumbered(db.customers)| <= 999999
    ensures Reserve(db, base, count).customers == db.customers <==>
      exists holder :: Numbered(db.customers, holder)
        && base < NumberOf(db.customers, holder).n <= base + |Unnumbered(db.customers)|
  {
    var size := |Unnumbered(db.customers)|;
    RefusedExactlyOnClash(db, base, count);
    forall holder | Numbered(db.customers, holder)
      ensures Printed(NumberOf(db.customers, holder)) == NumberOf(db.customers, holder).n
    {
    }
    forall holder | Numbered(db.customers, holder) && base < NumberOf(db.customers, holder).n <= base + size
      ensures Held(db.customers, base, size, NumberOf(db.customers, holder).n, holder)
    {
    }
  }

  /** A script that is on time is refused exactly when a number past six digits prints like another or like one held. */
  lemma RefusedExactlyPastSixDigits(db: Db)
    requires Unique(db.customers) && Within(db.customers, Base(db)) && Unnumbered(db.customers) != {}
    ensures Undisturbed(db).customers == db.customers <==>
      exists m: nat :: m > 999999 && ClashesAt(db.customers, Base(db), |Unnumbered(db.customers)|, m)
  {
    var base, size := Base(db), |Unnumbered(db.customers)|;
    RefusedExactlyOnClash(db, base, size);
    if m: nat, other: nat :| Twins(base, size, m, other) {
      assert Twins(base, size, other, m);
      assert m > 999999 ==> ClashesAt(db.customers, base, size, m);
      assert other > 999999 ==> ClashesAt(db.customers, base, size, other);
    }
    if m: nat, holder :| Held(db.customers, base, size, m, holder) {
      assert m > 999999;
      assert ClashesAt(db.customers, base, size, m);
    }
  }

  ghost predicate ClashesAt(customers: Customers, base: nat, size: nat, m: nat) {
    (exists other: nat :: Twins(base, size, m, other)) || (exists holder :: Held(customers, base, size, m, holder))
  }

  /** Past a million, three waiting customers are one too many, whatever numbers are held. */
  lemma ThreePastAMillionAreRefused(db: Db, base: nat, count: nat)
    requires Unique(db.customers) && count > 0 && base >= 999999 && |Unnumbered(db.customers)| >= 3
    ensures Reserve(db, base, count).customers == db.customers
  {
    var m: nat := if (base + 1) % 10 == 9 then base + 2 else base + 1;
    assert Leading(m) == Leading(m / 10) && Leading(m + 1) == Leading((m + 1) / 10) && m / 10 == (m + 1) / 10;
    assert Twins(base, |Unnumbered(db.customers)|, m, m + 1);
    RefusedExactlyOnClash(db, base, count);
  }

  /** Past six digits a late script can give a number that is held, as it is printed differently. */
  lemma LongNumberCanBeShared(db: Db, base: nat, holder: Id, waiting: Id)
    requires Unique(db.customers) && Unnumbered(db.customers) == {waiting} && base >= 999999
    requires Numbered(db.customers, holder) && NumberOf(db.customers, holder) == Padded(base + 1)
    requires forall a | Numbered(db.customers, a) :: Printed(NumberOf(db.customers, a)) != Leading(base + 1)
    ensures var after := Reserve(db, base, 1).customers;
      waiting != holder && Numbered(after, waiting) && Numbered(after, holder)
      && NumberOf(after, waiting).n == NumberOf(after, holder).n
  {
    RefusedExactlyOnClash(db, base, 1);
    forall m: nat, a ensures !Held(db.customers, base, 1, m, a) {
    }
    FilledCustomer(db.customers, base, waiting);
    FilledCustomer(db.customers, base, holder);
    assert waiting in Unnumbered(db.customers);
  }

  // ----- What the script achieves -----

  /**
   * While six digits suffice and nothing comes between its steps, the script leaves no customer without
   * a number; the sequence goes on behind the block.
   */
  lemma BackfillCompletes(db: Db)
    requires Unique(db.customers) && Within(db.customers, Base(db))
    requires Base(db) + |Unnumbered(db.customers)| <= 999999
    ensures var after := Undisturbed(db);
      && Unnumbered(after.customers) == {} && after.customers.Keys == db.customers.Keys
      && Base(after) == Base(db) + |Unnumbered(db.customers)|
      && Unique(after.customers) && Within(after.customers, Base(after))
  {
    if Unnumbered(db.customers) != {} {
      RefusedExactlyWhenHeld(db, Base(db), |Unnumbered(db.customers)|);
      FilledIsNew(db.customers, Base(db));
      forall a | a in db.customers ensures Numbered(db.customers, a) ==> NumberOf(db.customers, a).n <= Base(db) {
      }
      FilledStaysWithin(db);
    }
  }

  lemma FilledStaysWithin(db: Db)
    requires Within(db.customers, Base(db))
    ensures Within(Filled(db.customers, Base(db)), Base(db) + |Unnumbered(db.customers)|)
  {
    var after := Filled(db.customers, Base(db));
    forall a | Numbered(after, a) ensures 1 <= NumberOf(after, a).n <= Base(db) + |Unnumbered(db.customers)| {
      FilledCustomer(db.customers, Base(db), a);
    }
  }

  /** It leaves a number as it is, and gives a waiting customer the one of its rank above all the old ones. */
  lemma BackfillGives(db: Db, a: Id)
    requires Unique(db.customers) && Within(db.customers, Base(db))
    requires Base(db) + |Unnumbered(db.customers)| <= 999999 && a in db.customers
    ensures var after := Undisturbed(db).customers;
      && Numbered(after, a)
      && if Numbered(db.customers, a) then after[a] == db.customers[a]
         else NumberOf(after, a) == Cut(Base(db) + Rank(db.customers, Unnumbered(db.customers), a))
  {
    BackfillCompletes(db);
    FilledCustomer(db.customers, Base(db), a);
    assert a !in Unnumbered(Undisturbed(db).customers);
    assert a in Unnumbered(db.customers) <==> !Numbered(db.customers, a);
  }

  /** The new numbers follow creation time, then id. */
  lemma BackfillFollowsCreation(db: Db, a: Id, b: Id)
    requires Unique(db.customers) && Within(db.customers, Base(db))
    requires Base(db) + |Unnumbered(db.customers)| <= 999999
    requires a in Unnumbered(db.customers) && b in Unnumbered(db.customers)
    ensures var after := Undisturbed(db).customers;
      && Numbered(after, a) && Numbered(after, b)
      && (NumberOf(after, a).n < NumberOf(after, b).n <==>
            || db.customers[a].createdAt < db.customers[b].createdAt
            || (db.customers[a].createdAt == db.customers[b].createdAt && a.order < b.order))
  {
    BackfillGives(db, a);
    BackfillGives(db, b);
    RanksAscend(db.customers, Unnumbered(db.customers), a, b);
    RanksAscend(db.customers, Unnumbered(db.customers), b, a);
  }

  /** The reserved block is used up: every number in it goes to some customer. */
  lemma BackfillLeavesNoGap(db: Db, n: nat) returns (a: Id)
    requires Unique(db.customers) && Within(db.customers, Base(db))
    requires Base(db) < n <= Base(db) + |Unnumbered(db.customers)| <= 999999
    ensures Numbered(Undisturbed(db).customers, a) && NumberOf(Undisturbed(db).customers, a).n == n
  {
    a := BlockNumberIsGiven(db.customers, Base(db), n);
    BackfillGives(db, a);
  }

  /** A new row is refused exactly when the number the sequence gives it prints like one held. */
  lemma CreationRefusedExactly(db: Db, id: Id, createdAt: int)
    requires Unique(db.customers) && id !in db.customers
    ensures Created(db, id, createdAt).customers == db.customers <==>
      exists holder ::
        Numbered(db.customers, holder) && Printed(NumberOf(db.customers, holder)) == Leading(Base(db) + 1)
  {
    var x := Cut(Base(db) + 1);
    var after := db.customers[id := Customer(createdAt, Some(x))];
    forall a | Numbered(db.customers, a)
      ensures Numbered(after, a) && NumberOf(after, a) == NumberOf(db.customers, a)
      ensures Text(NumberOf(after, a)) == Text(x) <==> Printed(NumberOf(db.customers, a)) == Leading(Base(db) + 1)
    {
      TextIsPrinted(NumberOf(after, a), x);
    }
    assert Numbered(after, id) && NumberOf(after, id) == x;
    assert id in after;
  }

  /** What is stored for the customer reads as `n`. */
  ghost predicate Stored(customers: Customers, a: Id, n: nat) {
    Numbered(customers, a) && Form(Text(NumberOf(customers, a)), n)
  }

  lemma BlockIsStored(customers: Customers, base: nat)
    ensures forall a | a in Unnumbered(customers) ::
              Stored(Filled(customers, base), a, Leading(base + Rank(customers, Unnumbered(customers), a)))
  {
    forall a | a in Unnumbered(customers)
      ensures Stored(Filled(customers, base), a, Leading(base + Rank(customers, Unnumbered(customers), a)))
    {
      FilledCustomer(customers, base, a);
      TextForm(NumberOf(Filled(customers, base), a));
    }
  }

  // ----- The running system -----

  datatype Answer = Missing | Given(text: string) | Refused

  class Registry {
    var customers: Customers
    var lastValue: Positive
    var isCalled: bool

    function Contents(): Db
      reads this
    {
      Db(customers, lastValue, isCalled)
    }

    constructor (db: Db)
      ensures Contents() == db
    {
      customers, lastValue, isCalled := db.customers, db.lastValue, db.isCalled;
    }

    method NextValue() returns (n: nat)
      modifies this`lastValue, this`isCalled
      ensures Contents() == Issue(old(Contents())) && n == Base(old(Contents())) + 1 == Base(Contents())
    {
      n := if isCalled then lastValue + 1 else lastValue;
      lastValue, isCalled := n, true;
    }

    /** The service's read: what is stored for the customer, if the customer exists. */
    method ReadNumber(id: Id) returns (found: Option<Option<Number>>)
      ensures found == if id in customers then Some(customers[id].number) else None
    {
      found := if id in customers then Some(customers[id].number) else None;
    }

    /** Its update, for a number drawn before; false when there is no such customer or the index refuses it. */
    method WriteNumber(id: Id, n: nat) returns (ok: bool)
      requires Unique(customers)
      modifies this`customers
      ensures Contents() == Put(old(Contents()), id, n) && Unique(customers)
      ensures ok ==> id in customers && customers[id].number == Some(Padded(n))
      ensures !ok ==> customers == old(customers)
    {
      if id !in customers { return false; }
      var written := WithNumber(customers, id, n);
      ok := Unique(written);
      if ok { customers := written; }
    }

    /** The whole call when nothing comes between: a number that is there takes none from the sequence. */
    method EnsureForCustomer(id: Id) returns (r: Answer)
      requires Unique(customers)
      modifies this
      ensures Contents() == Ensured(old(Contents()), id) && Unique(customers)
      ensures id !in old(customers) || old(Numbered(customers, id)) ==> Contents() == old(Contents())
      ensures id in old(customers) && !old(Numbered(customers, id)) ==>
                Base(Contents()) == old(Base(Contents())) + 1 && customers - {id} == old(customers) - {id}
      ensures r.Missing? <==> id !in customers
      ensures r.Given? <==> Numbered(customers, id)
      ensures r.Given? ==> r.text == Text(NumberOf(customers, id)) && Form(r.text, Printed(NumberOf(customers, id)))
      ensures r.Given? && !old(Numbered(customers, id)) ==> Form(r.text, old(Base(Contents())) + 1)
    {
      forall x: Number ensures Form(Text(x), Printed(x)) { TextForm(x); }
      var found := ReadNumber(id);
      if found == None { return Missing; }
      if found.value.Some? { return Given(Text(found.value.value)); }
      var n := NextValue();
      var ok := WriteNumber(id, n);
      r := if ok then Given(Text(Padded(n))) else Refused;
    }

    /** The script's two reads, which other writers may come between. */
    method CountNulls() returns (count: nat)
      ensures count == |Unnumbered(customers)|
    {
      count := |Unnumbered(customers)|;
    }

    method ReadPosition() returns (base: nat)
      ensures base == Base(Contents())
    {
      base := if isCalled then lastValue else lastValue - 1;
    }

    /** Its two writes, for what was read; the first is seen at once and never taken back. */
    method SetPosition(base: nat, count: nat)
      requires count > 0
      modifies this`lastValue, this`isCalled
      ensures Contents() == MoveTo(old(Contents()), base, count)
    {
      lastValue, isCalled := base + count, true;
    }

    method WriteBlock(base: nat) returns (ok: bool)
      requires Unique(customers)
      modifies this`customers
      ensures Contents() == FillFrom(old(Contents()), base) && Unique(customers)
      ensures ok ==> Unnumbered(customers) == {} && forall a | a in old(Unnumbered(customers)) ::
                Stored(customers, a, Leading(base + Rank(old(customers), old(Unnumbered(customers)), a)))
      ensures !ok ==> customers == old(customers)
    {
      BlockIsStored(customers, base);
      if Unnumbered(customers) != {} { FilledIsNew(customers, base); }
      var written := Filled(customers, base);
      ok := Unique(written);
      if ok { customers := written; }
    }

    /** The whole script when nothing comes between; the result is how many customers it served. */
    method Backfill(dryRun: bool) returns (served: int)
      requires Unique(customers)
      modifies this
      ensures Contents() == if dryRun then old(Contents()) else Undisturbed(old(Contents()))
      ensures Unique(customers) && served == old(|Unnumbered(customers)|) - |Unnumbered(customers)|
    {
      var nullCount := CountNulls();
      if nullCount == 0 { return 0; }
      var base := ReadPosition();
      if dryRun { return 0; }
      SetPosition(base, nullCount);
      var ok := WriteBlock(base);
      var nullAfter := CountNulls();
      served := nullCount - nullAfter;
    }
  }
}
