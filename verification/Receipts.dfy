/**
 * The receipt backfill: card orders and card top-ups are merged by collection time, and each record
 * with a customer gets one receipt from the shared counter.
 */
module Receipts {
  import opened Options

  datatype Kind = Order | Topup
  datatype Key = Key(kind: Kind, id: nat)

  /**
   * A record as the script reads it: `collectedAt` is its payment or decision time, and `tenant` says
   * whether a tenant can be found for a top-up; an order always has one.
   */
  datatype Record = Record(
    key: Key, collectedAt: Option<int>, createdAt: int, hasCustomer: bool, card: bool, tenant: bool)

  function SortAt(r: Record): int {
    if r.collectedAt.Some? then r.collectedAt.value else r.createdAt
  }

  /** Receipt numbers by record, at most one each; the sequence's next number. */
  datatype Db = Db(receipts: map<Key, nat>, next: nat)

  /**
   * What goes wrong in a call, and whether it had taken a number by then: it throws, or it runs into a
   * unique index of another column, which the service takes for a receipt issued meanwhile and swallows.
   */
  datatype Trouble = Fine | Throws(taken: bool) | Swallows(taken: bool)

  datatype Answer = Receipt(number: nat) | NoReceipt | Threw

  /** What the guards of the service let through. */
  predicate Due(r: Record) {
    r.card && r.hasCustomer && (r.key.kind == Order || r.tenant)
  }

  function Burn(db: Db, taken: bool): Db {
    if taken then db.(next := db.next + 1) else db
  }

  /** `createForOrder` and `createForTopup`: an existing receipt first, then the guards, then a new one. */
  function Create(db: Db, r: Record, t: Trouble): (Db, Answer) {
    if t.Throws? then (Burn(db, t.taken), Threw)
    else if r.key in db.receipts then (db, Receipt(db.receipts[r.key]))
    else if !Due(r) then (db, NoReceipt)
    else if t.Swallows? then (Burn(db, t.taken), NoReceipt)
    else (Db(db.receipts[r.key := db.next], db.next + 1), Receipt(db.next))
  }

  // ----- The queue -----

  /** A stable sort by collection time. */
  function InsertRecord(r: Record, s: seq<Record>): seq<Record> {
    if s == [] || SortAt(r) <= SortAt(s[0]) then [r] + s else [s[0]] + InsertRecord(r, s[1..])
  }

  function Chronological(s: seq<Record>): seq<Record> {
    if s == [] then [] else InsertRecord(s[0], Chronological(s[1..]))
  }

  function Work(orders: seq<Record>, topups: seq<Record>): seq<Record> {
    Chronological(orders + topups)
  }

  /** A limit of zero counts as none. */
  function Queue(orders: seq<Record>, topups: seq<Record>, limit: Option<nat>): seq<Record> {
    var work := Work(orders, topups);
    if limit.None? || limit.value == 0 || |work| <= limit.value then work else work[..limit.value]
  }

  ghost predicate Ascending(s: seq<Record>) {
    forall i, j | 0 <= i < j < |s| :: SortAt(s[i]) <= SortAt(s[j])
  }

  ghost predicate DistinctKeys(s: seq<Record>) {
    forall i, j | 0 <= i < j < |s| :: s[i].key != s[j].key
  }

  /** Those collected at one moment. */
  function At(s: seq<Record>, time: int): seq<Record> {
    if s == [] then [] else if SortAt(s[0]) == time then [s[0]] + At(s[1..], time) else At(s[1..], time)
  }

  lemma AtCons(r: Record, s: seq<Record>, time: int)
    ensures At([r] + s, time) == if SortAt(r) == time then [r] + At(s, time) else At(s, time)
  {
    assert ([r] + s)[1..] == s;
  }

  lemma {:induction false} InsertKeepsRecords(r: Record, s: seq<Record>)
    ensures forall x :: x in InsertRecord(r, s) <==> x == r || x in s
    ensures |InsertRecord(r, s)| == |s| + 1
  {
    if s == [] || SortAt(r) <= SortAt(s[0]) {
    } else {
      InsertKeepsRecords(r, s[1..]);
      assert s == [s[0]] + s[1..];
    }
  }

  lemma {:induction false} InsertKeepsAscending(r: Record, s: seq<Record>)
    requires Ascending(s)
    ensures Ascending(InsertRecord(r, s))
  {
    if s == [] || SortAt(r) <= SortAt(s[0]) {
    } else {
      InsertKeepsAscending(r, s[1..]);
      InsertKeepsRecords(r, s[1..]);
      var rest := InsertRecord(r, s[1..]);
      forall i | 0 <= i < |rest| ensures SortAt(s[0]) <= SortAt(rest[i]) {
        assert rest[i] in rest;
      }
    }
  }

  lemma {:induction false} InsertKeepsDistinct(r: Record, s: seq<Record>)
    requires DistinctKeys(s) && forall x | x in s :: x.key != r.key
    ensures DistinctKeys(InsertRecord(r, s))
  {
    if s == [] || SortAt(r) <= SortAt(s[0]) {
    } else {
      assert s == [s[0]] + s[1..];
      InsertKeepsDistinct(r, s[1..]);
      InsertKeepsRecords(r, s[1..]);
      var rest := InsertRecord(r, s[1..]);
      forall i | 0 <= i < |rest| ensures rest[i].key != s[0].key {
        assert rest[i] in rest;
      }
    }
  }

  lemma {:induction false} InsertIsStable(r: Record, s: seq<Record>, time: int)
    ensures At(InsertRecord(r, s), time) == if SortAt(r) == time then [r] + At(s, time) else At(s, time)
  {
    if s == [] || SortAt(r) <= SortAt(s[0]) {
      AtCons(r, s, time);
    } else {
      InsertIsStable(r, s[1..], time);
      AtCons(s[0], InsertRecord(r, s[1..]), time);
    }
  }

  /** The queue is ordered by time and keeps the order of records of the same time. */
  lemma {:induction false} ChronologicalSorts(s: seq<Record>, time: int)
    ensures Ascending(Chronological(s)) && At(Chronological(s), time) == At(s, time)
  {
    if s != [] {
      ChronologicalSorts(s[1..], time);
      InsertKeepsAscending(s[0], Chronological(s[1..]));
      InsertIsStable(s[0], Chronological(s[1..]), time);
    }
  }

  /** It holds the same records, each once. */
  lemma {:induction false} ChronologicalKeepsRecords(s: seq<Record>)
    ensures |Chronological(s)| == |s| && forall x :: x in Chronological(s) <==> x in s
    ensures DistinctKeys(s) ==> DistinctKeys(Chronological(s))
  {
    if s != [] {
      ChronologicalKeepsRecords(s[1..]);
      InsertKeepsRecords(s[0], Chronological(s[1..]));
      assert s == [s[0]] + s[1..];
      if DistinctKeys(s) {
        InsertKeepsDistinct(s[0], Chronological(s[1..]));
      }
    }
  }

  /** What the two queries return: each record once, under its own kind. */
  ghost predicate GoodInput(orders: seq<Record>, topups: seq<Record>) {
    && DistinctKeys(orders) && DistinctKeys(topups)
    && (forall r | r in orders :: r.key.kind == Order) && (forall r | r in topups :: r.key.kind == Topup)
  }

  lemma QueueIsDistinct(orders: seq<Record>, topups: seq<Record>, limit: Option<nat>)
    requires GoodInput(orders, topups)
    ensures DistinctKeys(orders + topups) && DistinctKeys(Queue(orders, topups, limit))
  {
    forall i, j | 0 <= i < |orders| && 0 <= j < |topups| ensures orders[i].key != topups[j].key {
      assert orders[i] in orders && topups[j] in topups;
    }
    ChronologicalKeepsRecords(orders + topups);
  }

  /** The moment a record counts as collected: its payment or decision time, or else its creation time. */
  ghost predicate CollectedAt(r: Record, time: int) {
    r.collectedAt == Some(time) || (r.collectedAt == None && r.createdAt == time)
  }

  /** The queue never goes back in time. */
  lemma QueueInCollectionOrder(orders: seq<Record>, topups: seq<Record>, limit: Option<nat>, i: nat, j: nat,
                               time: int, later: int)
    requires i <= j < |Queue(orders, topups, limit)|
    requires CollectedAt(Queue(orders, topups, limit)[i], time) && CollectedAt(Queue(orders, topups, limit)[j], later)
    ensures time <= later
  {
    ChronologicalSorts(orders + topups, 0);
  }

  /** With a limit the queue is that many of the earliest records, otherwise all of them. */
  lemma QueueIsEarliest(orders: seq<Record>, topups: seq<Record>, limit: Option<nat>)
    ensures var queue, work := Queue(orders, topups, limit), Work(orders, topups);
      && queue <= work && |work| == |orders| + |topups|
      && |queue| == if limit.Some? && 0 < limit.value < |work| then limit.value else |work|
  {
    ChronologicalKeepsRecords(orders + topups);
  }

  lemma {:induction false} AtConcat(a: seq<Record>, b: seq<Record>, time: int)
    ensures At(a + b, time) == At(a, time) + At(b, time)
  {
    if a == [] {
      assert a + b == b;
    } else {
      assert (a + b)[0] == a[0] && (a + b)[1..] == a[1..] + b;
      AtConcat(a[1..], b, time);
    }
  }

  /** Of records collected at one moment the orders come first, then the top-ups, each in their table's order. */
  lemma TiesKeepTheirOrder(orders: seq<Record>, topups: seq<Record>, time: int)
    ensures At(Work(orders, topups), time) == At(orders, time) + At(topups, time)
  {
    ChronologicalSorts(orders + topups, time);
    AtConcat(orders, topups, time);
  }

  // ----- The run -----

  type Troubles = nat -> Trouble

  /** The database after the first `i` calls. */
  function After(db: Db, queue: seq<Record>, troubles: Troubles, i: nat): Db
    requires i <= |queue|
  {
    if i == 0 then db else Create(After(db, queue, troubles, i - 1), queue[i - 1], troubles(i - 1)).0
  }

  function AnswerOf(db: Db, queue: seq<Record>, troubles: Troubles, i: nat): Answer
    requires i < |queue|
  {
    Create(After(db, queue, troubles, i), queue[i], troubles(i)).1
  }

  datatype Report = Report(created: nat, existed: nat, skipped: nat, failures: seq<Key>)

  /** How the loop counts one answer; `before` holds the records that had a receipt before the run. */
  function CountAnswer(report: Report, before: set<Key>, key: Key, a: Answer): Report {
    match a
    case Threw => report.(failures := report.failures + [key])
    case NoReceipt => report.(skipped := report.skipped + 1)
    case Receipt(_) =>
      if key in before then report.(existed := report.existed + 1) else report.(created := report.created + 1)
  }

  function ReportOf(db: Db, queue: seq<Record>, troubles: Troubles, i: nat): Report
    requires i <= |queue|
  {
    if i == 0 then Report(0, 0, 0, [])
    else
      CountAnswer(ReportOf(db, queue, troubles, i - 1), db.receipts.Keys, queue[i - 1].key,
                  AnswerOf(db, queue, troubles, i - 1))
  }

  /** Every record of the queue is counted once. */
  lemma {:induction false} CountsAddUp(db: Db, queue: seq<Record>, troubles: Troubles, i: nat)
    requires i <= |queue|
    ensures var r := ReportOf(db, queue, troubles, i); r.created + r.existed + r.skipped + |r.failures| == i
  {
    if i > 0 {
      CountsAddUp(db, queue, troubles, i - 1);
    }
  }

  ghost predicate NumbersBelowNext(db: Db) {
    forall key {:trigger db.receipts[key]} | key in db.receipts :: db.receipts[key] < db.next
  }

  /** What a run keeps: receipts stay as they are, and new ones carry numbers from `from` up. */
  ghost predicate Extends(db: Db, later: Db, from: nat) {
    && db.next <= later.next && NumbersBelowNext(later)
    && (forall key {:trigger key in later.receipts} | key in db.receipts ::
          key in later.receipts && later.receipts[key] == db.receipts[key])
    && (forall key {:trigger later.receipts[key]} | key in later.receipts && key !in db.receipts ::
          from <= later.receipts[key])
  }

  lemma {:induction false} RunExtends(db: Db, queue: seq<Record>, troubles: Troubles, i: nat, j: nat)
    requires i <= j <= |queue| && NumbersBelowNext(After(db, queue, troubles, i))
    ensures var d := After(db, queue, troubles, i); Extends(d, After(db, queue, troubles, j), d.next)
    decreases j
  {
    if i < j {
      RunExtends(db, queue, troubles, i, j - 1);
    }
  }

  /** A receipt of the run was issued when its record's turn came, with the number next in line then. */
  lemma {:induction false} IssuedInTurn(db: Db, queue: seq<Record>, troubles: Troubles, i: nat, a: nat)
    requires DistinctKeys(queue) && a < i <= |queue| && queue[a].key !in db.receipts
    ensures queue[a].key !in After(db, queue, troubles, a).receipts
    ensures var d := After(db, queue, troubles, i);
      queue[a].key in d.receipts <==> AnswerOf(db, queue, troubles, a).Receipt?
    ensures var d := After(db, queue, troubles, i);
      queue[a].key in d.receipts ==> d.receipts[queue[a].key] == After(db, queue, troubles, a).next
    decreases i
  {
    if a + 1 < i {
      IssuedInTurn(db, queue, troubles, i - 1, a);
    } else {
      NotYetIssued(db, queue, troubles, a, a);
    }
  }

  lemma {:induction false} NotYetIssued(db: Db, queue: seq<Record>, troubles: Troubles, i: nat, a: nat)
    requires DistinctKeys(queue) && i <= a < |queue| && queue[a].key !in db.receipts
    ensures queue[a].key !in After(db, queue, troubles, i).receipts
    decreases i
  {
    if i > 0 {
      NotYetIssued(db, queue, troubles, i - 1, a);
    }
  }

  /** The record at place `a` gets a new receipt in the run. */
  predicate NewlyIssued(db: Db, queue: seq<Record>, troubles: Troubles, a: nat) {
    && a < |queue| && queue[a].key !in db.receipts
    && queue[a].key in After(db, queue, troubles, |queue|).receipts
  }

  /** A record gets a new receipt exactly when it had none, passes the guards, and nothing goes wrong in its call. */
  lemma IssuedExactlyWhenDue(db: Db, queue: seq<Record>, troubles: Troubles, a: nat)
    requires DistinctKeys(queue) && a < |queue|
    ensures NewlyIssued(db, queue, troubles, a) <==>
      && queue[a].key !in db.receipts && troubles(a).Fine?
      && queue[a].card && queue[a].hasCustomer && (queue[a].key.kind == Order || queue[a].tenant)
  {
    if queue[a].key !in db.receipts {
      IssuedInTurn(db, queue, troubles, |queue|, a);
    }
  }

  function NumberAfter(db: Db, queue: seq<Record>, troubles: Troubles, a: nat): nat
    requires NewlyIssued(db, queue, troubles, a)
  {
    After(db, queue, troubles, |queue|).receipts[queue[a].key]
  }

  /** New numbers are above all the old ones, and follow the queue. */
  lemma NumbersFollowTheQueue(db: Db, queue: seq<Record>, troubles: Troubles, a: nat, b: nat)
    requires DistinctKeys(queue) && NumbersBelowNext(db)
    requires NewlyIssued(db, queue, troubles, a) && NewlyIssued(db, queue, troubles, b)
    ensures db.next <= NumberAfter(db, queue, troubles, a)
    ensures a < b <==> NumberAfter(db, queue, troubles, a) < NumberAfter(db, queue, troubles, b)
  {
    IssuedInTurn(db, queue, troubles, |queue|, a);
    IssuedInTurn(db, queue, troubles, |queue|, b);
    RunExtends(db, queue, troubles, 0, a);
    RunExtends(db, queue, troubles, 0, b);
    if a < b {
      TurnPasses(db, queue, troubles, a, b);
    }
    if b < a {
      TurnPasses(db, queue, troubles, b, a);
    }
  }

  lemma TurnPasses(db: Db, queue: seq<Record>, troubles: Troubles, a: nat, b: nat)
    requires NumbersBelowNext(db) && a < b <= |queue|
    requires queue[a].key !in After(db, queue, troubles, a).receipts && AnswerOf(db, queue, troubles, a).Receipt?
    ensures After(db, queue, troubles, a).next < After(db, queue, troubles, b).next
  {
    RunExtends(db, queue, troubles, 0, a + 1);
    RunExtends(db, queue, troubles, a + 1, b);
  }

  /** Receipts issued in one run are numbered by collection time, orders and top-ups together. */
  lemma NumbersFollowCollection(db: Db, orders: seq<Record>, topups: seq<Record>, limit: Option<nat>,
                                troubles: Troubles, a: nat, b: nat)
    requires GoodInput(orders, topups) && NumbersBelowNext(db)
    requires NewlyIssued(db, Queue(orders, topups, limit), troubles, a)
    requires NewlyIssued(db, Queue(orders, topups, limit), troubles, b)
    requires exists time, later | time < later ::
               CollectedAt(Queue(orders, topups, limit)[a], time) && CollectedAt(Queue(orders, topups, limit)[b], later)
    ensures NumberAfter(db, Queue(orders, topups, limit), troubles, a)
          < NumberAfter(db, Queue(orders, topups, limit), troubles, b)
  {
    if b <= a {
      var time, later :| time < later &&
        CollectedAt(Queue(orders, topups, limit)[a], time) && CollectedAt(Queue(orders, topups, limit)[b], later);
      QueueInCollectionOrder(orders, topups, limit, b, a, later, time);
    }
    QueueIsDistinct(orders, topups, limit);
    NumbersFollowTheQueue(db, Queue(orders, topups, limit), troubles, a, b);
  }

  // ----- The final check -----

  function Customers(records: seq<Record>): nat {
    if records == [] then 0
    else Customers(records[..|records| - 1]) + if records[|records| - 1].hasCustomer then 1 else 0
  }

  /** Records with a receipt; those with a customer but none; those without a customer but with one. */
  datatype Group = Receipted | Missing | Stray

  predicate Belongs(g: Group, r: Record, db: Db) {
    match g
    case Receipted => r.key in db.receipts
    case Missing => r.hasCustomer && r.key !in db.receipts
    case Stray => !r.hasCustomer && r.key in db.receipts
  }

  function Keys(g: Group, records: seq<Record>, db: Db): set<Key> {
    if records == [] then {}
    else
      var last := records[|records| - 1];
      Keys(g, records[..|records| - 1], db) + if Belongs(g, last, db) then {last.key} else {}
  }

  /** `Keys` holds the keys of the records that belong to the group, and no others. */
  lemma {:induction false} KeysAreOfTheGroup(g: Group, records: seq<Record>, db: Db, key: Key)
    ensures key in Keys(g, records, db) <==> exists i :: HasKey(g, records, db, key, i)
  {
    if records != [] {
      var front := records[..|records| - 1];
      KeysAreOfTheGroup(g, front, db, key);
      forall i | HasKey(g, records, db, key, i) && i < |front| ensures HasKey(g, front, db, key, i) {
      }
      forall i | HasKey(g, front, db, key, i) ensures HasKey(g, records, db, key, i) {
      }
      if key in Keys(g, records, db) && key !in Keys(g, front, db) {
        assert HasKey(g, records, db, key, |front|);
      }
    }
  }

  predicate HasKey(g: Group, records: seq<Record>, db: Db, key: Key, i: int) {
    0 <= i < |records| && Belongs(g, records[i], db) && records[i].key == key
  }

  /** The script's gap: records with a customer, less records with a receipt. */
  function Gap(records: seq<Record>, db: Db): int {
    Customers(records) - |Keys(Receipted, records, db)|
  }

  lemma KeysGrow(g: Group, front: seq<Record>, last: Record, db: Db)
    requires DistinctKeys(front + [last])
    ensures |Keys(g, front + [last], db)| == |Keys(g, front, db)| + if Belongs(g, last, db) then 1 else 0
  {
    var records := front + [last];
    assert records[..|front|] == front;
    KeysAreOfTheGroup(g, front, db, last.key);
    forall i ensures !HasKey(g, front, db, last.key, i) {
      if 0 <= i < |front| {
        assert records[i].key != records[|front|].key;
      }
    }
  }

  /** What the gap measures: the missing receipts, less the stray ones. */
  lemma {:induction false} GapIsMissingLessStray(records: seq<Record>, db: Db)
    requires DistinctKeys(records)
    ensures Gap(records, db) == |Keys(Missing, records, db)| - |Keys(Stray, records, db)|
  {
    if records != [] {
      var front, last := records[..|records| - 1], records[|records| - 1];
      assert records == front + [last];
      GapIsMissingLessStray(front, db);
      KeysGrow(Receipted, front, last, db);
      KeysGrow(Missing, front, last, db);
      KeysGrow(Stray, front, last, db);
    }
  }

  /** With no receipt on a record without customer, the check passes exactly when none is missing. */
  lemma GapClosedMeansComplete(records: seq<Record>, db: Db)
    requires DistinctKeys(records) && Keys(Stray, records, db) == {}
    ensures Gap(records, db) <= 0 <==> Complete(records, db)
  {
    GapIsMissingLessStray(records, db);
    if Keys(Missing, records, db) != {} {
      var key :| key in Keys(Missing, records, db);
      KeysAreOfTheGroup(Missing, records, db, key);
    } else {
      forall i | 0 <= i < |records| && records[i].hasCustomer ensures records[i].key in db.receipts {
        KeysAreOfTheGroup(Missing, records, db, records[i].key);
        assert HasKey(Missing, records, db, records[i].key, i) <==> records[i].key !in db.receipts;
      }
    }
  }

  /** Every record with a customer has a receipt. */
  ghost predicate Complete(records: seq<Record>, db: Db) {
    forall r | r in records && r.hasCustomer :: r.key in db.receipts
  }

  /** A stray receipt can hide a missing one from the check. */
  lemma StrayReceiptHidesMissingOne(db: Db, a: Record, b: Record)
    requires a.hasCustomer && a.key !in db.receipts && !b.hasCustomer && b.key in db.receipts
    ensures Gap([a, b], db) <= 0 && !Complete([a, b], db)
  {
    var one := [a];
    assert [a, b][..1] == one && one[..0] == [];
    assert Customers(one) == 1 && Keys(Receipted, one, db) == {};
    assert Customers([a, b]) == 1 && |Keys(Receipted, [a, b], db)| == 1;
    assert a in [a, b];
  }

  // ----- Whole runs -----

  /** Receipts only ever go to card records with a customer. */
  lemma {:induction false} RunIssuesNoStray(db: Db, queue: seq<Record>, troubles: Troubles, i: nat,
                                            records: seq<Record>)
    requires i <= |queue| && Keys(Stray, records, db) == {}
    requires forall r, q | r in records && q in queue && r.key == q.key :: r == q
    ensures Keys(Stray, records, After(db, queue, troubles, i)) == {}
  {
    if i > 0 {
      RunIssuesNoStray(db, queue, troubles, i - 1, records);
      var d, d' := After(db, queue, troubles, i - 1), After(db, queue, troubles, i);
      forall r | r in records ensures !Belongs(Stray, r, d') {
        var j :| 0 <= j < |records| && records[j] == r;
        KeysAreOfTheGroup(Stray, records, d, r.key);
        assert HasKey(Stray, records, d, r.key, j) <==> Belongs(Stray, r, d);
        assert queue[i - 1] in queue;
      }
      forall key ensures key !in Keys(Stray, records, d') {
        KeysAreOfTheGroup(Stray, records, d', key);
      }
    }
  }

  lemma {:induction false} KeepsReceipt(db: Db, queue: seq<Record>, troubles: Troubles, i: nat, key: Key)
    requires i <= |queue| && key in db.receipts
    ensures key in After(db, queue, troubles, i).receipts
  {
    if i > 0 {
      KeepsReceipt(db, queue, troubles, i - 1, key);
    }
  }

  /** After a run a record has a receipt exactly when it had one, or was due one and nothing went wrong. */
  lemma ReceiptAfterRun(db: Db, queue: seq<Record>, troubles: Troubles, a: nat)
    requires DistinctKeys(queue) && a < |queue|
    ensures queue[a].key in After(db, queue, troubles, |queue|).receipts <==>
      queue[a].key in db.receipts || (Due(queue[a]) && troubles(a).Fine?)
  {
    if queue[a].key in db.receipts {
      KeepsReceipt(db, queue, troubles, |queue|, queue[a].key);
    } else {
      IssuedExactlyWhenDue(db, queue, troubles, a);
    }
  }

  /** The call for this record would change nothing: it has its receipt, or is not due one. */
  predicate Settled(db: Db, r: Record) {
    r.key in db.receipts || !Due(r)
  }

  lemma {:induction false} SettledRunIsIdle(db: Db, queue: seq<Record>, troubles: Troubles, i: nat)
    requires i <= |queue| && forall a | 0 <= a < |queue| :: troubles(a).Fine? && Settled(db, queue[a])
    ensures After(db, queue, troubles, i) == db
    ensures ReportOf(db, queue, troubles, i).created == 0
  {
    if i > 0 {
      SettledRunIsIdle(db, queue, troubles, i - 1);
    }
  }

  /** A second run without trouble is idle exactly when nothing went wrong for a record due a receipt in the first. */
  lemma SecondRunIsIdleExactly(db: Db, queue: seq<Record>, first: Troubles, second: Troubles)
    requires DistinctKeys(queue) && forall a | 0 <= a < |queue| :: second(a).Fine?
    ensures var d := After(db, queue, first, |queue|);
      After(d, queue, second, |queue|) == d <==>
      forall a | 0 <= a < |queue| :: Settled(db, queue[a]) || first(a).Fine?
  {
    var d := After(db, queue, first, |queue|);
    forall a | 0 <= a < |queue| ensures Settled(d, queue[a]) <==> Settled(db, queue[a]) || first(a).Fine? {
      ReceiptAfterRun(db, queue, first, a);
    }
    if forall a | 0 <= a < |queue| :: Settled(d, queue[a]) {
      SettledRunIsIdle(d, queue, second, |queue|);
    }
    forall a | 0 <= a < |queue| && !Settled(d, queue[a]) ensures After(d, queue, second, |queue|) != d {
      ReceiptAfterRun(d, queue, second, a);
    }
  }

  // ----- The dry run -----

  datatype Projection = Projection(create: nat, have: nat, noCustomer: nat)

  /** The dry run's three counts over the queue's first `i` records; they may overlap. */
  function Project(db: Db, queue: seq<Record>, i: nat): Projection
    requires i <= |queue|
  {
    if i == 0 then Projection(0, 0, 0) else ProjectOne(Project(db, queue, i - 1), db, queue[i - 1])
  }

  function ProjectOne(p: Projection, db: Db, r: Record): Projection {
    Projection(
      p.create + (if r.key !in db.receipts && r.hasCustomer then 1 else 0),
      p.have + (if r.key in db.receipts then 1 else 0),
      p.noCustomer + (if !r.hasCustomer then 1 else 0))
  }

  /**
   * The dry run against a run in which nothing throws: it counts as to be created also what the service
   * will skip although there is a customer, and it counts a stray receipt twice.
   */
  lemma {:induction false} DryRunForetells(db: Db, queue: seq<Record>, troubles: Troubles, i: nat)
    requires i <= |queue| && DistinctKeys(queue)
    requires forall a | 0 <= a < |queue| :: !troubles(a).Throws?
    ensures Foretells(Project(db, queue, i), ReportOf(db, queue, troubles, i),
                      Unserved(db, queue, troubles, i), |Keys(Stray, queue[..i], db)|)
  {
    if i > 0 {
      DryRunForetells(db, queue, troubles, i - 1);
      AnswerTells(db, queue, troubles, i - 1);
      StrayGrows(db, queue, i - 1);
      UnservedGrows(db, queue, troubles, i - 1);
      ForetellsOne(Project(db, queue, i - 1), ReportOf(db, queue, troubles, i - 1),
                   Unserved(db, queue, troubles, i - 1), |Keys(Stray, queue[..i - 1], db)|,
                   db, queue[i - 1], AnswerOf(db, queue, troubles, i - 1));
    }
  }

  /** How many of the first `i` records have a customer and no receipt after their calls. */
  function Unserved(db: Db, queue: seq<Record>, troubles: Troubles, i: nat): nat
    requires i <= |queue|
  {
    |Keys(Missing, queue[..i], After(db, queue, troubles, i))|
  }

  predicate Foretells(p: Projection, r: Report, unserved: nat, strays: nat) {
    && p.create == r.created + unserved && p.have == r.existed && r.failures == []
    && p.noCustomer + unserved == r.skipped + strays
  }

  lemma ForetellsOne(p: Projection, report: Report, unserved: nat, strays: nat, db: Db, r: Record, a: Answer)
    requires Foretells(p, report, unserved, strays)
    requires !a.Threw? && (r.key in db.receipts ==> a.Receipt?)
    requires !r.hasCustomer && r.key !in db.receipts ==> a.NoReceipt?
    ensures Foretells(ProjectOne(p, db, r), CountAnswer(report, db.receipts.Keys, r.key, a),
                      unserved + if r.hasCustomer && a.NoReceipt? then 1 else 0,
                      strays + if Belongs(Stray, r, db) then 1 else 0)
  {
  }

  lemma StrayGrows(db: Db, queue: seq<Record>, i: nat)
    requires i < |queue| && DistinctKeys(queue)
    ensures |Keys(Stray, queue[..i + 1], db)|
         == |Keys(Stray, queue[..i], db)| + if Belongs(Stray, queue[i], db) then 1 else 0
  {
    assert queue[..i + 1] == queue[..i] + [queue[i]];
    KeysGrow(Stray, queue[..i], queue[i], db);
  }

  lemma {:induction false} SameReceiptsSameKeys(g: Group, records: seq<Record>, d: Db, d': Db)
    requires forall r | r in records :: r.key in d.receipts <==> r.key in d'.receipts
    ensures Keys(g, records, d) == Keys(g, records, d')
  {
    if records != [] {
      SameReceiptsSameKeys(g, records[..|records| - 1], d, d');
      assert records[|records| - 1] in records;
    }
  }

  /** A call concerns its own record only, and leaves it without a receipt exactly when it answers so. */
  lemma CallConcernsItsRecord(db: Db, queue: seq<Record>, troubles: Troubles, i: nat)
    requires i < |queue| && DistinctKeys(queue) && !troubles(i).Throws?
    ensures var d, d' := After(db, queue, troubles, i), After(db, queue, troubles, i + 1);
      && (forall r | r in queue[..i] :: r.key in d.receipts <==> r.key in d'.receipts)
      && (queue[i].key in d'.receipts <==> !AnswerOf(db, queue, troubles, i).NoReceipt?)
  {
  }

  lemma UnservedGrows(db: Db, queue: seq<Record>, troubles: Troubles, i: nat)
    requires i < |queue| && DistinctKeys(queue) && !troubles(i).Throws?
    ensures Unserved(db, queue, troubles, i + 1)
         == Unserved(db, queue, troubles, i)
            + if queue[i].hasCustomer && AnswerOf(db, queue, troubles, i).NoReceipt? then 1 else 0
  {
    CallConcernsItsRecord(db, queue, troubles, i);
    MissingGrows(queue, i, After(db, queue, troubles, i), After(db, queue, troubles, i + 1));
  }

  lemma MissingGrows(queue: seq<Record>, i: nat, d: Db, d': Db)
    requires i < |queue| && DistinctKeys(queue)
    requires forall r | r in queue[..i] :: r.key in d.receipts <==> r.key in d'.receipts
    ensures |Keys(Missing, queue[..i + 1], d')|
         == |Keys(Missing, queue[..i], d)| + if Belongs(Missing, queue[i], d') then 1 else 0
  {
    assert queue[..i + 1] == queue[..i] + [queue[i]];
    KeysGrow(Missing, queue[..i], queue[i], d');
    SameReceiptsSameKeys(Missing, queue[..i], d, d');
  }

  lemma AnswerTells(db: Db, queue: seq<Record>, troubles: Troubles, a: nat)
    requires DistinctKeys(queue) && a < |queue| && !troubles(a).Throws?
    ensures var r, answer := queue[a], AnswerOf(db, queue, troubles, a);
      && !answer.Threw? && (r.key in db.receipts ==> answer.Receipt?)
      && (!r.hasCustomer && r.key !in db.receipts ==> answer.NoReceipt?)
  {
    if queue[a].key in db.receipts {
      KeepsReceipt(db, queue, troubles, a, queue[a].key);
    } else {
      NotYetIssued(db, queue, troubles, a, a);
    }
  }

  function Customerless(records: seq<Record>): (n: nat)
    ensures n + Customers(records) == |records|
  {
    if records == [] then 0
    else Customerless(records[..|records| - 1]) + if records[|records| - 1].hasCustomer then 0 else 1
  }

  lemma ProjectedOneMore(db: Db, queue: seq<Record>, i: nat)
    requires i < |queue| && DistinctKeys(queue)
    ensures |Keys(Missing, queue[..i + 1], db)|
         == |Keys(Missing, queue[..i], db)| + if Belongs(Missing, queue[i], db) then 1 else 0
    ensures |Keys(Receipted, queue[..i + 1], db)|
         == |Keys(Receipted, queue[..i], db)| + if Belongs(Receipted, queue[i], db) then 1 else 0
    ensures Customerless(queue[..i + 1]) == Customerless(queue[..i]) + if queue[i].hasCustomer then 0 else 1
  {
    assert queue[..i + 1] == queue[..i] + [queue[i]] && queue[..i + 1][..i] == queue[..i];
    KeysGrow(Missing, queue[..i], queue[i], db);
    KeysGrow(Receipted, queue[..i], queue[i], db);
  }

  /** The dry run counts the records with a customer and no receipt, with a receipt, and without customer. */
  lemma {:induction false} ProjectionCounts(db: Db, queue: seq<Record>, i: nat)
    requires i <= |queue| && DistinctKeys(queue)
    ensures Project(db, queue, i)
         == Projection(|Keys(Missing, queue[..i], db)|, |Keys(Receipted, queue[..i], db)|, Customerless(queue[..i]))
  {
    if i > 0 {
      ProjectionCounts(db, queue, i - 1);
      ProjectedOneMore(db, queue, i - 1);
    }
  }

  lemma CallCounts(d: Db, before: set<Key>, report: Report, r: Record, t: Trouble)
    requires r.key in before <==> r.key in d.receipts
    ensures var (d', a) := Create(d, r, t);
      |d'.receipts| - |d.receipts| == CountAnswer(report, before, r.key, a).created - report.created
  {
    var (d', a) := Create(d, r, t);
    if d'.receipts != d.receipts {
      assert d'.receipts.Keys == d.receipts.Keys + {r.key};
    }
  }

  /** The receipts counted as created are those that were not there before. */
  lemma {:induction false} CreatedAreNew(db: Db, queue: seq<Record>, troubles: Troubles, i: nat)
    requires i <= |queue| && DistinctKeys(queue)
    ensures |After(db, queue, troubles, i).receipts| == |db.receipts| + ReportOf(db, queue, troubles, i).created
  {
    if i > 0 {
      CreatedAreNew(db, queue, troubles, i - 1);
      ReceiptBeforeItsTurn(db, queue, troubles, i - 1);
      CallCounts(After(db, queue, troubles, i - 1), db.receipts.Keys, ReportOf(db, queue, troubles, i - 1),
                 queue[i - 1], troubles(i - 1));
    }
  }

  /** When its turn comes a record has a receipt exactly when it had one before the run. */
  lemma ReceiptBeforeItsTurn(db: Db, queue: seq<Record>, troubles: Troubles, a: nat)
    requires a < |queue| && DistinctKeys(queue)
    ensures queue[a].key in After(db, queue, troubles, a).receipts <==> queue[a].key in db.receipts
  {
    if queue[a].key in db.receipts {
      KeepsReceipt(db, queue, troubles, a, queue[a].key);
    } else {
      NotYetIssued(db, queue, troubles, a, a);
    }
  }

  /** The numbers a call takes from the sequence without issuing a receipt. */
  function Burned(db: Db, r: Record, t: Trouble): nat {
    match t
    case Fine => 0
    case Throws(taken) => if taken then 1 else 0
    case Swallows(taken) => if taken && r.key !in db.receipts && Due(r) then 1 else 0
  }

  function AllBurned(db: Db, queue: seq<Record>, troubles: Troubles, i: nat): nat
    requires i <= |queue|
  {
    if i == 0 then 0 else AllBurned(db, queue, troubles, i - 1) + Burned(db, queue[i - 1], troubles(i - 1))
  }

  /** Every number the run takes goes to a receipt counted as created, or is lost to trouble after it was taken. */
  lemma {:induction false} NumbersAreAccountedFor(db: Db, queue: seq<Record>, troubles: Troubles, i: nat)
    requires i <= |queue| && DistinctKeys(queue)
    ensures After(db, queue, troubles, i).next
         == db.next + ReportOf(db, queue, troubles, i).created + AllBurned(db, queue, troubles, i)
  {
    if i > 0 {
      NumbersAreAccountedFor(db, queue, troubles, i - 1);
      ReceiptBeforeItsTurn(db, queue, troubles, i - 1);
      NumbersOfCall(After(db, queue, troubles, i - 1), db, ReportOf(db, queue, troubles, i - 1), queue[i - 1],
                    troubles(i - 1));
    }
  }

  lemma NumbersOfCall(d: Db, db: Db, report: Report, r: Record, t: Trouble)
    requires r.key in db.receipts <==> r.key in d.receipts
    ensures var (d', a) := Create(d, r, t);
      d'.next - d.next == CountAnswer(report, db.receipts.Keys, r.key, a).created - report.created + Burned(db, r, t)
  {
  }

  // ----- When the check passes -----

  /** What the script's last test says. */
  predicate Passes(report: Report, orders: seq<Record>, topups: seq<Record>, db: Db) {
    report.failures == [] && Gap(orders, db) <= 0 && Gap(topups, db) <= 0
  }

  predicate NothingThrows(troubles: Troubles, n: nat) {
    forall a: nat | a < n :: !troubles(a).Throws?
  }

  lemma {:induction false} FailuresAreThrows(db: Db, queue: seq<Record>, troubles: Troubles, i: nat)
    requires i <= |queue|
    ensures ReportOf(db, queue, troubles, i).failures == [] <==> NothingThrows(troubles, i)
  {
    if i > 0 {
      FailuresAreThrows(db, queue, troubles, i - 1);
    }
  }

  lemma SameKeySameRecord(all: seq<Record>, queue: seq<Record>, part: seq<Record>)
    requires DistinctKeys(all) && (forall r | r in queue :: r in all) && (forall r | r in part :: r in all)
    ensures forall r, q | r in part && q in queue && r.key == q.key :: r == q
  {
    forall r, q | r in part && q in queue && r.key == q.key ensures r == q {
      var i :| 0 <= i < |all| && all[i] == r;
      var j :| 0 <= j < |all| && all[j] == q;
    }
  }

  lemma RunKeepsNoStray(db: Db, orders: seq<Record>, topups: seq<Record>, limit: Option<nat>, troubles: Troubles,
                        part: seq<Record>)
    requires GoodInput(orders, topups) && (part == orders || part == topups) && Keys(Stray, part, db) == {}
    ensures var queue := Queue(orders, topups, limit);
      Keys(Stray, part, After(db, queue, troubles, |queue|)) == {}
  {
    var queue := Queue(orders, topups, limit);
    QueueIsDistinct(orders, topups, limit);
    ChronologicalKeepsRecords(orders + topups);
    forall r | r in queue ensures r in orders + topups {
      assert r in Work(orders, topups);
    }
    SameKeySameRecord(orders + topups, queue, part);
    RunIssuesNoStray(db, queue, troubles, |queue|, part);
  }

  /** A record with a customer that is left without a receipt, for whatever reason, keeps its gap open. */
  lemma UnservedKeepsGapOpen(db: Db, orders: seq<Record>, topups: seq<Record>, limit: Option<nat>, troubles: Troubles,
                             part: seq<Record>, r: Record)
    requires GoodInput(orders, topups) && (part == orders || part == topups) && Keys(Stray, part, db) == {}
    ensures var queue := Queue(orders, topups, limit);
      var after := After(db, queue, troubles, |queue|);
      r in part && r.hasCustomer && r.key !in after.receipts ==> Gap(part, after) > 0
  {
    var queue := Queue(orders, topups, limit);
    RunKeepsNoStray(db, orders, topups, limit, troubles, part);
    QueueIsDistinct(orders, topups, limit);
    PartIsDistinct(orders, topups, part);
    GapClosedMeansComplete(part, After(db, queue, troubles, |queue|));
  }

  lemma PartIsDistinct(orders: seq<Record>, topups: seq<Record>, part: seq<Record>)
    requires GoodInput(orders, topups) && (part == orders || part == topups)
    ensures DistinctKeys(part)
  {
  }

  /** A record with a customer and no receipt passes the guards, and nothing goes wrong in its call. */
  predicate Served(db: Db, r: Record, t: Trouble) {
    r.hasCustomer && r.key !in db.receipts ==> Due(r) && t.Fine?
  }

  predicate AllServed(db: Db, queue: seq<Record>, troubles: Troubles) {
    forall a: nat | a < |queue| :: Served(db, queue[a], troubles(a))
  }

  /**
   * Given no stray receipt, a full run passes exactly when no call throws, and every record with a
   * customer had a receipt or passes the guards without a swallowed error.
   */
  lemma FullRunPassesExactly(db: Db, orders: seq<Record>, topups: seq<Record>, troubles: Troubles)
    requires GoodInput(orders, topups)
    requires Keys(Stray, orders, db) == {} && Keys(Stray, topups, db) == {}
    ensures var queue := Queue(orders, topups, None);
      Passes(ReportOf(db, queue, troubles, |queue|), orders, topups, After(db, queue, troubles, |queue|))
      <==> NothingThrows(troubles, |queue|) && AllServed(db, queue, troubles)
  {
    var queue := Queue(orders, topups, None);
    FailuresAreThrows(db, queue, troubles, |queue|);
    RunKeepsNoStray(db, orders, topups, None, troubles, orders);
    RunKeepsNoStray(db, orders, topups, None, troubles, topups);
    PassMeansComplete(orders, topups, After(db, queue, troubles, |queue|));
    CompleteMeansServed(db, orders, topups, troubles);
  }

  lemma CompleteMeansServed(db: Db, orders: seq<Record>, topups: seq<Record>, troubles: Troubles)
    requires GoodInput(orders, topups)
    ensures var queue := Queue(orders, topups, None);
      var after := After(db, queue, troubles, |queue|);
      Complete(orders, after) && Complete(topups, after) <==> AllServed(db, queue, troubles)
  {
    var queue := Queue(orders, topups, None);
    var after := After(db, queue, troubles, |queue|);
    QueueIsDistinct(orders, topups, None);
    ChronologicalKeepsRecords(orders + topups);
    forall a: nat | a < |queue|
      ensures (queue[a].hasCustomer ==> queue[a].key in after.receipts) <==> Served(db, queue[a], troubles(a))
      ensures queue[a] in orders || queue[a] in topups
    {
      ReceiptAfterRun(db, queue, troubles, a);
      assert queue[a] in queue;
    }
    forall r | r in orders || r in topups ensures r in queue {
      assert r in orders + topups;
    }
  }

  // ----- The script -----

  const MAX_SAFE_BACKFILL_ROWS := 250000

  datatype Outcome =
    | Stopped
    | Foretold(projection: Projection)
    | Finished(report: Report, orderGap: int, topupGap: int, pass: bool)

  /** The outcome of a finished run: its database, its report, the two gaps, and the verdict. */
  ghost predicate FinishedRun(before: Db, queue: seq<Record>, troubles: Troubles, orders: seq<Record>,
                              topups: seq<Record>, after: Db, o: Outcome)
    requires o.Finished?
  {
    && after == After(before, queue, troubles, |queue|)
    && o.report == ReportOf(before, queue, troubles, |queue|)
    && o.report.created + o.report.existed + o.report.skipped + |o.report.failures| == |queue|
    && o.orderGap == Gap(orders, after) && o.topupGap == Gap(topups, after)
    && o.pass == Passes(o.report, orders, topups, after)
  }

  class ReceiptStore {
    var receipts: map<Key, nat>
    var next: nat

    function Contents(): Db
      reads this
    {
      Db(receipts, next)
    }

    constructor (db: Db)
      ensures Contents() == db
    {
      receipts, next := db.receipts, db.next;
    }

    method CreateFor(r: Record, t: Trouble) returns (a: Answer)
      modifies this
      ensures (Contents(), a) == Create(old(Contents()), r, t)
      ensures a.Threw? <==> t.Throws?
      ensures r.key in old(receipts) && !t.Throws? ==>
                a == Receipt(old(receipts)[r.key]) && Contents() == old(Contents())
      ensures r.key !in old(receipts) ==> (a.Receipt? <==>
                t.Fine? && r.card && r.hasCustomer && (r.key.kind == Order || r.tenant))
      ensures r.key !in old(receipts) && a.Receipt? ==>
                a.number == old(next) && receipts == old(receipts)[r.key := a.number] && next == old(next) + 1
      ensures !a.Receipt? ==> receipts == old(receipts) && next == old(next) + Burned(old(Contents()), r, t)
    {
      if t.Throws? {
        if t.taken { next := next + 1; }
        return Threw;
      }
      if r.key in receipts { return Receipt(receipts[r.key]); }
      if !r.card || !r.hasCustomer { return NoReceipt; }
      if r.key.kind == Topup && !r.tenant { return NoReceipt; }
      if t.Swallows? {
        if t.taken { next := next + 1; }
        return NoReceipt;
      }
      a := Receipt(next);
      receipts, next := receipts[r.key := next], next + 1;
    }

    method Apply(queue: seq<Record>, before: set<Key>, troubles: Troubles) returns (report: Report)
      requires before == receipts.Keys
      modifies this
      ensures Contents() == After(old(Contents()), queue, troubles, |queue|)
      ensures report == ReportOf(old(Contents()), queue, troubles, |queue|)
    {
      var created, existed, skipped, failures := 0, 0, 0, [];
      for i := 0 to |queue|
        invariant Contents() == After(old(Contents()), queue, troubles, i)
        invariant Report(created, existed, skipped, failures) == ReportOf(old(Contents()), queue, troubles, i)
      {
        var a := CreateFor(queue[i], troubles(i));
        if a.Threw? {
          failures := failures + [queue[i].key];
        } else if a.NoReceipt? {
          skipped := skipped + 1;
        } else if queue[i].key in before {
          existed := existed + 1;
        } else {
          created := created + 1;
        }
      }
      report := Report(created, existed, skipped, failures);
    }

    method RunBackfill(orders: seq<Record>, topups: seq<Record>, limit: Option<nat>, dryRun: bool, troubles: Troubles)
      returns (o: Outcome)
      requires GoodInput(orders, topups)
      modifies this
      ensures o.Stopped? <==> |orders| + |topups| > MAX_SAFE_BACKFILL_ROWS
      ensures o.Foretold? ==>
        dryRun && o.projection == Project(Contents(), Queue(orders, topups, limit), |Queue(orders, topups, limit)|)
      ensures !o.Finished? ==> Contents() == old(Contents())
      ensures o.Finished? ==>
        !dryRun && FinishedRun(old(Contents()), Queue(orders, topups, limit), troubles, orders, topups, Contents(), o)
      ensures o.Finished? && o.pass && Keys(Stray, orders, Contents()) == {} && Keys(Stray, topups, Contents()) == {}
        ==> Complete(orders, Contents()) && Complete(topups, Contents())
    {
      if |orders| + |topups| > MAX_SAFE_BACKFILL_ROWS { return Stopped; }
      var queue := Queue(orders, topups, limit);
      if dryRun { return Foretold(Project(Contents(), queue, |queue|)); }
      CountsAddUp(Contents(), queue, troubles, |queue|);
      var report := Apply(queue, receipts.Keys, troubles);
      var orderGap, topupGap := Gap(orders, Contents()), Gap(topups, Contents());
      PassMeansComplete(orders, topups, Contents());
      o := Finished(report, orderGap, topupGap, report.failures == [] && orderGap <= 0 && topupGap <= 0);
    }
  }

  lemma PassMeansComplete(orders: seq<Record>, topups: seq<Record>, db: Db)
    requires GoodInput(orders, topups)
    ensures Keys(Stray, orders, db) == {} && Keys(Stray, topups, db) == {} ==>
      (Gap(orders, db) <= 0 && Gap(topups, db) <= 0 <==> Complete(orders, db) && Complete(topups, db))
  {
    if Keys(Stray, orders, db) == {} && Keys(Stray, topups, db) == {} {
      GapClosedMeansComplete(orders, db);
      GapClosedMeansComplete(topups, db);
    }
  }
}
