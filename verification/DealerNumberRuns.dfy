/**
 * Dealer numbers under concurrency: every SQL statement is one step, and the statements of lazy
 * assignments, of the script's runs and of other writers interleave in any order.
 */
module DealerNumberRuns {
  import opened DealerNumbers
  import opened Options

  type ScriptId = nat
  type CallId = nat

  /** A run of the script: it has counted, has read the sequence, has moved it. */
  datatype Script =
    | Counted(count: nat)
    | Positioned(count: nat, base: nat)
    | Moved(count: nat, base: nat)

  /** A lazy assignment: it has read a customer without number, has drawn one. */
  datatype Call = Looked(id: Id) | Drawn(id: Id, n: nat)

  /** The database, the highest number drawn or reserved so far, and what is under way. */
  datatype System = System(db: Db, top: nat, scripts: map<ScriptId, Script>, calls: map<CallId, Call>)

  datatype Event =
    | Create(id: Id, createdAt: int)
    | Delete(id: Id)
    | Look(call: CallId, id: Id)
    | Draw(call: CallId)
    | Update(call: CallId)
    | CountWaiting(script: ScriptId)
    | ReadSequence(script: ScriptId)
    | MoveSequence(script: ScriptId)
    | WriteBlock(script: ScriptId)

  predicate Draws(s: System, e: Event) {
    e.Draw? && e.call in s.calls && s.calls[e.call].Looked?
  }

  predicate Updates(s: System, e: Event) {
    e.Update? && e.call in s.calls && s.calls[e.call].Drawn?
  }

  predicate Moves(s: System, e: Event) {
    e.MoveSequence? && e.script in s.scripts && s.scripts[e.script].Positioned?
  }

  predicate Writes(s: System, e: Event) {
    e.WriteBlock? && e.script in s.scripts && s.scripts[e.script].Moved?
  }

  function DbAfter(s: System, e: Event): Db {
    match e
    case Create(id, createdAt) => Created(s.db, id, createdAt)
    case Delete(id) => s.db.(customers := s.db.customers - {id})
    case Draw(_) => if Draws(s, e) then Issue(s.db) else s.db
    case Update(i) => if Updates(s, e) then Put(s.db, s.calls[i].id, s.calls[i].n) else s.db
    case MoveSequence(i) => if Moves(s, e) then MoveTo(s.db, s.scripts[i].base, s.scripts[i].count) else s.db
    case WriteBlock(i) => if Writes(s, e) then FillFrom(s.db, s.scripts[i].base) else s.db
    case _ => s.db
  }

  function ScriptsAfter(s: System, e: Event): map<ScriptId, Script> {
    match e
    case CountWaiting(i) =>
      var count := |Unnumbered(s.db.customers)|;
      if count == 0 then s.scripts - {i} else s.scripts[i := Counted(count)]
    case ReadSequence(i) =>
      if i in s.scripts && s.scripts[i].Counted? then s.scripts[i := Positioned(s.scripts[i].count, Base(s.db))]
      else s.scripts
    case MoveSequence(i) =>
      if Moves(s, e) then s.scripts[i := Moved(s.scripts[i].count, s.scripts[i].base)] else s.scripts
    case WriteBlock(i) => if Writes(s, e) then s.scripts - {i} else s.scripts
    case _ => s.scripts
  }

  /** A call ends when it finds no customer or a number, and after its update, whatever came of it. */
  function CallsAfter(s: System, e: Event): map<CallId, Call> {
    match e
    case Look(i, id) =>
      if id in s.db.customers && !Numbered(s.db.customers, id) then s.calls[i := Looked(id)] else s.calls - {i}
    case Draw(i) => if Draws(s, e) then s.calls[i := Drawn(s.calls[i].id, Base(s.db) + 1)] else s.calls
    case Update(i) => if Updates(s, e) then s.calls - {i} else s.calls
    case _ => s.calls
  }

  function Max(a: nat, b: nat): nat {
    if a < b then b else a
  }

  function Step(s: System, e: Event): System {
    System(DbAfter(s, e), Max(s.top, Base(DbAfter(s, e))), ScriptsAfter(s, e), CallsAfter(s, e))
  }

  function Run(s: System, events: seq<Event>): System
    decreases |events|
  {
    if events == [] then s else Run(Step(s, events[0]), events[1..])
  }

  // ----- What every interleaving keeps -----

  /** A script has counted at least as many customers as still wait, and what it read has been drawn. */
  ghost predicate ScriptSound(s: System, i: ScriptId)
    requires i in s.scripts
  {
    var script := s.scripts[i];
    && 0 < script.count && |Unnumbered(s.db.customers)| <= script.count
    && (script.Positioned? ==> script.base <= s.top)
    && (script.Moved? ==> script.base + script.count <= s.top)
  }

  ghost predicate CallSound(s: System, i: CallId)
    requires i in s.calls
  {
    s.calls[i].Drawn? ==> 1 <= s.calls[i].n <= s.top
  }

  ghost predicate Valid(s: System) {
    && Unique(s.db.customers) && Within(s.db.customers, s.top) && Base(s.db) <= s.top
    && (forall i {:trigger ScriptSound(s, i)} | i in s.scripts :: ScriptSound(s, i))
    && (forall i {:trigger CallSound(s, i)} | i in s.calls :: CallSound(s, i))
  }

  /** How a step changes one customer. */
  lemma CustomerAfter(s: System, e: Event, a: Id)
    requires a in DbAfter(s, e).customers
    ensures a in s.db.customers || (e.Create? && e.id == a)
    ensures var before, after := s.db.customers, DbAfter(s, e).customers;
      a in before ==>
        || after[a] == before[a]
        || (Updates(s, e) && s.calls[e.call].id == a && after[a].number == Some(Padded(s.calls[e.call].n)))
        || (Writes(s, e) && !Numbered(before, a) &&
            after[a].number == Some(Cut(s.scripts[e.script].base + Rank(before, Unnumbered(before), a))))
    ensures a !in s.db.customers ==> DbAfter(s, e).customers[a].number == Some(Cut(Base(s.db) + 1))
  {
  }

  lemma WaitingShrinks(s: System, e: Event)
    ensures |Unnumbered(DbAfter(s, e).customers)| <= |Unnumbered(s.db.customers)|
  {
    forall a | a in Unnumbered(DbAfter(s, e).customers) ensures a in Unnumbered(s.db.customers) {
      CustomerAfter(s, e, a);
    }
    CardinalityGrows(Unnumbered(DbAfter(s, e).customers), Unnumbered(s.db.customers));
  }

  lemma StepKeepsUnique(s: System, e: Event)
    requires Unique(s.db.customers)
    ensures Unique(DbAfter(s, e).customers)
  {
    if e.Delete? {
      RemovalIsUnique(s.db.customers, e.id);
    }
  }

  lemma NumberStaysWithin(s: System, e: Event, a: Id)
    requires Valid(s) && Numbered(DbAfter(s, e).customers, a)
    ensures 1 <= NumberOf(DbAfter(s, e).customers, a).n <= Step(s, e).top
  {
    var before := s.db.customers;
    CustomerAfter(s, e, a);
    if Updates(s, e) {
      assert CallSound(s, e.call);
    }
    if Numbered(before, a) {
      assert 1 <= NumberOf(before, a).n <= s.top;
    } else if Writes(s, e) && a in before {
      assert ScriptSound(s, e.script);
      RanksAscend(before, Unnumbered(before), a, a);
    }
  }

  lemma StepKeepsWithin(s: System, e: Event)
    requires Valid(s)
    ensures Within(DbAfter(s, e).customers, Step(s, e).top)
  {
    forall a | Numbered(DbAfter(s, e).customers, a)
      ensures 1 <= NumberOf(DbAfter(s, e).customers, a).n <= Step(s, e).top
    {
      NumberStaysWithin(s, e, a);
    }
  }

  lemma StepKeepsScripts(s: System, e: Event, i: ScriptId)
    requires Valid(s) && i in ScriptsAfter(s, e)
    ensures ScriptSound(Step(s, e), i)
  {
    assert i in s.scripts ==> ScriptSound(s, i);
    WaitingShrinks(s, e);
  }

  lemma StepKeepsCalls(s: System, e: Event, i: CallId)
    requires Valid(s) && i in CallsAfter(s, e)
    ensures CallSound(Step(s, e), i)
  {
    assert i in s.calls ==> CallSound(s, i);
  }

  /** However lazy assignments, scripts and other writers interleave, printed numbers stay different. */
  lemma StepKeepsValid(s: System, e: Event)
    requires Valid(s)
    ensures Valid(Step(s, e)) && s.top <= Step(s, e).top
  {
    StepKeepsUnique(s, e);
    StepKeepsWithin(s, e);
    var after := Step(s, e);
    forall i | i in after.scripts ensures ScriptSound(after, i) {
      StepKeepsScripts(s, e, i);
    }
    forall i | i in after.calls ensures CallSound(after, i) {
      StepKeepsCalls(s, e, i);
    }
  }

  lemma {:induction false} RunKeepsValid(s: System, events: seq<Event>)
    requires Valid(s)
    ensures Valid(Run(s, events))
    decreases |events|
  {
    if events != [] {
      StepKeepsValid(s, events[0]);
      RunKeepsValid(Step(s, events[0]), events[1..]);
    }
  }

  /** In every interleaving no two customers share a number while all have at most six digits. */
  lemma RunKeepsDiffer(s: System, events: seq<Event>)
    requires Valid(s) && Run(s, events).top <= 999999
    ensures Differ(Run(s, events).db.customers)
  {
    RunKeepsValid(s, events);
    var customers := Run(s, events).db.customers;
    forall a, b | Numbered(customers, a) && Numbered(customers, b)
        && NumberOf(customers, a).n == NumberOf(customers, b).n
      ensures a == b
    {
      UniqueMeansDiffer(customers, a, b);
    }
  }

  // ----- When a number changes -----

  /** A lazy assignment writes for a customer who has got a number since it looked. */
  predicate Overwrites(s: System, e: Event, a: Id) {
    Updates(s, e) && s.calls[e.call].id == a && Numbered(s.db.customers, a)
  }

  /**
   * A step that does not delete the customer changes the stored text exactly when it is such an
   * assignment and nobody's number prints like the one it has drawn.
   */
  lemma TextChangesExactly(s: System, e: Event, a: Id)
    requires Unique(s.db.customers) && Numbered(s.db.customers, a) && e != Delete(a)
    ensures Numbered(DbAfter(s, e).customers, a)
    ensures Text(NumberOf(DbAfter(s, e).customers, a)) != Text(NumberOf(s.db.customers, a)) <==>
      Overwrites(s, e, a) &&
      forall b | Numbered(s.db.customers, b) :: Printed(NumberOf(s.db.customers, b)) != s.calls[e.call].n
  {
    if Overwrites(s, e, a) {
      PutChangesTextExactly(s.db, a, s.calls[e.call].n);
    } else {
      NumberStays(s, e, a);
    }
  }

  lemma NumberStays(s: System, e: Event, a: Id)
    requires Numbered(s.db.customers, a) && e != Delete(a) && !Overwrites(s, e, a)
    ensures Numbered(DbAfter(s, e).customers, a)
    ensures NumberOf(DbAfter(s, e).customers, a) == NumberOf(s.db.customers, a)
  {
  }

  ghost predicate NeverOverwritten(s: System, events: seq<Event>, a: Id)
    decreases |events|
  {
    events == [] || (!Overwrites(s, events[0], a) && NeverOverwritten(Step(s, events[0]), events[1..], a))
  }

  /** A customer who is not deleted, and for whom no call writes that looked before, keeps the number for good. */
  lemma {:induction false} NumbersNeverChange(s: System, events: seq<Event>, a: Id)
    requires Numbered(s.db.customers, a) && Delete(a) !in events && NeverOverwritten(s, events, a)
    ensures Numbered(Run(s, events).db.customers, a)
    ensures NumberOf(Run(s, events).db.customers, a) == NumberOf(s.db.customers, a)
    decreases |events|
  {
    if events != [] {
      NumberStays(s, events[0], a);
      NumbersNeverChange(Step(s, events[0]), events[1..], a);
    }
  }

  // ----- When a script's reading is out of date -----

  /** The step draws number `n`, or reserves it with its block. */
  predicate Takes(s: System, e: Event, n: nat) {
    match e
    case Create(_, _) => n == Base(s.db) + 1
    case Draw(_) => Draws(s, e) && n == Base(s.db) + 1
    case MoveSequence(i) => Moves(s, e) && s.scripts[i].base < n <= s.scripts[i].base + s.scripts[i].count
    case _ => false
  }

  /** A script moves the sequence although a number was drawn since it read it. */
  predicate Late(s: System, e: Event) {
    Moves(s, e) && s.scripts[e.script].count > 0 && s.scripts[e.script].base < s.top
  }

  /**
   * In every state a number taken before is taken again exactly when a script is late, or a single
   * number is drawn while the sequence stands below the highest one taken.
   */
  lemma TakesAgainExactly(s: System, e: Event)
    ensures (exists n: nat :: Takes(s, e, n) && n <= s.top) <==>
      Late(s, e) || ((e.Create? || Draws(s, e)) && Base(s.db) < s.top)
  {
    if Late(s, e) {
      assert Takes(s, e, s.scripts[e.script].base + 1);
    }
    if (e.Create? || Draws(s, e)) && Base(s.db) < s.top {
      assert Takes(s, e, Base(s.db) + 1);
    }
  }

  /** In every state the sequence goes back exactly when a script moves it below where it stands. */
  lemma GoesBackExactly(s: System, e: Event)
    ensures Base(Step(s, e).db) < Base(s.db) <==>
      Moves(s, e) && s.scripts[e.script].count > 0 && s.scripts[e.script].base + s.scripts[e.script].count < Base(s.db)
  {
  }

  /** A block is above all numbers taken exactly when none was taken since the script read the sequence. */
  lemma BlockIsNewExactly(s: System, i: ScriptId)
    requires Valid(s) && Base(s.db) == s.top && Moves(s, MoveSequence(i))
    ensures (forall n: nat | Takes(s, MoveSequence(i), n) :: n > s.top) <==> s.scripts[i].base == Base(s.db)
  {
    assert ScriptSound(s, i);
    assert Takes(s, MoveSequence(i), s.scripts[i].base + 1);
  }

  // ----- Runs without a late script -----

  /** Who may hold a number now or later: a customer, a pending call, a script with a reserved block. */
  datatype Claim = Holder(id: Id) | Pending(call: CallId) | Block(script: ScriptId)

  predicate Claims(s: System, c: Claim, n: nat) {
    match c
    case Holder(a) => Numbered(s.db.customers, a) && NumberOf(s.db.customers, a).n == n
    case Pending(i) => i in s.calls && s.calls[i].Drawn? && s.calls[i].n == n
    case Block(i) =>
      i in s.scripts && s.scripts[i].Moved? && s.scripts[i].base < n <= s.scripts[i].base + s.scripts[i].count
  }

  /** No number, of whatever length, is claimed twice. */
  ghost predicate Apart(s: System) {
    forall c, d, n: nat {:trigger Claims(s, c, n), Claims(s, d, n)} | Claims(s, c, n) && Claims(s, d, n) :: c == d
  }

  ghost predicate Orderly(s: System) {
    Valid(s) && Base(s.db) == s.top && Apart(s)
  }

  ghost predicate OnTime(s: System, events: seq<Event>)
    decreases |events|
  {
    events == [] || (!Late(s, events[0]) && OnTime(Step(s, events[0]), events[1..]))
  }

  /** The one claim a step can make on a new number. */
  function NewClaim(e: Event): Claim {
    match e
    case Create(id, _) => Holder(id)
    case Delete(id) => Holder(id)
    case Look(i, _) => Pending(i)
    case Draw(i) => Pending(i)
    case Update(i) => Pending(i)
    case CountWaiting(i) => Block(i)
    case ReadSequence(i) => Block(i)
    case MoveSequence(i) => Block(i)
    case WriteBlock(i) => Block(i)
  }

  /** Where a claim on an old number was before the step. */
  function Origin(s: System, e: Event, c: Claim): Claim {
    if c.Holder? && Updates(s, e) && s.calls[e.call].id == c.id
       && DbAfter(s, e).customers != s.db.customers then Pending(e.call)
    else if c.Holder? && Writes(s, e) && !Numbered(s.db.customers, c.id) then Block(e.script)
    else c
  }

  lemma HolderCameFrom(s: System, e: Event, a: Id, n: nat)
    requires Valid(s) && Base(s.db) == s.top && Claims(Step(s, e), Holder(a), n)
    ensures (n > s.top && NewClaim(e) == Holder(a)) || Claims(s, Origin(s, e, Holder(a)), n)
  {
    var before := s.db.customers;
    CustomerAfter(s, e, a);
    if Writes(s, e) && a in before && !Numbered(before, a) {
      assert ScriptSound(s, e.script);
      RanksAscend(before, Unnumbered(before), a, a);
    }
  }

  lemma OthersCameFrom(s: System, e: Event, c: Claim, n: nat)
    requires Base(s.db) == s.top && !Late(s, e) && !c.Holder? && Claims(Step(s, e), c, n)
    ensures (n > s.top && c == NewClaim(e)) || Claims(s, c, n)
  {
  }

  /** Every claim after a step on time is a new one on a new number, or had an origin before. */
  lemma ClaimCameFrom(s: System, e: Event, c: Claim, n: nat)
    requires Orderly(s) && !Late(s, e) && Claims(Step(s, e), c, n)
    ensures (n > s.top && c == NewClaim(e)) || (n <= s.top && Claims(s, Origin(s, e, c), n))
  {
    if c.Holder? {
      HolderCameFrom(s, e, c.id, n);
    } else {
      OthersCameFrom(s, e, c, n);
    }
    ClaimsAreTaken(s, Origin(s, e, c), n);
  }

  lemma ClaimsAreTaken(s: System, c: Claim, n: nat)
    requires Valid(s)
    ensures Claims(s, c, n) ==> n <= s.top
  {
    match c
    case Holder(a) =>
    case Pending(i) => assert i in s.calls ==> CallSound(s, i);
    case Block(i) => assert i in s.scripts ==> ScriptSound(s, i);
  }

  /** Claims with one origin are one claim: the unique index keeps the numbers of a block apart. */
  lemma OriginsDiffer(s: System, e: Event, c: Claim, d: Claim, n: nat)
    requires Claims(Step(s, e), c, n) && Claims(Step(s, e), d, n) && Origin(s, e, c) == Origin(s, e, d)
    ensures c == d
  {
  }

  lemma OnTimeKeepsApart(s: System, e: Event)
    requires Orderly(s) && !Late(s, e)
    ensures Apart(Step(s, e))
  {
    var after := Step(s, e);
    forall c, d, n: nat | Claims(after, c, n) && Claims(after, d, n) ensures c == d {
      ClaimCameFrom(s, e, c, n);
      ClaimCameFrom(s, e, d, n);
      if n <= s.top {
        OriginsDiffer(s, e, c, d, n);
      }
    }
  }

  lemma OnTimeKeepsOrderly(s: System, e: Event)
    requires Orderly(s) && !Late(s, e)
    ensures Orderly(Step(s, e))
  {
    StepKeepsValid(s, e);
    OnTimeKeepsApart(s, e);
  }

  /** Number `n` has been taken, and is `holder`'s or nobody's. */
  ghost predicate Spoken(s: System, n: nat, holder: Id) {
    n <= s.top && forall c {:trigger Claims(s, c, n)} | Claims(s, c, n) :: c == Holder(holder)
  }

  lemma OnTimeKeepsSpoken(s: System, e: Event, n: nat, holder: Id)
    requires Orderly(s) && !Late(s, e) && Spoken(s, n, holder)
    ensures Spoken(Step(s, e), n, holder)
  {
    forall c | Claims(Step(s, e), c, n) ensures c == Holder(holder) {
      ClaimCameFrom(s, e, c, n);
    }
  }

  /** Without a late script no number is ever claimed twice, and one once held stays its holder's or nobody's. */
  lemma {:induction false} OnTimeRunKeeps(s: System, events: seq<Event>, n: nat, holder: Id)
    requires Orderly(s) && OnTime(s, events) && Spoken(s, n, holder)
    ensures Orderly(Run(s, events)) && Spoken(Run(s, events), n, holder)
    decreases |events|
  {
    if events != [] {
      OnTimeKeepsOrderly(s, events[0]);
      OnTimeKeepsSpoken(s, events[0], n, holder);
      OnTimeRunKeeps(Step(s, events[0]), events[1..], n, holder);
    }
  }

  /**
   * When no script is late, a number once held is never held by another customer: not after a deletion,
   * and not after an assignment that overwrote it.
   */
  lemma NeverReissued(s: System, events: seq<Event>, a: Id, b: Id)
    requires Orderly(s) && OnTime(s, events)
    requires Numbered(s.db.customers, a) && Numbered(Run(s, events).db.customers, b)
    requires NumberOf(s.db.customers, a).n == NumberOf(Run(s, events).db.customers, b).n
    ensures a == b
  {
    var n := NumberOf(s.db.customers, a).n;
    assert Claims(s, Holder(a), n);
    OnTimeRunKeeps(s, events, n, a);
    assert Claims(Run(s, events), Holder(b), n);
  }

  // ----- Runs on which the promises fail -----

  lemma {:induction false} OneMore(s: System, events: seq<Event>, e: Event)
    ensures Run(s, events + [e]) == Step(Run(s, events), e)
    decreases |events|
  {
    var all := events + [e];
    if events == [] {
      assert all[0] == e && all[1..] == [];
    } else {
      OneMore(Step(s, events[0]), events[1..], e);
      assert all[0] == events[0] && all[1..] == events[1..] + [e];
    }
  }

  lemma CreationWorks(s: System, c: Id, createdAt: int)
    requires Orderly(s) && c !in s.db.customers && s.top < 999999
    ensures Created(s.db, c, createdAt).customers == s.db.customers[c := Customer(createdAt, Some(Cut(s.top + 1)))]
  {
    CreationRefusedExactly(s.db, c, createdAt);
    forall a | Numbered(s.db.customers, a) ensures Printed(NumberOf(s.db.customers, a)) <= s.top {
    }
  }

  /** The script reads the sequence and a customer is created; the customer is deleted and the script writes. */
  function ReadThenCreate(c: Id, createdAt: int, i: ScriptId): seq<Event> {
    [CountWaiting(i)] + [ReadSequence(i)] + [Create(c, createdAt)]
  }

  function DeleteThenWrite(c: Id, i: ScriptId): seq<Event> {
    [Delete(c)] + [MoveSequence(i)] + [WriteBlock(i)]
  }

  lemma ReadThenCreateRuns(s: System, c: Id, createdAt: int, i: ScriptId)
    requires Orderly(s) && c !in s.db.customers && Unnumbered(s.db.customers) != {} && s.top < 999999
    ensures var s' := Run(s, ReadThenCreate(c, createdAt, i));
      && s'.db.customers == s.db.customers[c := Customer(createdAt, Some(Cut(s.top + 1)))]
      && i in s'.scripts && s'.scripts[i] == Positioned(|Unnumbered(s.db.customers)|, s.top)
  {
    OneMore(s, [], CountWaiting(i));
    OneMore(s, [CountWaiting(i)], ReadSequence(i));
    OneMore(s, [CountWaiting(i)] + [ReadSequence(i)], Create(c, createdAt));
    assert [] + [CountWaiting(i)] == [CountWaiting(i)];
    CreationWorks(s, c, createdAt);
  }

  lemma DeleteThenWriteRuns(s: System, c: Id, i: ScriptId, count: nat, base: nat)
    requires i in s.scripts && s.scripts[i] == Positioned(count, base) && count > 0
    ensures Run(s, DeleteThenWrite(c, i)).db
         == FillFrom(MoveTo(s.db.(customers := s.db.customers - {c}), base, count), base)
  {
    OneMore(s, [], Delete(c));
    OneMore(s, [Delete(c)], MoveSequence(i));
    OneMore(s, [Delete(c)] + [MoveSequence(i)], WriteBlock(i));
    assert [] + [Delete(c)] == [Delete(c)];
  }

  /** From every orderly state such a run gives some waiting customer the number the deleted one had. */
  lemma LateScriptReissues(s: System, c: Id, createdAt: int, i: ScriptId) returns (heir: Id)
    requires Orderly(s) && c !in s.db.customers && Unnumbered(s.db.customers) != {}
    requires s.top + |Unnumbered(s.db.customers)| <= 999999
    ensures var s1 := Run(s, ReadThenCreate(c, createdAt, i));
      var held, end := s1.db.customers, Run(s1, DeleteThenWrite(c, i)).db.customers;
      && Numbered(held, c) && Numbered(end, heir) && heir != c
      && NumberOf(held, c).n == s.top + 1 == NumberOf(end, heir).n
  {
    var count := |Unnumbered(s.db.customers)|;
    ReadThenCreateRuns(s, c, createdAt, i);
    var s1 := Run(s, ReadThenCreate(c, createdAt, i));
    DeleteThenWriteRuns(s1, c, i, count, s.top);
    assert s1.db.customers - {c} == s.db.customers;
    RefusedExactlyWhenHeld(s.db, s.top, count);
    FilledIsNew(s.db.customers, s.top);
    heir := BlockNumberIsGiven(s.db.customers, s.top, s.top + 1);
  }

  lemma PutWorks(db: Db, u: Id, n: nat)
    requires Unique(db.customers) && u in db.customers && Within(db.customers, 999999)
    requires forall a | Numbered(db.customers, a) :: NumberOf(db.customers, a).n != n
    ensures Put(db, u, n).customers == WithNumber(db.customers, u, n)
  {
    PutRefusedExactly(db, u, n);
    forall a | Numbered(db.customers, a) ensures Printed(NumberOf(db.customers, a)) != n {
    }
  }

  lemma {:induction false} OnTimeRunIsOrderly(s: System, events: seq<Event>)
    requires Orderly(s) && forall e | e in events :: !e.MoveSequence?
    ensures Orderly(Run(s, events))
    decreases |events|
  {
    if events != [] {
      OnTimeKeepsOrderly(s, events[0]);
      OnTimeRunIsOrderly(Step(s, events[0]), events[1..]);
    }
  }

  /** A call draws and writes, with nothing in between. */
  function DrawAndUpdate(d: CallId): seq<Event> {
    [Draw(d)] + [Update(d)]
  }

  lemma DrawAndUpdateRuns(s: System, d: CallId, u: Id)
    requires Orderly(s) && d in s.calls && s.calls[d] == Looked(u) && u in s.db.customers && s.top < 999999
    ensures var s' := Run(s, DrawAndUpdate(d));
      && s'.db.customers == WithNumber(s.db.customers, u, s.top + 1)
      && s'.top == s.top + 1 && s'.calls == s.calls - {d}
  {
    OneMore(s, [], Draw(d));
    OneMore(s, [Draw(d)], Update(d));
    assert [] + [Draw(d)] == [Draw(d)];
    PutWorks(Issue(s.db), u, s.top + 1);
  }

  lemma DrawAndUpdateNumbers(s: System, d: CallId, u: Id)
    requires Orderly(s) && d in s.calls && s.calls[d] == Looked(u) && u in s.db.customers && s.top < 999999
    ensures var s' := Run(s, DrawAndUpdate(d));
      && Orderly(s') && s'.top == s.top + 1 && s'.calls == s.calls - {d}
      && Numbered(s'.db.customers, u) && NumberOf(s'.db.customers, u) == Padded(s.top + 1)
  {
    DrawAndUpdateRuns(s, d, u);
    OnTimeRunIsOrderly(s, DrawAndUpdate(d));
  }

  /** After its look a call goes on to draw exactly when its customer exists and has no number. */
  lemma CallProceedsExactly(s: System, d: CallId, u: Id)
    ensures Draws(Step(s, Look(d, u)), Draw(d)) <==> u in Unnumbered(s.db.customers)
  {
  }

  /** A call in one go is the undisturbed one. */
  lemma CallIsUndisturbed(s: System, d: CallId, u: Id)
    ensures Run(s, [Look(d, u)] + [Draw(d)] + [Update(d)]).db == Ensured(s.db, u)
  {
    OneMore(s, [], Look(d, u));
    OneMore(s, [Look(d, u)], Draw(d));
    OneMore(s, [Look(d, u)] + [Draw(d)], Update(d));
    assert [] + [Look(d, u)] == [Look(d, u)];
    NextIsAfterBase(s.db);
  }

  /** A call that looked before its customer got a number gives another one, whoever gave the first. */
  lemma LateCallOverwrites(s: System, d: CallId, u: Id)
    requires Orderly(s) && d in s.calls && s.calls[d] == Looked(u)
    requires Numbered(s.db.customers, u) && s.top < 999999
    ensures var end := Run(s, DrawAndUpdate(d)).db.customers;
      && Numbered(end, u) && NumberOf(end, u) == Padded(s.top + 1)
      && Text(NumberOf(end, u)) != Text(NumberOf(s.db.customers, u))
  {
    DrawAndUpdateRuns(s, d, u);
    TextIsPrinted(Padded(s.top + 1), NumberOf(s.db.customers, u));
  }

  /** Two calls look at one customer. */
  function BothLook(c: CallId, d: CallId, u: Id): seq<Event> {
    [Look(c, u)] + [Look(d, u)]
  }

  lemma BothLookRuns(s: System, c: CallId, d: CallId, u: Id)
    requires Orderly(s) && c != d && u in Unnumbered(s.db.customers)
    ensures var s' := Run(s, BothLook(c, d, u));
      Orderly(s') && s'.db == s.db && s'.top == s.top && s'.calls == s.calls[c := Looked(u)][d := Looked(u)]
  {
    OneMore(s, [], Look(c, u));
    OneMore(s, [Look(c, u)], Look(d, u));
    assert [] + [Look(c, u)] == [Look(c, u)];
    OnTimeRunIsOrderly(s, BothLook(c, d, u));
  }

  lemma BothUpdate(s: System, c: CallId, d: CallId, u: Id)
    requires Orderly(s) && c != d && u in s.db.customers && s.top + 2 <= 999999
    requires c in s.calls && s.calls[c] == Looked(u) && d in s.calls && s.calls[d] == Looked(u)
    ensures var s1 := Run(s, DrawAndUpdate(c));
      var s2 := Run(s1, DrawAndUpdate(d));
      && Numbered(s1.db.customers, u) && NumberOf(s1.db.customers, u) == Padded(s.top + 1)
      && Numbered(s2.db.customers, u) && NumberOf(s2.db.customers, u) == Padded(s.top + 2)
  {
    DrawAndUpdateNumbers(s, c, u);
    DrawAndUpdateNumbers(Run(s, DrawAndUpdate(c)), d, u);
  }

  /** From every orderly state two concurrent calls for one customer change the number the first one gave. */
  lemma SecondCallOverwrites(s: System, c: CallId, d: CallId, u: Id)
    requires Orderly(s) && c != d && u in Unnumbered(s.db.customers) && s.top + 2 <= 999999
    ensures var s1 := Run(Run(s, BothLook(c, d, u)), DrawAndUpdate(c));
      var s2 := Run(s1, DrawAndUpdate(d));
      && Numbered(s1.db.customers, u) && NumberOf(s1.db.customers, u) == Padded(s.top + 1)
      && Numbered(s2.db.customers, u) && NumberOf(s2.db.customers, u) == Padded(s.top + 2)
  {
    BothLookRuns(s, c, d, u);
    BothUpdate(Run(s, BothLook(c, d, u)), c, d, u);
  }

  /** A whole run of the script, with nothing in between. */
  function Serve(i: ScriptId): seq<Event> {
    [CountWaiting(i)] + [ReadSequence(i)] + [MoveSequence(i)] + [WriteBlock(i)]
  }

  lemma ReadsRun(s: System, i: ScriptId)
    requires Orderly(s) && Unnumbered(s.db.customers) != {}
    ensures var s' := Run(s, [CountWaiting(i)] + [ReadSequence(i)]);
      && Orderly(s') && s'.db == s.db && s'.top == s.top && s'.calls == s.calls
      && i in s'.scripts && s'.scripts[i] == Positioned(|Unnumbered(s.db.customers)|, s.top)
  {
    OneMore(s, [], CountWaiting(i));
    OneMore(s, [CountWaiting(i)], ReadSequence(i));
    assert [] + [CountWaiting(i)] == [CountWaiting(i)];
    OnTimeRunIsOrderly(s, [CountWaiting(i)] + [ReadSequence(i)]);
  }

  lemma WritesRun(s: System, i: ScriptId, count: nat)
    requires Orderly(s) && i in s.scripts && s.scripts[i] == Positioned(count, s.top) && count > 0
    ensures var s' := Run(Step(s, MoveSequence(i)), [WriteBlock(i)]);
      Orderly(s') && s'.db == Reserve(s.db, s.top, count) && s'.top == s.top + count && s'.calls == s.calls
  {
    var moved := Step(s, MoveSequence(i));
    OneMore(moved, [], WriteBlock(i));
    assert [] + [WriteBlock(i)] == [WriteBlock(i)];
    OnTimeKeepsOrderly(s, MoveSequence(i));
    OnTimeKeepsOrderly(moved, WriteBlock(i));
  }

  /** The script in one go is the undisturbed one. */
  lemma ServeIsUndisturbed(s: System, i: ScriptId)
    requires Orderly(s) && Unnumbered(s.db.customers) != {}
    ensures var s' := Run(s, Serve(i));
      Orderly(s') && s'.db == Undisturbed(s.db) && s'.top == s.top + |Unnumbered(s.db.customers)| && s'.calls == s.calls
  {
    var before := [CountWaiting(i)] + [ReadSequence(i)];
    var positioned := Run(s, before);
    ReadsRun(s, i);
    WritesRun(positioned, i, |Unnumbered(s.db.customers)|);
    OneMore(s, before, MoveSequence(i));
    OneMore(s, before + [MoveSequence(i)], WriteBlock(i));
    OneMore(Step(positioned, MoveSequence(i)), [], WriteBlock(i));
    assert [] + [WriteBlock(i)] == [WriteBlock(i)];
  }

  /** From every orderly state a call that looked before the script served its customer changes the number given. */
  lemma CallOverwritesScript(s: System, d: CallId, u: Id, i: ScriptId)
    requires Orderly(s) && u in Unnumbered(s.db.customers)
    requires s.top + |Unnumbered(s.db.customers)| + 1 <= 999999
    ensures var s1 := Run(Step(s, Look(d, u)), Serve(i));
      var s2 := Run(s1, DrawAndUpdate(d));
      && Numbered(s1.db.customers, u)
      && NumberOf(s1.db.customers, u) == Cut(s.top + Rank(s.db.customers, Unnumbered(s.db.customers), u))
      && Numbered(s2.db.customers, u)
      && NumberOf(s2.db.customers, u) == Padded(s.top + |Unnumbered(s.db.customers)| + 1)
  {
    var looked := Step(s, Look(d, u));
    OnTimeKeepsOrderly(s, Look(d, u));
    ServeIsUndisturbed(looked, i);
    BackfillGives(s.db, u);
    LateCallOverwrites(Run(looked, Serve(i)), d, u);
  }
}
