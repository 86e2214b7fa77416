/**
 * The effective-price batcher of the storefront: slugs register, a debounced timer sends them in
 * batches, batches may overlap, and failed batches go back to the queue with a bounded retry.
 * The customer is fixed and has admin pricing.
 */
module EffectivePrices {
  import opened Options
  import opened Products

  type TimerId = nat
  type BatchId = nat

  const FETCH_DEBOUNCE_MS := 30
  const MAX_RETRY := 4

  /** A price item of a response; the price is absent when it is not a finite number. */
  datatype Item = Item(slug: Slug, price: Option<real>)

  /** `timers` are the armed timers with their delays, `inFlight` the requests still awaited. */
  datatype State = State(
    pending: set<Slug>,
    seen: set<Slug>,
    timerRef: Option<TimerId>,
    retry: nat,
    prices: map<Slug, real>,
    timers: map<TimerId, nat>,
    inFlight: map<BatchId, set<Slug>>,
    answered: set<Slug>,
    nextId: nat)

  datatype Event =
    | Register(slug: Slug)
    | Fire(timer: TimerId)
    | Succeed(batch: BatchId, items: seq<Item>)
    | Fail(batch: BatchId)

  const INITIAL := State({}, {}, None, 0, map[], map[], map[], {}, 0)

  function Power2(n: nat): nat {
    if n == 0 then 1 else 2 * Power2(n - 1)
  }

  function RetryDelay(retry: nat): nat
    requires retry > 0
  {
    var delay := 250 * Power2(retry - 1);
    if delay < 4000 then delay else 4000
  }

  function Arm(s: State, delay: nat): State {
    s.(timerRef := Some(s.nextId), timers := s.timers[s.nextId := delay], nextId := s.nextId + 1)
  }

  function MergePrices(prices: map<Slug, real>, items: seq<Item>): map<Slug, real> {
    if items == [] then prices
    else
      var before := MergePrices(prices, items[..|items| - 1]);
      var item := items[|items| - 1];
      if item.price.Some? && item.price.value > 0.0 then before[item.slug := item.price.value] else before
  }

  predicate Enabled(s: State, e: Event) {
    match e
    case Register(_) => true
    case Fire(timer) => timer in s.timers
    case Succeed(batch, _) => batch in s.inFlight
    case Fail(batch) => batch in s.inFlight
  }

  function Registered(s: State, slug: Slug): State {
    if slug.text == "" || slug in s.seen then s
    else
      var s1 := s.(seen := s.seen + {slug}, pending := s.pending + {slug});
      if s1.timerRef.Some? then s1 else Arm(s1, FETCH_DEBOUNCE_MS)
  }

  function Fired(s: State, timer: TimerId): State {
    var s1 := s.(timers := s.timers - {timer}, timerRef := None, pending := {});
    if s.pending == {} then s1
    else s1.(inFlight := s.inFlight[s.nextId := s.pending], nextId := s.nextId + 1)
  }

  function Succeeded(s: State, batch: BatchId, items: seq<Item>): State
    requires batch in s.inFlight
  {
    s.(retry := 0, prices := MergePrices(s.prices, items),
       inFlight := s.inFlight - {batch}, answered := s.answered + s.inFlight[batch])
  }

  function Failed(s: State, batch: BatchId): State
    requires batch in s.inFlight
  {
    var s1 := s.(pending := s.pending + s.inFlight[batch], inFlight := s.inFlight - {batch});
    if s.retry >= MAX_RETRY then s1
    else
      var s2 := s1.(retry := s.retry + 1);
      if s2.timerRef.Some? then s2 else Arm(s2, RetryDelay(s2.retry))
  }

  function Step(s: State, e: Event): State
    requires Enabled(s, e)
  {
    match e
    case Register(slug) => Registered(s, slug)
    case Fire(timer) => Fired(s, timer)
    case Succeed(batch, items) => Succeeded(s, batch, items)
    case Fail(batch) => Failed(s, batch)
  }

  ghost predicate Possible(s: State, events: seq<Event>)
    decreases |events|
  {
    events == [] || (Enabled(s, events[0]) && Possible(Step(s, events[0]), events[1..]))
  }

  ghost function Run(s: State, events: seq<Event>): State
    requires Possible(s, events)
    decreases |events|
  {
    if events == [] then s else Run(Step(s, events[0]), events[1..])
  }

  // ----- Every registered slug is in exactly one place -----

  ghost predicate OneTimer(s: State) {
    && s.timers.Keys == (if s.timerRef.Some? then {s.timerRef.value} else {})
    && forall t | t in s.timers :: t < s.nextId && s.timers[t] in {FETCH_DEBOUNCE_MS, 250, 500, 1000, 2000}
  }

  /** A batch in flight holds registered slugs that are nowhere else in the queue. */
  ghost predicate BatchApart(s: State, b: BatchId)
    requires b in s.inFlight
  {
    && b < s.nextId && s.inFlight[b] != {} && s.inFlight[b] <= s.seen
    && s.inFlight[b] !! s.pending && s.inFlight[b] !! s.answered
  }

  ghost predicate PairApart(s: State, a: BatchId, b: BatchId)
    requires a in s.inFlight && b in s.inFlight
  {
    a != b ==> s.inFlight[a] !! s.inFlight[b]
  }

  ghost predicate Placed(s: State, slug: Slug) {
    slug in s.pending || slug in s.answered || exists b | b in s.inFlight :: slug in s.inFlight[b]
  }

  ghost predicate SlugsPlaced(s: State) {
    && (forall b {:trigger BatchApart(s, b)} | b in s.inFlight :: BatchApart(s, b))
    && (forall a, b {:trigger PairApart(s, a, b)} | a in s.inFlight && b in s.inFlight :: PairApart(s, a, b))
    && (forall slug {:trigger Placed(s, slug)} | slug in s.seen :: Placed(s, slug))
    && s.pending !! s.answered
    && s.pending + s.answered <= s.seen
  }

  ghost predicate Valid(s: State) {
    && s.retry <= MAX_RETRY
    && OneTimer(s)
    && SlugsPlaced(s)
    && (forall slug | slug in s.seen :: slug.text != "")
    && (forall slug | slug in s.prices :: s.prices[slug] > 0.0)
  }

  ghost function BatchesOf(s: State, slug: Slug): set<BatchId> {
    set b | b in s.inFlight && slug in s.inFlight[b]
  }

  /** How many of pending, the batches in flight, and answered hold the slug. */
  ghost function Places(s: State, slug: Slug): nat {
    (if slug in s.pending then 1 else 0) + |BatchesOf(s, slug)| + (if slug in s.answered then 1 else 0)
  }

  lemma ExactlyOnePlace(s: State, slug: Slug)
    requires Valid(s)
    ensures Places(s, slug) == if slug in s.seen then 1 else 0
  {
    var batches := BatchesOf(s, slug);
    if batches != {} {
      var b :| b in batches;
      assert BatchApart(s, b);
      forall a | a in batches ensures a == b {
        assert PairApart(s, a, b);
      }
      assert batches == {b};
    }
    if slug in s.seen {
      assert Placed(s, slug);
      if slug !in s.pending && slug !in s.answered {
        var b :| b in s.inFlight && slug in s.inFlight[b];
        assert b in batches;
      }
    }
  }

  /** A batch taken out of flight leaves the other batches as they were. */
  lemma BatchGone(s: State, s': State, batch: BatchId)
    requires SlugsPlaced(s) && batch in s.inFlight
    requires s'.inFlight == s.inFlight - {batch} && s'.seen == s.seen && s'.nextId >= s.nextId
    requires s'.pending + s'.answered == s.pending + s.answered + s.inFlight[batch]
    requires s.pending <= s'.pending && s.answered <= s'.answered && s'.pending !! s'.answered
    ensures SlugsPlaced(s')
  {
    assert BatchApart(s, batch);
    forall b | b in s'.inFlight ensures BatchApart(s', b) {
      assert BatchApart(s, b) && PairApart(s, b, batch);
    }
    forall a, b | a in s'.inFlight && b in s'.inFlight ensures PairApart(s', a, b) {
      assert PairApart(s, a, b);
    }
    forall slug | slug in s'.seen ensures Placed(s', slug) {
      assert Placed(s, slug);
      if slug !in s'.pending && slug !in s'.answered {
        var b :| b in s.inFlight && slug in s.inFlight[b];
        assert slug in s'.inFlight[b];
      }
    }
  }

  lemma FirePlaces(s: State, timer: TimerId)
    requires SlugsPlaced(s) && timer in s.timers
    ensures SlugsPlaced(Fired(s, timer))
  {
    var s' := Fired(s, timer);
    forall b | b in s'.inFlight ensures BatchApart(s', b) {
      assert b in s.inFlight ==> BatchApart(s, b);
    }
    forall a, b | a in s'.inFlight && b in s'.inFlight ensures PairApart(s', a, b) {
      assert a in s.inFlight ==> BatchApart(s, a);
      assert b in s.inFlight ==> BatchApart(s, b);
      assert a in s.inFlight && b in s.inFlight ==> PairApart(s, a, b);
    }
    forall slug | slug in s'.seen ensures Placed(s', slug) {
      assert Placed(s, slug);
      if slug in s.pending {
        assert slug in s'.inFlight[s.nextId];
      } else if slug !in s.answered {
        var b :| b in s.inFlight && slug in s.inFlight[b];
        assert BatchApart(s, b) && slug in s'.inFlight[b];
      }
    }
  }

  lemma RegisterPlaces(s: State, slug: Slug)
    requires SlugsPlaced(s)
    ensures SlugsPlaced(Registered(s, slug))
  {
    var s' := Registered(s, slug);
    forall b | b in s'.inFlight ensures BatchApart(s', b) {
      assert BatchApart(s, b);
    }
    forall a, b | a in s'.inFlight && b in s'.inFlight ensures PairApart(s', a, b) {
      assert PairApart(s, a, b);
    }
    forall other | other in s'.seen ensures Placed(s', other) {
      if other in s.seen {
        assert Placed(s, other);
        if other !in s.pending && other !in s.answered {
          var b :| b in s.inFlight && other in s.inFlight[b];
          assert other in s'.inFlight[b];
        }
      }
    }
  }

  lemma {:induction false} PricesStayPositive(prices: map<Slug, real>, items: seq<Item>)
    requires forall slug | slug in prices :: prices[slug] > 0.0
    ensures forall slug | slug in MergePrices(prices, items) :: MergePrices(prices, items)[slug] > 0.0
  {
    if items != [] {
      PricesStayPositive(prices, items[..|items| - 1]);
    }
  }

  /** Item `i` quotes a price for the slug. */
  predicate Quotes(items: seq<Item>, slug: Slug, i: int) {
    0 <= i < |items| && items[i].slug == slug && items[i].price.Some? && items[i].price.value > 0.0
  }

  /** After a response a slug has its last positive quote, or keeps its price when there is none. */
  lemma {:induction false} PriceIsLastQuote(prices: map<Slug, real>, items: seq<Item>, slug: Slug, last: int)
    requires -1 <= last < |items| && (last >= 0 ==> Quotes(items, slug, last))
    requires forall j | last < j < |items| :: !Quotes(items, slug, j)
    ensures var merged := MergePrices(prices, items);
      if last >= 0 then slug in merged && merged[slug] == items[last].price.value
      else (slug in merged <==> slug in prices) && (slug in prices ==> merged[slug] == prices[slug])
  {
    if items != [] {
      var front := items[..|items| - 1];
      if last < |front| {
        assert !Quotes(items, slug, |front|);
        assert forall j | 0 <= j < |front| :: Quotes(front, slug, j) <==> Quotes(items, slug, j);
        PriceIsLastQuote(prices, front, slug, last);
      }
    }
  }

  /** What a response says about a slug: its last positive quote, if it has one. */
  ghost function LastQuote(items: seq<Item>, slug: Slug): Option<real> {
    if items == [] then None
    else
      var last := items[|items| - 1];
      if Quotes(items, slug, |items| - 1) then last.price else LastQuote(items[..|items| - 1], slug)
  }

  lemma {:induction false} LastQuoteIsLast(items: seq<Item>, slug: Slug)
    ensures var q := LastQuote(items, slug);
      if q.Some? then exists i :: Quotes(items, slug, i) && items[i].price == q && NoQuoteAfter(items, slug, i)
      else NoQuoteAfter(items, slug, -1)
  {
    if items != [] && !Quotes(items, slug, |items| - 1) {
      var front := items[..|items| - 1];
      LastQuoteIsLast(front, slug);
      assert forall j | 0 <= j < |front| :: Quotes(front, slug, j) <==> Quotes(items, slug, j);
      if LastQuote(front, slug).Some? {
        var i :| Quotes(front, slug, i) && front[i].price == LastQuote(front, slug) && NoQuoteAfter(front, slug, i);
        assert Quotes(items, slug, i) && NoQuoteAfter(items, slug, i);
      }
    } else if items != [] {
      assert NoQuoteAfter(items, slug, |items| - 1);
    }
  }

  ghost predicate NoQuoteAfter(items: seq<Item>, slug: Slug, i: int) {
    forall j | i < j < |items| :: !Quotes(items, slug, j)
  }

  function PriceOf(prices: map<Slug, real>, slug: Slug): Option<real> {
    if slug in prices then Some(prices[slug]) else None
  }

  /** After a response, a slug's price is the response's last quote for it, or else the old one. */
  lemma MergedPrice(prices: map<Slug, real>, items: seq<Item>, slug: Slug)
    ensures PriceOf(MergePrices(prices, items), slug)
         == if LastQuote(items, slug).Some? then LastQuote(items, slug) else PriceOf(prices, slug)
  {
    LastQuoteIsLast(items, slug);
    if LastQuote(items, slug).Some? {
      var i :| Quotes(items, slug, i) && items[i].price == LastQuote(items, slug) && NoQuoteAfter(items, slug, i);
      PriceIsLastQuote(prices, items, slug, i);
    } else {
      PriceIsLastQuote(prices, items, slug, -1);
    }
  }

  /** Every slug has its last quote among the items, or else the price it had. */
  ghost predicate Quoted(before: map<Slug, real>, items: seq<Item>, after: map<Slug, real>) {
    forall slug {:trigger PriceOf(after, slug)} ::
      PriceOf(after, slug) == if LastQuote(items, slug).Some? then LastQuote(items, slug) else PriceOf(before, slug)
  }

  lemma MergedPrices(prices: map<Slug, real>, items: seq<Item>)
    ensures Quoted(prices, items, MergePrices(prices, items))
  {
    forall slug
      ensures PriceOf(MergePrices(prices, items), slug)
        == if LastQuote(items, slug).Some? then LastQuote(items, slug) else PriceOf(prices, slug)
    {
      MergedPrice(prices, items, slug);
    }
  }

  lemma {:induction false} LastQuoteOfTwo(a: seq<Item>, b: seq<Item>, slug: Slug)
    ensures LastQuote(a + b, slug) == if LastQuote(b, slug).Some? then LastQuote(b, slug) else LastQuote(a, slug)
  {
    if b == [] {
      assert a + b == a;
    } else {
      var front := b[..|b| - 1];
      LastQuoteOfTwo(a, front, slug);
      assert (a + b)[..|a + b| - 1] == a + front;
    }
  }

  /** The items of all responses of a run, in order of arrival. */
  function Received(events: seq<Event>): seq<Item> {
    if events == [] then []
    else (if events[0].Succeed? then events[0].items else []) + Received(events[1..])
  }

  lemma StepPrices(s: State, e: Event, slug: Slug)
    requires Enabled(s, e)
    ensures var items := if e.Succeed? then e.items else [];
      PriceOf(Step(s, e).prices, slug)
        == if LastQuote(items, slug).Some? then LastQuote(items, slug) else PriceOf(s.prices, slug)
  {
    if e.Succeed? {
      MergedPrice(s.prices, e.items, slug);
    }
  }

  /** In every run a slug's price is the last positive quote of any response, or else the one it had. */
  lemma {:induction false} RunPrices(s: State, events: seq<Event>, slug: Slug)
    requires Possible(s, events)
    ensures var quote := LastQuote(Received(events), slug);
      PriceOf(Run(s, events).prices, slug) == if quote.Some? then quote else PriceOf(s.prices, slug)
    decreases |events|
  {
    if events != [] {
      StepPrices(s, events[0], slug);
      RunPrices(Step(s, events[0]), events[1..], slug);
      LastQuoteOfTwo(if events[0].Succeed? then events[0].items else [], Received(events[1..]), slug);
    }
  }

  /** In every run the slugs seen are those that have been registered, but for the empty one. */
  lemma {:induction false} RunSees(s: State, events: seq<Event>, slug: Slug)
    requires Possible(s, events)
    ensures slug in Run(s, events).seen <==> slug in s.seen || (slug.text != "" && Register(slug) in events)
    decreases |events|
  {
    if events != [] {
      assert events == [events[0]] + events[1..];
      assert slug in Step(s, events[0]).seen <==> slug in s.seen || (slug.text != "" && events[0] == Register(slug));
      RunSees(Step(s, events[0]), events[1..], slug);
    }
  }

  /** A response resets the retries, a failure counts one up to the limit, and nothing else touches them. */
  lemma RetriesAreCounted(s: State, e: Event)
    requires s.retry <= MAX_RETRY && Enabled(s, e)
    ensures var retry := Step(s, e).retry;
      && (e.Succeed? ==> retry == 0)
      && (e.Fail? ==> retry == if s.retry < 4 then s.retry + 1 else 4)
      && (e.Register? || e.Fire? ==> retry == s.retry)
  {
  }

  /** A timer is armed by a registration, after 30 ms, or by a failure, after a delay that doubles with each retry. */
  lemma ArmedDelay(s: State, e: Event, timer: TimerId)
    requires s.retry <= MAX_RETRY && Enabled(s, e) && timer in Step(s, e).timers && timer !in s.timers
    ensures e.Register? || (e.Fail? && s.retry < MAX_RETRY)
    ensures Step(s, e).timers[timer] == if e.Register? then 30 else [250, 500, 1000, 2000][s.retry]
  {
    assert Power2(0) == 1 && Power2(1) == 2 && Power2(2) == 4 && Power2(3) == 8;
  }

  lemma RetryDelays(retry: nat)
    requires 0 < retry <= MAX_RETRY
    ensures RetryDelay(retry) in {250, 500, 1000, 2000}
  {
    assert Power2(0) == 1 && Power2(1) == 2 && Power2(2) == 4 && Power2(3) == 8;
  }

  lemma StepKeepsOneTimer(s: State, e: Event)
    requires OneTimer(s) && s.retry <= MAX_RETRY && Enabled(s, e)
    ensures OneTimer(Step(s, e))
  {
    if e.Fail? && s.retry < MAX_RETRY {
      RetryDelays(s.retry + 1);
    }
  }

  lemma StepKeepsPlaced(s: State, e: Event)
    requires SlugsPlaced(s) && Enabled(s, e)
    ensures SlugsPlaced(Step(s, e))
  {
    match e
    case Register(slug) =>
      RegisterPlaces(s, slug);
    case Fire(timer) =>
      FirePlaces(s, timer);
    case Succeed(batch, items) =>
      assert BatchApart(s, batch);
      BatchGone(s, Step(s, e), batch);
    case Fail(batch) =>
      assert BatchApart(s, batch);
      BatchGone(s, Step(s, e), batch);
  }

  lemma StepKeepsValid(s: State, e: Event)
    requires Valid(s) && Enabled(s, e)
    ensures Valid(Step(s, e))
  {
    StepKeepsOneTimer(s, e);
    StepKeepsPlaced(s, e);
    if e.Succeed? {
      PricesStayPositive(s.prices, e.items);
    }
  }

  /** The invariant holds in every state any run from the start can reach. */
  lemma {:induction false} RunKeepsValid(s: State, events: seq<Event>)
    requires Valid(s) && Possible(s, events)
    ensures Valid(Run(s, events))
    decreases |events|
  {
    if events != [] {
      StepKeepsValid(s, events[0]);
      RunKeepsValid(Step(s, events[0]), events[1..]);
    }
  }

  // ----- What is sent, and how often -----

  ghost predicate Requests(s: State, e: Event) {
    Enabled(s, e) && e.Fire? && s.pending != {}
  }

  /** A request asks only for registered slugs that are neither answered nor in another request. */
  lemma RequestsAreFresh(s: State, e: Event)
    requires Valid(s) && Requests(s, e)
    ensures var batch := Step(s, e).inFlight[s.nextId];
      && batch == s.pending <= s.seen
      && batch !! s.answered
      && forall b | b in s.inFlight :: batch !! s.inFlight[b]
  {
    forall b | b in s.inFlight ensures s.pending !! s.inFlight[b] {
      assert BatchApart(s, b);
    }
  }

  /** The slugs of a batch are answered when its response arrives, and no others. */
  lemma StepKeepsAnswers(s: State, e: Event)
    requires Enabled(s, e)
    ensures Step(s, e).answered == s.answered + if e.Succeed? then s.inFlight[e.batch] else {}
  {
  }

  /** An answered slug is in no request that any continuation sends. */
  lemma {:induction false} AnsweredIsNeverRequestedAgain(s: State, events: seq<Event>, slug: Slug, e: Event)
    requires Valid(s) && slug in s.answered && Possible(s, events) && Requests(Run(s, events), e)
    ensures slug !in Step(Run(s, events), e).inFlight[Run(s, events).nextId]
    decreases |events|
  {
    if events == [] {
      RequestsAreFresh(s, e);
    } else {
      StepKeepsValid(s, events[0]);
      StepKeepsAnswers(s, events[0]);
      AnsweredIsNeverRequestedAgain(Step(s, events[0]), events[1..], slug, e);
    }
  }

  ghost function Potential(s: State): int {
    8 * |s.seen - s.answered| + 2 * (MAX_RETRY - s.retry) + 2 * |s.timers| + |s.inFlight|
  }

  lemma FireSpends(s: State, timer: TimerId)
    requires Valid(s) && timer in s.timers
    ensures Potential(Fired(s, timer)) < Potential(s)
  {
    var s' := Fired(s, timer);
    assert s.timers.Keys == {timer} && s'.timers == map[];
    assert |s'.inFlight| <= |s.inFlight| + 1;
  }

  lemma SuccessSpends(s: State, batch: BatchId, items: seq<Item>)
    requires Valid(s) && batch in s.inFlight
    ensures Potential(Succeeded(s, batch, items)) < Potential(s)
  {
    var s' := Succeeded(s, batch, items);
    var unanswered := s.seen - s.answered;
    assert BatchApart(s, batch);
    assert s'.inFlight.Keys == s.inFlight.Keys - {batch};
    assert s'.seen - s'.answered == unanswered - s.inFlight[batch] && s.inFlight[batch] <= unanswered;
    assert |unanswered - s.inFlight[batch]| == |unanswered| - |s.inFlight[batch]|;
  }

  lemma FailureSpends(s: State, batch: BatchId)
    requires Valid(s) && batch in s.inFlight
    ensures Potential(Failed(s, batch)) < Potential(s)
  {
    var s' := Failed(s, batch);
    assert s'.inFlight.Keys == s.inFlight.Keys - {batch};
    assert |s'.timers| <= |s.timers| + 1;
  }

  lemma StepSpendsPotential(s: State, e: Event)
    requires Valid(s) && Enabled(s, e) && !e.Register?
    ensures 0 <= Potential(Step(s, e)) < Potential(s)
  {
    StepKeepsValid(s, e);
    match e
    case Fire(timer) => FireSpends(s, timer);
    case Succeed(batch, items) => SuccessSpends(s, batch, items);
    case Fail(batch) => FailureSpends(s, batch);
  }

  /** Once registrations stop, a run has at most `Potential` further steps, whatever succeeds or fails. */
  lemma {:induction false} RunsWithoutRegistrationsEnd(s: State, events: seq<Event>)
    requires Valid(s) && Possible(s, events)
    requires forall i | 0 <= i < |events| :: !events[i].Register?
    ensures |events| <= Potential(s)
    decreases |events|
  {
    if events != [] {
      StepSpendsPotential(s, events[0]);
      StepKeepsValid(s, events[0]);
      RunsWithoutRegistrationsEnd(Step(s, events[0]), events[1..]);
    }
  }

  // ----- Slugs left behind -----

  /** Slugs wait, and no timer will ever send them. */
  ghost predicate Stalled(s: State) {
    s.pending != {} && s.timerRef == None
  }

  /** The queue stalls exactly when a batch fails with its retries used up and no timer armed. */
  lemma StallsExactlyOnLastFailure(s: State, e: Event)
    requires Valid(s) && Enabled(s, e) && !Stalled(s)
    ensures Stalled(Step(s, e)) <==> e.Fail? && s.retry == MAX_RETRY && s.timerRef == None
  {
    if e.Fail? {
      assert BatchApart(s, e.batch);
    }
  }

  /** A stalled queue is revived only by registering a new slug or by another batch failing with retries left. */
  lemma RevivedOnlyBy(s: State, e: Event)
    requires Valid(s) && Enabled(s, e) && Stalled(s)
    ensures !Stalled(Step(s, e)) <==>
      (e.Register? && e.slug.text != "" && e.slug !in s.seen) || (e.Fail? && s.retry < MAX_RETRY)
  {
  }

  /** When nothing is armed or awaited, every registered slug has its answer unless the queue has stalled. */
  lemma QuietMeansAnswered(s: State)
    requires Valid(s) && s.timerRef == None && s.inFlight == map[]
    ensures s.seen == s.answered <==> !Stalled(s)
  {
    forall slug | slug in s.seen && slug !in s.answered ensures slug in s.pending {
      assert Placed(s, slug);
    }
  }

  /** Failing every batch leaves any waiting queue stalled, after one request per retry left and one more. */
  lemma {:induction false} FailuresStall(s: State) returns (events: seq<Event>)
    requires Valid(s) && s.timerRef.Some? && s.pending != {} && s.inFlight == map[]
    ensures Possible(s, events) && |events| == 2 * (MAX_RETRY + 1 - s.retry)
    ensures var s' := Run(s, events); Stalled(s') && s'.inFlight == map[] && s'.pending == s.pending
    decreases MAX_RETRY - s.retry
  {
    var fire, fail := Fire(s.timerRef.value), Fail(s.nextId);
    var s1 := Step(s, fire);
    var s2 := Step(s1, fail);
    StepKeepsValid(s, fire);
    StepKeepsValid(s1, fail);
    assert s2.inFlight == map[];
    var rest := [];
    if s.retry < MAX_RETRY {
      rest := FailuresStall(s2);
    }
    events := [fire] + ([fail] + rest);
    assert events[1..] == [fail] + rest && ([fail] + rest)[1..] == rest;
    assert Run(s1, [fail] + rest) == Run(s2, rest);
    assert Run(s, events) == Run(s1, events[1..]);
  }

  /** So the code can leave a registered slug behind for good: ten failing steps after the first registration. */
  lemma SlugCanBeLeftBehind(slug: Slug) returns (events: seq<Event>)
    requires slug.text != ""
    ensures Possible(INITIAL, events)
    ensures var s := Run(INITIAL, events);
      slug in s.seen && slug !in s.answered && s.timerRef == None && s.inFlight == map[]
  {
    var first := Register(slug);
    var s := Step(INITIAL, first);
    StepKeepsValid(INITIAL, first);
    var rest := FailuresStall(s);
    events := [first] + rest;
    assert events[1..] == rest;
    RunKeepsValid(s, rest);
  }

  // ----- The component -----

  class EffectivePricesProvider {
    var pendingRef: set<Slug>
    var seenRef: set<Slug>
    var timerRef: Option<TimerId>
    var retryRef: nat
    var prices: map<Slug, real>
    /** The runtime's side: armed timers, suspended requests, and the slugs of the completed ones. */
    var timers: map<TimerId, nat>
    var inFlight: map<BatchId, set<Slug>>
    ghost var answered: set<Slug>
    var nextId: nat

    ghost function View(): State
      reads this
    {
      State(pendingRef, seenRef, timerRef, retryRef, prices, timers, inFlight, answered, nextId)
    }

    constructor ()
      ensures View() == INITIAL && Valid(View())
    {
      pendingRef, seenRef, timerRef, retryRef, prices := {}, {}, None, 0, map[];
      timers, inFlight, answered, nextId := map[], map[], {}, 0;
    }

    method SetTimeout(delay: nat)
      modifies this
      ensures View() == Arm(old(View()), delay)
    {
      timers := timers[nextId := delay];
      timerRef := Some(nextId);
      nextId := nextId + 1;
    }

    method RegisterSlug(slug: Slug)
      requires Valid(View())
      modifies this
      ensures View() == Registered(old(View()), slug) && Valid(View())
    {
      StepKeepsValid(View(), Register(slug));
      if slug.text == "" { return; }
      if slug in seenRef { return; }
      seenRef := seenRef + {slug};
      pendingRef := pendingRef + {slug};
      if timerRef.Some? { return; }
      SetTimeout(FETCH_DEBOUNCE_MS);
    }

    /** `flush` up to its request. */
    method Flush(timer: TimerId) returns (request: Option<set<Slug>>)
      requires Valid(View()) && timer in timers
      modifies this
      ensures View() == Fired(old(View()), timer) && Valid(View())
      ensures request == if old(pendingRef) == {} then None else Some(old(pendingRef))
    {
      StepKeepsValid(View(), Fire(timer));
      timers := timers - {timer};
      timerRef := None;
      var slugs := pendingRef;
      pendingRef := {};
      if slugs == {} { return None; }
      inFlight := inFlight[nextId := slugs];
      nextId := nextId + 1;
      request := Some(slugs);
    }

    /** The response's prices written over a copy of the old ones, item by item. */
    static method WithItems(prices: map<Slug, real>, items: seq<Item>) returns (next: map<Slug, real>)
      ensures next == MergePrices(prices, items)
    {
      next := prices;
      for i := 0 to |items|
        invariant next == MergePrices(prices, items[..i])
      {
        assert items[..i + 1][..i] == items[..i];
        if items[i].price.Some? && items[i].price.value > 0.0 {
          next := next[items[i].slug := items[i].price.value];
        }
      }
      assert items[..|items|] == items;
    }

    /** `flush` after a response. */
    method RequestSucceeds(batch: BatchId, items: seq<Item>)
      requires Valid(View()) && batch in inFlight
      modifies this
      ensures View() == Succeeded(old(View()), batch, items) && Valid(View())
      ensures retryRef == 0 && answered == old(answered) + old(inFlight)[batch]
      ensures Quoted(old(prices), items, prices)
    {
      StepKeepsValid(View(), Succeed(batch, items));
      MergedPrices(prices, items);
      answered := answered + inFlight[batch];
      inFlight := inFlight - {batch};
      retryRef := 0;
      if |items| == 0 { return; }
      prices := WithItems(prices, items);
    }

    /** `flush` after an error. */
    method RequestFails(batch: BatchId)
      requires Valid(View()) && batch in inFlight
      modifies this
      ensures View() == Failed(old(View()), batch) && Valid(View())
    {
      StepKeepsValid(View(), Fail(batch));
      pendingRef := pendingRef + inFlight[batch];
      inFlight := inFlight - {batch};
      if retryRef < MAX_RETRY {
        retryRef := retryRef + 1;
        var delay := RetryDelay(retryRef);
        if timerRef == None {
          SetTimeout(delay);
        }
      }
    }
  }
}
