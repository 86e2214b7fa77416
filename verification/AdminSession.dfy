/**
 * The admin panel's session protocol: concurrent API calls in one tab share one token refresh,
 * retry once after it, and fall back to trusted-device login; the server rotates refresh tokens.
 */
module AdminSession {
  import opened Options

  type Token = nat
  type RequestId = nat

  /** What became of a call's latest own request. */
  datatype Outcome = Pending | Success | Unauthorized | OtherStatus | NetworkError

  datatype Phase =
    | Sent(retried: bool)
    | AwaitRefresh
    | AfterRefresh(refreshed: bool)
    | AwaitAutoLogin
    | AfterAutoLogin(loggedIn: bool)
    | Finished

  /** One `apiFetch`; `skipRefresh` when its path is one of the credential endpoints. */
  datatype Call = Call(skipRefresh: bool, phase: Phase, sends: nat, last: Outcome, cleared: bool)

  datatype Tokens = Tokens(access: Option<Token>, refresh: Option<Token>)

  datatype Answer = Rejected | Granted(tokens: Tokens)

  /** A refresh request on the wire, and the server's answer to it once there is one. */
  datatype Request = Request(token: Token, answer: Option<Answer>)

  /** How an answer reaches the tab. `Failed` stands for a non-2xx status, a network error or a bad body. */
  datatype Delivery = Intact | WithoutRefreshToken | WithoutAccessToken | Failed

  /**
   * `refreshPromise` names the refresh under way; `wire` holds the refresh requests the tab waits for, and
   * `adrift` the tokens of those it gave up on before the server had handled them.
   */
  datatype State = State(
    stored: Tokens,
    refreshPromise: Option<RequestId>,
    autoLogin: bool,
    calls: seq<Call>,
    wire: map<RequestId, Request>,
    adrift: multiset<Token>,
    rotated: set<Token>,
    reuseDetected: bool,
    nextId: nat)

  datatype Event =
    | Fetch(skipRefresh: bool)
    | Respond(call: nat, outcome: Outcome)
    | ServerRefresh(request: RequestId, accept: bool)
    | DeliverRefresh(request: RequestId, how: Delivery)
    | AbandonRefresh(request: RequestId)
    | ServerHandlesAdrift(token: Token, accept: bool)
    | NothingToRefresh
    | ResumeAfterRefresh(call: nat)
    | MountAutoLogin
    | DeliverAutoLogin(accept: bool, withRefreshToken: bool)
    | ResumeAfterAutoLogin(call: nat)
    | Login(withRefreshToken: bool)

  ghost predicate Init(s: State) {
    && s.refreshPromise == None && !s.autoLogin && s.calls == [] && s.wire == map[]
    && s.adrift == multiset{} && s.rotated == {} && !s.reuseDetected
    && (s.stored.access.Some? ==> s.stored.access.value < s.nextId)
    && (s.stored.refresh.Some? ==> s.stored.refresh.value < s.nextId)
  }

  // ----- The tab -----

  function ClearSession(s: State): State {
    s.(stored := Tokens(None, None))
  }

  /** Writes an access token, and a refresh token when there is one. */
  function StoreTokens(s: State, access: Token, refresh: Option<Token>): State {
    s.(stored := Tokens(Some(access), if refresh.Some? then refresh else s.stored.refresh))
  }

  /** `tryRefresh`: joins the refresh under way, or starts one with the stored refresh token. */
  function TryRefresh(s: State): State {
    if s.refreshPromise.Some? then s
    else
      var started := s.(refreshPromise := Some(s.nextId), nextId := s.nextId + 1);
      if s.stored.refresh == None then started
      else started.(wire := s.wire[s.nextId := Request(s.stored.refresh.value, None)])
  }

  function TryAutoLogin(s: State): State {
    s.(autoLogin := true)
  }

  function WithCall(s: State, i: nat, c: Call): State
    requires i < |s.calls|
  {
    s.(calls := s.calls[i := c])
  }

  function Finish(s: State, i: nat, clear: bool): State
    requires i < |s.calls|
  {
    var s' := if clear then ClearSession(s) else s;
    WithCall(s', i, s.calls[i].(phase := Finished, cleared := clear))
  }

  function Resend(s: State, i: nat): State
    requires i < |s.calls|
  {
    WithCall(s, i, s.calls[i].(phase := Sent(true), sends := s.calls[i].sends + 1, last := Pending))
  }

  /** `apiFetchInternal` from a response to its own request. */
  function Responded(s: State, i: nat, outcome: Outcome): State
    requires i < |s.calls| && s.calls[i].phase.Sent?
  {
    var c := s.calls[i].(last := outcome);
    var s' := WithCall(s, i, c);
    if outcome != Unauthorized then Finish(s', i, false)
    else if c.skipRefresh || c.phase.retried then Finish(s', i, true)
    else TryRefresh(WithCall(s, i, c.(phase := AwaitRefresh)))
  }

  function WakeAfterRefresh(calls: seq<Call>, refreshed: bool): seq<Call> {
    seq(|calls|, i requires 0 <= i < |calls| =>
      if calls[i].phase.AwaitRefresh? then calls[i].(phase := AfterRefresh(refreshed)) else calls[i])
  }

  function WakeAfterAutoLogin(calls: seq<Call>, loggedIn: bool): seq<Call> {
    seq(|calls|, i requires 0 <= i < |calls| =>
      if calls[i].phase.AwaitAutoLogin? then calls[i].(phase := AfterAutoLogin(loggedIn)) else calls[i])
  }

  /** The refresh promise settles: every call waiting for it is resumed with its result. */
  function SettleRefresh(s: State, refreshed: bool): State {
    s.(refreshPromise := None, calls := WakeAfterRefresh(s.calls, refreshed))
  }

  function SettleAutoLogin(s: State, loggedIn: bool): State {
    s.(autoLogin := false, calls := WakeAfterAutoLogin(s.calls, loggedIn))
  }

  /** The body the tab reads: none on an error, otherwise the tokens that survived the delivery. */
  function Observed(answer: Answer, how: Delivery): Option<Tokens> {
    if answer.Rejected? then None
    else
      match how
      case Intact => Some(answer.tokens)
      case WithoutRefreshToken => Some(answer.tokens.(refresh := None))
      case WithoutAccessToken => Some(answer.tokens.(access := None))
      case Failed => None
  }

  /** `doRefresh` from the answer to its request. */
  function Delivered(s: State, r: RequestId, body: Option<Tokens>): State {
    var s' := s.(wire := s.wire - {r});
    if body == None || body.value.access == None then SettleRefresh(s', false)
    else SettleRefresh(StoreTokens(s', body.value.access.value, body.value.refresh), true)
  }

  /** `doRefresh` from a network error while its request is still on its way. */
  function Abandoned(s: State, r: RequestId): State
    requires r in s.wire
  {
    SettleRefresh(s.(wire := s.wire - {r}, adrift := s.adrift + multiset{s.wire[r].token}), false)
  }

  /** `doAutoLogin` from the answer to its request. */
  function AutoLoginDelivered(s: State, body: Option<Tokens>): State {
    if body == None || body.value.access == None then SettleAutoLogin(s, false)
    else SettleAutoLogin(StoreTokens(s, body.value.access.value, body.value.refresh), true)
  }

  function ResumedAfterRefresh(s: State, i: nat): State
    requires i < |s.calls| && s.calls[i].phase.AfterRefresh?
  {
    if s.calls[i].phase.refreshed then Resend(s, i)
    else TryAutoLogin(WithCall(s, i, s.calls[i].(phase := AwaitAutoLogin)))
  }

  function ResumedAfterAutoLogin(s: State, i: nat): State
    requires i < |s.calls| && s.calls[i].phase.AfterAutoLogin?
  {
    if s.calls[i].phase.loggedIn then Resend(s, i) else Finish(s, i, true)
  }

  // ----- The server -----

  function FreshTokens(s: State, withRefreshToken: bool): (Tokens, State) {
    (Tokens(Some(s.nextId), if withRefreshToken then Some(s.nextId + 1) else None), s.(nextId := s.nextId + 2))
  }

  /** A rotated token is a replay; otherwise the token is rotated if the server accepts it. */
  function ServerAnswers(s: State, r: RequestId, accept: bool): State
    requires r in s.wire
  {
    var token := s.wire[r].token;
    if token in s.rotated then
      s.(reuseDetected := true, wire := s.wire[r := Request(token, Some(Rejected))])
    else if accept then
      var (tokens, s') := FreshTokens(s, true);
      s'.(rotated := s.rotated + {token}, wire := s.wire[r := Request(token, Some(Granted(tokens)))])
    else
      s.(wire := s.wire[r := Request(token, Some(Rejected))])
  }

  /** The same for a request nobody waits for any more. */
  function AdriftAnswered(s: State, token: Token, accept: bool): State
    requires token in s.adrift
  {
    var s' := s.(adrift := s.adrift - multiset{token});
    if token in s.rotated then s'.(reuseDetected := true)
    else if accept then s'.(rotated := s.rotated + {token}, nextId := s.nextId + 2)
    else s'
  }

  predicate Enabled(s: State, e: Event) {
    match e
    case Fetch(_) => true
    case Respond(i, outcome) => i < |s.calls| && s.calls[i].phase.Sent? && outcome != Pending
    case ServerRefresh(r, _) => r in s.wire && s.wire[r].answer == None
    case DeliverRefresh(r, _) => r in s.wire && s.wire[r].answer.Some?
    case AbandonRefresh(r) => r in s.wire && s.wire[r].answer == None
    case ServerHandlesAdrift(token, _) => token in s.adrift
    case NothingToRefresh => s.refreshPromise.Some? && s.refreshPromise.value !in s.wire
    case ResumeAfterRefresh(i) => i < |s.calls| && s.calls[i].phase.AfterRefresh?
    case MountAutoLogin => true
    case DeliverAutoLogin(_, _) => s.autoLogin
    case ResumeAfterAutoLogin(i) => i < |s.calls| && s.calls[i].phase.AfterAutoLogin?
    case Login(_) => true
  }

  function Step(s: State, e: Event): State
    requires Enabled(s, e)
  {
    match e
    case Fetch(skip) => s.(calls := s.calls + [Call(skip, Sent(false), 1, Pending, false)])
    case Respond(i, outcome) => Responded(s, i, outcome)
    case ServerRefresh(r, accept) => ServerAnswers(s, r, accept)
    case DeliverRefresh(r, how) => Delivered(s, r, Observed(s.wire[r].answer.value, how))
    case AbandonRefresh(r) => Abandoned(s, r)
    case ServerHandlesAdrift(token, accept) => AdriftAnswered(s, token, accept)
    case NothingToRefresh => SettleRefresh(s, false)
    case ResumeAfterRefresh(i) => ResumedAfterRefresh(s, i)
    case MountAutoLogin => TryAutoLogin(s)
    case DeliverAutoLogin(accept, withRefreshToken) =>
      if !accept then AutoLoginDelivered(s, None)
      else
        var (tokens, s') := FreshTokens(s, withRefreshToken);
        AutoLoginDelivered(s', Some(tokens))
    case ResumeAfterAutoLogin(i) => ResumedAfterAutoLogin(s, i)
    case Login(withRefreshToken) =>
      var (tokens, s') := FreshTokens(s, withRefreshToken);
      StoreTokens(s', tokens.access.value, tokens.refresh)
  }

  /** The step settles a promise calls may wait for. */
  predicate Settles(e: Event) {
    e.DeliverRefresh? || e.AbandonRefresh? || e.NothingToRefresh? || e.DeliverAutoLogin?
  }

  ghost predicate Possible(s: State, events: seq<Event>)
    decreases |events|
  {
    events == [] || (Enabled(s, events[0]) && Possible(Step(s, events[0]), events[1..]))
  }

  ghost function Run(s: State, events: seq<Event>): State
    requires Possible(s, events)
    decreases |events|
  {
    if events == [] then s else Run(Step(s, events[0]), events[1..])
  }

  // ----- Single flight, and calls -----

  /** A call sends at most twice, and clears the session exactly when it ends on a 401. */
  ghost predicate CallSound(c: Call) {
    && c.sends == (if c.phase == Sent(true) then 2 else if c.phase.Finished? then c.sends else 1)
    && 1 <= c.sends <= 2
    && (c.phase.Sent? <==> c.last == Pending)
    && (c.cleared <==> c.phase.Finished? && c.last == Unauthorized)
    && (c.phase.AwaitRefresh? || c.phase.AfterRefresh? || c.phase.AwaitAutoLogin? || c.phase.AfterAutoLogin? ==>
          c.last == Unauthorized && !c.skipRefresh)
    && (c.skipRefresh ==> c.sends == 1)
  }

  /** A waiting call waits for a promise that is still to settle. */
  ghost predicate CallServed(s: State, i: nat)
    requires i < |s.calls|
  {
    && CallSound(s.calls[i])
    && (s.calls[i].phase.AwaitRefresh? ==> s.refreshPromise.Some?)
    && (s.calls[i].phase.AwaitAutoLogin? ==> s.autoLogin)
  }

  /** At most one refresh request is on the wire, and it is the one the promise stands for. */
  ghost predicate SingleFlight(s: State) {
    && (forall r | r in s.wire :: s.refreshPromise == Some(r))
    && (s.refreshPromise.Some? ==> s.refreshPromise.value < s.nextId)
  }

  ghost predicate Orderly(s: State) {
    && SingleFlight(s)
    && forall i: nat {:trigger CallServed(s, i)} | i < |s.calls| :: CallServed(s, i)
  }

  lemma AtMostOneRefresh(s: State)
    requires SingleFlight(s)
    ensures |s.wire| <= 1
  {
    if s.wire.Keys != {} {
      var r :| r in s.wire.Keys;
      assert s.wire.Keys == {r};
    }
  }

  lemma StepKeepsSingleFlight(s: State, e: Event)
    requires SingleFlight(s) && Enabled(s, e)
    ensures SingleFlight(Step(s, e))
  {
  }

  lemma RespondKeepsServed(s: State, i: nat, outcome: Outcome, k: nat)
    requires Orderly(s) && Enabled(s, Respond(i, outcome)) && k < |s.calls|
    ensures |Responded(s, i, outcome).calls| == |s.calls| && CallServed(Responded(s, i, outcome), k)
  {
    assert CallServed(s, i) && CallServed(s, k);
  }

  /** Settling a promise leaves no call waiting for it. */
  lemma SettleKeepsServed(s: State, s': State, ok: bool, k: nat)
    requires k < |s.calls| && CallServed(s, k)
    requires
      || (s'.calls == WakeAfterRefresh(s.calls, ok) && s'.autoLogin == s.autoLogin)
      || (s'.calls == WakeAfterAutoLogin(s.calls, ok) && s'.refreshPromise == s.refreshPromise)
    ensures CallServed(s', k)
  {
  }

  lemma AutoLoginKeepsOrder(s: State, body: Option<Tokens>)
    requires Orderly(s)
    ensures Orderly(AutoLoginDelivered(s, body))
  {
    var s' := AutoLoginDelivered(s, body);
    forall k: nat | k < |s'.calls| ensures CallServed(s', k) {
      assert CallServed(s, k);
      SettleKeepsServed(s, s', body.Some? && body.value.access.Some?, k);
    }
  }

  lemma RefreshResumeKeepsServed(s: State, i: nat, k: nat)
    requires Orderly(s) && Enabled(s, ResumeAfterRefresh(i)) && k < |s.calls|
    ensures |ResumedAfterRefresh(s, i).calls| == |s.calls| && CallServed(ResumedAfterRefresh(s, i), k)
  {
    assert CallServed(s, i) && CallServed(s, k);
  }

  lemma AutoLoginResumeKeepsServed(s: State, i: nat, k: nat)
    requires Orderly(s) && Enabled(s, ResumeAfterAutoLogin(i)) && k < |s.calls|
    ensures |ResumedAfterAutoLogin(s, i).calls| == |s.calls| && CallServed(ResumedAfterAutoLogin(s, i), k)
  {
    assert CallServed(s, i) && CallServed(s, k);
  }

  lemma SettlingKeepsServed(s: State, e: Event, k: nat)
    requires Orderly(s) && Enabled(s, e) && Settles(e) && k < |s.calls|
    ensures |Step(s, e).calls| == |s.calls| && CallServed(Step(s, e), k)
  {
    assert CallServed(s, k);
    match e
    case DeliverRefresh(r, how) =>
      var body := Observed(s.wire[r].answer.value, how);
      SettleKeepsServed(s, Delivered(s, r, body), body.Some? && body.value.access.Some?, k);
    case AbandonRefresh(r) => SettleKeepsServed(s, Abandoned(s, r), false, k);
    case NothingToRefresh => SettleKeepsServed(s, SettleRefresh(s, false), false, k);
    case DeliverAutoLogin(accept, _) => SettleKeepsServed(s, Step(s, e), accept, k);
  }

  lemma OthersKeepServed(s: State, e: Event, k: nat)
    requires Orderly(s) && Enabled(s, e) && k < |Step(s, e).calls|
    requires e.Fetch? || e.ServerRefresh? || e.ServerHandlesAdrift? || e.MountAutoLogin? || e.Login?
    ensures CallServed(Step(s, e), k)
  {
    assert k < |s.calls| ==> CallServed(s, k);
  }

  lemma StepKeepsServed(s: State, e: Event, k: nat)
    requires Orderly(s) && Enabled(s, e) && k < |Step(s, e).calls|
    ensures CallServed(Step(s, e), k)
  {
    if Settles(e) {
      SettlingWakes(s, e);
      SettlingKeepsServed(s, e, k);
    } else if e.Respond? || e.ResumeAfterRefresh? || e.ResumeAfterAutoLogin? {
      CallStepKeepsServed(s, e, k);
    } else {
      OthersKeepServed(s, e, k);
    }
  }

  lemma CallStepKeepsServed(s: State, e: Event, k: nat)
    requires Orderly(s) && Enabled(s, e) && k < |Step(s, e).calls|
    requires e.Respond? || e.ResumeAfterRefresh? || e.ResumeAfterAutoLogin?
    ensures CallServed(Step(s, e), k)
  {
    match e
    case Respond(i, outcome) => RespondKeepsServed(s, i, outcome, k);
    case ResumeAfterRefresh(i) => RefreshResumeKeepsServed(s, i, k);
    case ResumeAfterAutoLogin(i) => AutoLoginResumeKeepsServed(s, i, k);
  }

  lemma StepKeepsOrder(s: State, e: Event)
    requires Orderly(s) && Enabled(s, e)
    ensures Orderly(Step(s, e))
  {
    StepKeepsSingleFlight(s, e);
    forall i: nat | i < |Step(s, e).calls| ensures CallServed(Step(s, e), i) {
      StepKeepsServed(s, e, i);
    }
  }

  /** In every reachable state, whatever is delivered or lost: single flight, and every call sound. */
  lemma {:induction false} RunKeepsOrder(s: State, events: seq<Event>)
    requires Orderly(s) && Possible(s, events)
    ensures Orderly(Run(s, events))
    decreases |events|
  {
    if events != [] {
      StepKeepsOrder(s, events[0]);
      RunKeepsOrder(Step(s, events[0]), events[1..]);
    }
  }

  /** What a step reads from the server on behalf of the calls that wait. */
  function Body(s: State, e: Event): Option<Tokens>
    requires Enabled(s, e)
  {
    match e
    case DeliverRefresh(r, how) => Observed(s.wire[r].answer.value, how)
    case DeliverAutoLogin(accept, withRefreshToken) => if accept then Some(FreshTokens(s, withRefreshToken).0) else None
    case _ => None
  }

  predicate Waiting(c: Call) {
    c.phase.AwaitRefresh? || c.phase.AwaitAutoLogin?
  }

  lemma OtherCallsStay(s: State, e: Event, i: nat)
    requires Enabled(s, e) && i < |s.calls| && Waiting(s.calls[i])
    requires e.Respond? || e.ResumeAfterRefresh? || e.ResumeAfterAutoLogin?
    ensures |Step(s, e).calls| == |s.calls| && Step(s, e).calls[i] == s.calls[i]
  {
    assert e.call != i;
  }

  lemma OnlySettlingResumes(s: State, e: Event, i: nat)
    requires Enabled(s, e) && i < |s.calls| && Waiting(s.calls[i]) && !Settles(e)
    ensures i < |Step(s, e).calls| && Waiting(Step(s, e).calls[i])
  {
    if e.Respond? || e.ResumeAfterRefresh? || e.ResumeAfterAutoLogin? {
      OtherCallsStay(s, e, i);
    } else {
      CallsStay(s, e);
    }
  }

  lemma CallsStay(s: State, e: Event)
    requires Enabled(s, e) && !Settles(e) && !e.Respond? && !e.ResumeAfterRefresh? && !e.ResumeAfterAutoLogin?
    ensures s.calls <= Step(s, e).calls
  {
  }

  predicate Arrived(body: Option<Tokens>) {
    body.Some? && body.value.access.Some?
  }

  /** The tokens after a body has arrived: those it brings, and the old refresh token if it brings none. */
  function StoredAfter(stored: Tokens, body: Option<Tokens>): Tokens {
    if !Arrived(body) then stored
    else Tokens(body.value.access, if body.value.refresh.Some? then body.value.refresh else stored.refresh)
  }

  lemma SettlingStores(s: State, e: Event)
    requires Enabled(s, e) && Settles(e)
    ensures Step(s, e).stored == StoredAfter(s.stored, Body(s, e))
  {
  }

  lemma SettlingWakes(s: State, e: Event)
    requires Enabled(s, e) && Settles(e)
    ensures Step(s, e).calls ==
      if e.DeliverAutoLogin? then WakeAfterAutoLogin(s.calls, Arrived(Body(s, e)))
      else WakeAfterRefresh(s.calls, Arrived(Body(s, e)))
  {
  }

  /** A waiting call is resumed to send again exactly when an access token has arrived, which is then stored. */
  lemma ResumedExactlyWithNewToken(s: State, e: Event, i: nat)
    requires Enabled(s, e) && i < |s.calls| && Waiting(s.calls[i]) && !Waiting(Step(s, e).calls[i])
    ensures var phase, arrived := Step(s, e).calls[i].phase, Arrived(Body(s, e));
      && (phase == AfterRefresh(true) || phase == AfterAutoLogin(true) <==> arrived)
      && (phase == AfterRefresh(false) || phase == AfterAutoLogin(false) <==> !arrived)
    ensures Step(s, e).stored == StoredAfter(s.stored, Body(s, e))
  {
    if !Settles(e) {
      OnlySettlingResumes(s, e, i);
    } else {
      SettlingStores(s, e);
      SettlingWakes(s, e);
    }
  }

  // ----- What a call has learned, and what it does -----

  /** What a waiting call learns when the promise it waits for settles. */
  datatype News = NewToken | NoRefresh | NoLogin

  ghost function NewsOf(s: State, e: Event, i: nat): set<News>
    requires Enabled(s, e)
  {
    if i >= |s.calls| || !Settles(e) then {}
    else if s.calls[i].phase.AwaitRefresh? && !e.DeliverAutoLogin? then
      {if Arrived(Body(s, e)) then NewToken else NoRefresh}
    else if s.calls[i].phase.AwaitAutoLogin? && e.DeliverAutoLogin? then
      {if Arrived(Body(s, e)) then NewToken else NoLogin}
    else {}
  }

  /** All that call `i` learns in a run. */
  ghost function Learned(s: State, events: seq<Event>, i: nat): set<News>
    requires Possible(s, events)
    decreases |events|
  {
    if events == [] then {} else NewsOf(s, events[0], i) + Learned(Step(s, events[0]), events[1..], i)
  }

  /** How far a call is, by what it has learned. */
  ghost predicate Tells(c: Call, news: set<News>) {
    match c.phase
    case Sent(retried) => c.sends == (if retried then 2 else 1) && (if retried then NewToken in news else news == {})
    case AwaitRefresh => c.sends == 1 && news == {}
    case AfterRefresh(refreshed) => c.sends == 1 && news == {if refreshed then NewToken else NoRefresh}
    case AwaitAutoLogin => c.sends == 1 && news == {NoRefresh}
    case AfterAutoLogin(loggedIn) => c.sends == 1 && news == {NoRefresh, if loggedIn then NewToken else NoLogin}
    case Finished =>
      && (c.sends == 2 <==> NewToken in news)
      && (c.sends == 1 && c.last == Unauthorized && !c.skipRefresh <==> {NoRefresh, NoLogin} <= news)
  }

  ghost predicate Told(s: State, i: nat, news: set<News>) {
    if i < |s.calls| then Tells(s.calls[i], news) && (NewToken in news ==> NoLogin !in news) else news == {}
  }

  lemma RespondTells(s: State, j: nat, outcome: Outcome, i: nat, news: set<News>)
    requires Orderly(s) && Enabled(s, Respond(j, outcome)) && Told(s, i, news)
    ensures Told(Responded(s, j, outcome), i, news)
  {
    assert CallServed(s, j);
  }

  lemma ResumeTells(s: State, e: Event, i: nat, news: set<News>)
    requires Orderly(s) && Enabled(s, e) && (e.ResumeAfterRefresh? || e.ResumeAfterAutoLogin?) && Told(s, i, news)
    ensures Told(Step(s, e), i, news)
  {
    assert CallServed(s, e.call);
  }

  lemma SettlingTells(s: State, e: Event, i: nat, news: set<News>)
    requires Enabled(s, e) && Settles(e) && Told(s, i, news)
    ensures Told(Step(s, e), i, news + NewsOf(s, e, i))
  {
    SettlingWakes(s, e);
  }

  lemma StepTells(s: State, e: Event, i: nat, news: set<News>)
    requires Orderly(s) && Enabled(s, e) && Told(s, i, news)
    ensures Told(Step(s, e), i, news + NewsOf(s, e, i))
  {
    assert !Settles(e) ==> news + NewsOf(s, e, i) == news;
    if Settles(e) {
      SettlingTells(s, e, i, news);
    } else if e.Respond? {
      RespondTells(s, e.call, e.outcome, i, news);
    } else if e.ResumeAfterRefresh? || e.ResumeAfterAutoLogin? {
      ResumeTells(s, e, i, news);
    } else {
      CallsStay(s, e);
    }
  }

  lemma {:induction false} RunTells(s: State, events: seq<Event>, i: nat, news: set<News>)
    requires Orderly(s) && Possible(s, events) && Told(s, i, news)
    ensures Told(Run(s, events), i, news + Learned(s, events, i))
    decreases |events|
  {
    if events == [] {
      assert news + {} == news;
    } else {
      var news' := news + NewsOf(s, events[0], i);
      StepTells(s, events[0], i, news);
      StepKeepsOrder(s, events[0]);
      RunTells(Step(s, events[0]), events[1..], i, news');
      assert news + Learned(s, events, i) == news' + Learned(Step(s, events[0]), events[1..], i);
    }
  }

  /** In every run a call that has been answered sent twice exactly when an access token arrived while it waited. */
  lemma SendsAgainExactly(s: State, events: seq<Event>, i: nat)
    requires Init(s) && Possible(s, events) && i < |Run(s, events).calls|
    ensures var c := Run(s, events).calls[i];
      c.phase.Sent? || c.phase.Finished? ==> (c.sends == 2 <==> NewToken in Learned(s, events, i))
  {
    RunTells(s, events, i, {});
    assert {} + Learned(s, events, i) == Learned(s, events, i);
  }

  /**
   * A call ends on a 401 after a single send, other than at a credential endpoint, exactly when it has
   * waited for a refresh and for an auto-login, and neither brought an access token.
   */
  lemma GivesUpExactly(s: State, events: seq<Event>, i: nat)
    requires Init(s) && Possible(s, events) && i < |Run(s, events).calls|
    requires Run(s, events).calls[i].phase.Finished?
    ensures var c := Run(s, events).calls[i];
      c.last == Unauthorized && c.sends == 1 && !c.skipRefresh <==> Learned(s, events, i) == {NoRefresh, NoLogin}
  {
    RunTells(s, events, i, {});
    var news := Learned(s, events, i);
    assert {} + news == news;
    if {NoRefresh, NoLogin} <= news {
      forall x | x in news ensures x in {NoRefresh, NoLogin} {
        assert x != NewToken;
      }
    }
  }

  // ----- Rotated tokens -----

  ghost predicate Known(s: State, token: Option<Token>) {
    token.Some? ==> token.value < s.nextId
  }

  /** A request waits with a token still valid, or carries back fresh tokens. */
  ghost predicate RequestSafe(s: State, r: RequestId)
    requires r in s.wire
  {
    && s.wire[r].token < s.nextId
    && match s.wire[r].answer
       case None => s.wire[r].token !in s.rotated
       case Some(Rejected) => s.wire[r].token !in s.rotated
       case Some(Granted(tokens)) =>
         && tokens.access.Some? && tokens.refresh.Some? && tokens.refresh.value < s.nextId
         && tokens.refresh.value !in s.rotated
  }

  /** The stored refresh token has been rotated only while its successor is on the way. */
  ghost predicate StoredSafe(s: State) {
    s.stored.refresh.Some? && s.stored.refresh.value in s.rotated ==>
      s.refreshPromise.Some? && s.refreshPromise.value in s.wire &&
      s.wire[s.refreshPromise.value].answer.Some? && s.wire[s.refreshPromise.value].answer.value.Granted?
  }

  ghost predicate Safe(s: State) {
    && !s.reuseDetected
    && s.adrift == multiset{}
    && SingleFlight(s)
    && (forall t | t in s.rotated :: t < s.nextId)
    && Known(s, s.stored.refresh)
    && (forall r {:trigger RequestSafe(s, r)} | r in s.wire :: RequestSafe(s, r))
    && StoredSafe(s)
  }

  /** No refresh is given up on, and the answer to an accepted one arrives, with both tokens. */
  ghost predicate Faithful(s: State, e: Event)
    requires Enabled(s, e)
  {
    !e.AbandonRefresh? && (e.DeliverRefresh? && s.wire[e.request].answer.value.Granted? ==> e.how == Intact)
  }

  lemma ServerKeepsSafe(s: State, r: RequestId, accept: bool)
    requires Safe(s) && Enabled(s, ServerRefresh(r, accept))
    ensures Safe(ServerAnswers(s, r, accept))
  {
    var s' := ServerAnswers(s, r, accept);
    assert RequestSafe(s, r);
    forall q | q in s'.wire ensures RequestSafe(s', q) {
      assert q == r;
    }
  }

  /** A step that leaves the wire, or empties it, and stores fresh tokens or none. */
  lemma TabKeepsSafe(s: State, s': State)
    requires Safe(s)
    requires s'.rotated == s.rotated && s'.reuseDetected == s.reuseDetected && s'.nextId >= s.nextId
    requires s'.adrift == s.adrift
    requires SingleFlight(s') && s'.refreshPromise == s.refreshPromise && s'.wire == s.wire
    requires s'.stored.refresh.Some? ==>
               s'.stored.refresh == s.stored.refresh || s.nextId <= s'.stored.refresh.value < s'.nextId
    ensures Safe(s')
  {
    forall r | r in s'.wire ensures RequestSafe(s', r) {
      assert RequestSafe(s, r);
    }
  }

  lemma TryRefreshKeepsSafe(s: State)
    requires Safe(s)
    ensures Safe(TryRefresh(s))
  {
    var s' := TryRefresh(s);
    forall r | r in s'.wire ensures RequestSafe(s', r) {
      assert r in s.wire ==> RequestSafe(s, r);
    }
  }

  lemma DeliveryKeepsSafe(s: State, r: RequestId, how: Delivery)
    requires Safe(s) && Enabled(s, DeliverRefresh(r, how)) && Faithful(s, DeliverRefresh(r, how))
    ensures Safe(Step(s, DeliverRefresh(r, how)))
  {
    assert RequestSafe(s, r);
    assert Step(s, DeliverRefresh(r, how)).wire == map[];
  }

  lemma RespondKeepsSafe(s: State, i: nat, outcome: Outcome)
    requires Safe(s) && Enabled(s, Respond(i, outcome))
    ensures Safe(Responded(s, i, outcome))
  {
    var c := s.calls[i].(last := outcome);
    if outcome == Unauthorized && !c.skipRefresh && !c.phase.retried {
      var waiting := WithCall(s, i, c.(phase := AwaitRefresh));
      TabKeepsSafe(s, waiting);
      TryRefreshKeepsSafe(waiting);
    } else {
      TabKeepsSafe(s, Responded(s, i, outcome));
    }
  }

  lemma StepKeepsSafe(s: State, e: Event)
    requires Safe(s) && Enabled(s, e) && Faithful(s, e)
    ensures Safe(Step(s, e))
  {
    match e
    case Respond(i, outcome) => RespondKeepsSafe(s, i, outcome);
    case ServerRefresh(r, accept) => ServerKeepsSafe(s, r, accept);
    case DeliverRefresh(r, how) => DeliveryKeepsSafe(s, r, how);
    case AbandonRefresh(_) =>
    case ServerHandlesAdrift(_, _) =>
    case NothingToRefresh =>
      assert s.wire == map[];
    case _ => TabKeepsSafe(s, Step(s, e));
  }

  ghost predicate FaithfulRun(s: State, events: seq<Event>)
    requires Possible(s, events)
    decreases |events|
  {
    events == [] || (Faithful(s, events[0]) && FaithfulRun(Step(s, events[0]), events[1..]))
  }

  /** When no accepted refresh loses its answer, no interleaving ever makes the server see a rotated token. */
  lemma {:induction false} NoReplay(s: State, events: seq<Event>)
    requires Safe(s) && Possible(s, events) && FaithfulRun(s, events)
    ensures Safe(Run(s, events)) && !Run(s, events).reuseDetected
    decreases |events|
  {
    if events != [] {
      StepKeepsSafe(s, events[0]);
      NoReplay(Step(s, events[0]), events[1..]);
    }
  }

  /** No request is ever sent with a token the server has already rotated. */
  lemma RequestsPresentValidTokens(s: State, e: Event, r: RequestId)
    requires Safe(s) && Enabled(s, e) && r in Step(s, e).wire && r !in s.wire
    ensures Step(s, e).wire[r].token !in s.rotated && s.wire == map[]
  {
    assert e.Respond?;
    assert forall q | q in s.wire :: s.refreshPromise == Some(q);
  }

  /**
   * After an accepted refresh the tab is left holding the rotated token exactly when the answer
   * does not arrive with both tokens.
   */
  lemma RotatedTokenKeptExactlyWhenAnswerIsLost(s: State, r: RequestId, how: Delivery)
    requires Safe(s) && Enabled(s, DeliverRefresh(r, how)) && s.wire[r].answer.value.Granted?
    requires s.stored.refresh == Some(s.wire[r].token) && s.wire[r].token in s.rotated
    ensures var s' := Step(s, DeliverRefresh(r, how));
      s'.stored.refresh.Some? && s'.stored.refresh.value in s'.rotated <==> how != Intact
  {
    assert RequestSafe(s, r);
  }

  /** A tab that holds a rotated token replays it at its next refresh. */
  lemma RotatedTokenIsReplayed(s: State, accept: bool)
    requires s.refreshPromise == None && s.wire == map[]
    requires s.stored.refresh.Some? && s.stored.refresh.value in s.rotated
    ensures var s' := TryRefresh(s);
      Enabled(s', ServerRefresh(s.nextId, accept)) && ServerAnswers(s', s.nextId, accept).reuseDetected
  {
  }

  lemma {:induction false} OneMore(s: State, events: seq<Event>, e: Event)
    requires Possible(s, events) && Enabled(Run(s, events), e)
    ensures Possible(s, events + [e]) && Run(s, events + [e]) == Step(Run(s, events), e)
    decreases |events|
  {
    var all := events + [e];
    if events == [] {
      assert all[0] == e && all[1..] == [];
    } else {
      OneMore(Step(s, events[0]), events[1..], e);
      assert all[0] == events[0] && all[1..] == events[1..] + [e];
    }
  }

  /** Up to the lost answer: the tab holds the rotated token and waits for nothing. */
  lemma AnswerGetsLost(s: State) returns (events: seq<Event>)
    requires Init(s) && s.stored.refresh.Some?
    ensures Possible(s, events)
    ensures var s' := Run(s, events);
      && s'.refreshPromise == None && s'.wire == map[] && |s'.calls| == 1 && s'.nextId > s.nextId
      && s'.stored == s.stored && s.stored.refresh.value in s'.rotated
  {
    var r := s.nextId;
    events := [];
    OneMore(s, events, Fetch(false));
    events := events + [Fetch(false)];
    OneMore(s, events, Respond(0, Unauthorized));
    events := events + [Respond(0, Unauthorized)];
    OneMore(s, events, ServerRefresh(r, true));
    events := events + [ServerRefresh(r, true)];
    OneMore(s, events, DeliverRefresh(r, Failed));
    events := events + [DeliverRefresh(r, Failed)];
  }

  /** From every fresh tab with a refresh token some run makes the server see a rotated token. */
  lemma ReplayIsReachable(s: State) returns (events: seq<Event>)
    requires Init(s) && s.stored.refresh.Some?
    ensures Possible(s, events) && Run(s, events).reuseDetected
  {
    events := AnswerGetsLost(s);
    var r := Run(s, events).nextId;
    OneMore(s, events, Fetch(false));
    events := events + [Fetch(false)];
    OneMore(s, events, Respond(1, Unauthorized));
    events := events + [Respond(1, Unauthorized)];
    OneMore(s, events, ServerRefresh(r, true));
    events := events + [ServerRefresh(r, true)];
  }

  /**
   * A request the tab gave up on leaves it with a rotated token exactly when the server accepts it and
   * the tab has not got another token since.
   */
  lemma AdriftRotatesStoredExactly(s: State, token: Token, accept: bool)
    requires token in s.adrift && (s.stored.refresh.Some? ==> s.stored.refresh.value !in s.rotated)
    ensures var s' := AdriftAnswered(s, token, accept);
      s'.stored.refresh.Some? && s'.stored.refresh.value in s'.rotated <==>
      accept && token !in s.rotated && s.stored.refresh == Some(token)
  {
  }

  /** The server may still handle a request the tab gave up on, and detects a replay when its token is rotated. */
  lemma AbandonedIsStillHandled(s: State, r: RequestId, accept: bool)
    requires Enabled(s, AbandonRefresh(r))
    ensures var s', handled := Step(s, AbandonRefresh(r)), ServerHandlesAdrift(s.wire[r].token, accept);
      && Enabled(s', handled)
      && (Step(s', handled).reuseDetected <==> s.reuseDetected || s.wire[r].token in s.rotated)
  {
  }

  // ----- Every call settles -----

  function Weight(c: Call): nat {
    match c.phase
    case Sent(retried) => if retried then 1 else 9
    case AwaitRefresh => 6
    case AfterRefresh(_) => 5
    case AwaitAutoLogin => 3
    case AfterAutoLogin(_) => 2
    case Finished => 0
  }

  function TotalWeight(calls: seq<Call>): nat {
    if calls == [] then 0 else TotalWeight(calls[..|calls| - 1]) + Weight(calls[|calls| - 1])
  }

  function PromiseWeight(s: State): nat {
    (if s.refreshPromise == None then 0
     else if s.refreshPromise.value in s.wire && s.wire[s.refreshPromise.value].answer == None then 2
     else 1)
    + (if s.autoLogin then 1 else 0) + |s.adrift|
  }

  function Remaining(s: State): nat {
    TotalWeight(s.calls) + PromiseWeight(s)
  }

  /** The steps that do not come from outside: responses, answers, and resumed calls. */
  predicate Internal(e: Event) {
    !e.Fetch? && !e.MountAutoLogin? && !e.Login?
  }

  lemma {:induction false} WeightAfterUpdate(calls: seq<Call>, i: nat, c: Call)
    requires i < |calls|
    ensures TotalWeight(calls[i := c]) == TotalWeight(calls) - Weight(calls[i]) + Weight(c)
  {
    var front := calls[..|calls| - 1];
    if i < |front| {
      WeightAfterUpdate(front, i, c);
      assert calls[i := c][..|calls| - 1] == front[i := c];
    } else {
      assert calls[i := c][..|calls| - 1] == front;
    }
  }

  lemma {:induction false} WakingAddsNoWeight(calls: seq<Call>, ok: bool)
    ensures TotalWeight(WakeAfterRefresh(calls, ok)) <= TotalWeight(calls)
    ensures TotalWeight(WakeAfterAutoLogin(calls, ok)) <= TotalWeight(calls)
  {
    if calls != [] {
      var front := calls[..|calls| - 1];
      WakingAddsNoWeight(front, ok);
      assert WakeAfterRefresh(calls, ok)[..|calls| - 1] == WakeAfterRefresh(front, ok);
      assert WakeAfterAutoLogin(calls, ok)[..|calls| - 1] == WakeAfterAutoLogin(front, ok);
    }
  }

  /** A response changes one call; it ends the call, or makes it wait and starts at most one refresh. */
  lemma RespondedShape(s: State, i: nat, outcome: Outcome)
    requires SingleFlight(s) && Enabled(s, Respond(i, outcome))
    ensures var s' := Responded(s, i, outcome);
      && |s'.calls| == |s.calls| && s'.calls == s.calls[i := s'.calls[i]]
      && PromiseWeight(s') + Weight(s'.calls[i]) < PromiseWeight(s) + Weight(s.calls[i])
  {
  }

  lemma RespondSpends(s: State, i: nat, outcome: Outcome)
    requires SingleFlight(s) && Enabled(s, Respond(i, outcome))
    ensures Remaining(Responded(s, i, outcome)) < Remaining(s)
  {
    RespondedShape(s, i, outcome);
    WeightAfterUpdate(s.calls, i, Responded(s, i, outcome).calls[i]);
  }

  lemma RefreshResumeSpends(s: State, i: nat)
    requires i < |s.calls| && s.calls[i].phase.AfterRefresh?
    ensures Remaining(ResumedAfterRefresh(s, i)) < Remaining(s)
  {
    var s' := ResumedAfterRefresh(s, i);
    WeightAfterUpdate(s.calls, i, s'.calls[i]);
    assert s'.calls == s.calls[i := s'.calls[i]];
  }

  lemma AutoLoginResumeSpends(s: State, i: nat)
    requires i < |s.calls| && s.calls[i].phase.AfterAutoLogin?
    ensures Remaining(ResumedAfterAutoLogin(s, i)) < Remaining(s)
  {
    var s' := ResumedAfterAutoLogin(s, i);
    WeightAfterUpdate(s.calls, i, s'.calls[i]);
    assert s'.calls == s.calls[i := s'.calls[i]];
  }

  lemma ServerSpends(s: State, r: RequestId, accept: bool)
    requires SingleFlight(s) && r in s.wire && s.wire[r].answer == None
    ensures Remaining(ServerAnswers(s, r, accept)) < Remaining(s)
  {
    assert s.refreshPromise == Some(r);
    assert ServerAnswers(s, r, accept).calls == s.calls;
  }

  lemma AdriftSpends(s: State, token: Token, accept: bool)
    requires token in s.adrift
    ensures Remaining(AdriftAnswered(s, token, accept)) < Remaining(s)
  {
    assert |s.adrift - multiset{token}| == |s.adrift| - 1;
    assert AdriftAnswered(s, token, accept).calls == s.calls;
  }

  lemma SettlingSpends(s: State, e: Event)
    requires SingleFlight(s) && Enabled(s, e) && Settles(e)
    ensures Remaining(Step(s, e)) < Remaining(s)
  {
    SettlingWakes(s, e);
    WakingAddsNoWeight(s.calls, Arrived(Body(s, e)));
    SettlingFreesPromise(s, e);
  }

  lemma SettlingFreesPromise(s: State, e: Event)
    requires SingleFlight(s) && Enabled(s, e) && Settles(e)
    ensures PromiseWeight(Step(s, e)) < PromiseWeight(s)
  {
    if e.DeliverRefresh? || e.AbandonRefresh? {
      assert s.refreshPromise == Some(e.request);
    }
  }

  lemma StepSpends(s: State, e: Event)
    requires Orderly(s) && Enabled(s, e) && Internal(e)
    ensures Remaining(Step(s, e)) < Remaining(s)
  {
    match e
    case Respond(i, outcome) => RespondSpends(s, i, outcome);
    case ServerRefresh(r, accept) => ServerSpends(s, r, accept);
    case ServerHandlesAdrift(token, accept) => AdriftSpends(s, token, accept);
    case ResumeAfterRefresh(i) => RefreshResumeSpends(s, i);
    case ResumeAfterAutoLogin(i) => AutoLoginResumeSpends(s, i);
    case _ => SettlingSpends(s, e);
  }

  /** Without new calls or logins, only `Remaining` many steps can follow. */
  lemma {:induction false} CallsSettleInBoundedSteps(s: State, events: seq<Event>)
    requires Orderly(s) && Possible(s, events)
    requires forall i | 0 <= i < |events| :: Internal(events[i])
    ensures |events| <= Remaining(s)
    decreases |events|
  {
    if events != [] {
      StepSpends(s, events[0]);
      StepKeepsOrder(s, events[0]);
      CallsSettleInBoundedSteps(Step(s, events[0]), events[1..]);
    }
  }

  /** No call is left hanging: while one is unfinished, some step other than a new call is possible. */
  lemma UnfinishedCallCanAdvance(s: State, i: nat) returns (e: Event)
    requires Orderly(s) && i < |s.calls| && !s.calls[i].phase.Finished?
    ensures Enabled(s, e) && Internal(e)
  {
    assert CallServed(s, i);
    match s.calls[i].phase
    case Sent(_) => e := Respond(i, Success);
    case AfterRefresh(_) => e := ResumeAfterRefresh(i);
    case AfterAutoLogin(_) => e := ResumeAfterAutoLogin(i);
    case AwaitAutoLogin => e := DeliverAutoLogin(false, false);
    case AwaitRefresh =>
      var r := s.refreshPromise.value;
      if r !in s.wire {
        e := NothingToRefresh;
      } else if s.wire[r].answer == None {
        e := ServerRefresh(r, false);
      } else {
        e := DeliverRefresh(r, Intact);
      }
  }

  ghost predicate AllFinished(s: State) {
    forall i: nat | i < |s.calls| :: s.calls[i].phase.Finished?
  }

  /** From every state some bounded run of internal steps finishes all calls. */
  lemma {:induction false} CallsCanFinish(s: State) returns (events: seq<Event>)
    requires Orderly(s)
    ensures Possible(s, events) && AllFinished(Run(s, events)) && |events| <= Remaining(s)
    ensures forall i | 0 <= i < |events| :: Internal(events[i])
    decreases Remaining(s)
  {
    events := [];
    if !AllFinished(s) {
      var i: nat :| i < |s.calls| && !s.calls[i].phase.Finished?;
      var e := UnfinishedCallCanAdvance(s, i);
      StepSpends(s, e);
      StepKeepsOrder(s, e);
      var rest := CallsCanFinish(Step(s, e));
      events := [e] + rest;
      assert events[1..] == rest;
    }
  }

  lemma InitIsOrderlyAndSafe(s: State)
    requires Init(s)
    ensures Orderly(s) && Safe(s)
  {
  }

  /** The step on which call `i` ends on a 401. */
  ghost predicate EndsUnauthorized(s: State, s': State, i: nat) {
    i < |s.calls| && i < |s'.calls| && !s.calls[i].phase.Finished? && s'.calls[i].cleared
  }

  predicate CanClear(e: Event) {
    e.Respond? || e.ResumeAfterAutoLogin?
  }

  lemma ResponseClearsExactly(s: State, i: nat, outcome: Outcome)
    requires Enabled(s, Respond(i, outcome)) && s.stored != Tokens(None, None) && CallSound(s.calls[i])
    ensures var s' := Responded(s, i, outcome);
      && (s'.stored == Tokens(None, None) <==> EndsUnauthorized(s, s', i))
      && forall k: nat | k < |s.calls| && k != i :: s'.calls[k] == s.calls[k]
  {
  }

  lemma AutoLoginClearsExactly(s: State, i: nat)
    requires Enabled(s, ResumeAfterAutoLogin(i)) && s.stored != Tokens(None, None) && CallSound(s.calls[i])
    ensures var s' := ResumedAfterAutoLogin(s, i);
      && (s'.stored == Tokens(None, None) <==> EndsUnauthorized(s, s', i))
      && forall k: nat | k < |s.calls| && k != i :: s'.calls[k] == s.calls[k]
  {
  }

  lemma OthersClearNothing(s: State, e: Event, k: nat)
    requires Enabled(s, e) && !CanClear(e) && k < |s.calls|
    ensures k < |Step(s, e).calls| && Step(s, e).calls[k].cleared == s.calls[k].cleared
  {
    if Settles(e) {
      SettlingWakes(s, e);
    } else if !e.ResumeAfterRefresh? {
      CallsStay(s, e);
    }
  }

  lemma OthersKeepSession(s: State, e: Event)
    requires Enabled(s, e) && !CanClear(e) && s.stored != Tokens(None, None)
    ensures Step(s, e).stored != Tokens(None, None)
  {
    if Settles(e) {
      SettlingStores(s, e);
    }
  }

  /** The stored session is lost exactly when a call ends on a 401. */
  lemma SessionLostExactlyOnUnauthorized(s: State, e: Event)
    requires Orderly(s) && Enabled(s, e) && s.stored != Tokens(None, None)
    ensures Step(s, e).stored == Tokens(None, None) <==> exists i :: EndsUnauthorized(s, Step(s, e), i)
  {
    forall i: nat | i < |s.calls| && !s.calls[i].phase.Finished? ensures !s.calls[i].cleared {
      assert CallServed(s, i);
    }
    if CanClear(e) {
      assert CallServed(s, e.call);
      match e
      case Respond(i, outcome) => ResponseClearsExactly(s, i, outcome);
      case ResumeAfterAutoLogin(i) => AutoLoginClearsExactly(s, i);
    } else {
      OthersKeepSession(s, e);
      forall i: nat | i < |s.calls| && !s.calls[i].phase.Finished? ensures !EndsUnauthorized(s, Step(s, e), i) {
        OthersClearNothing(s, e, i);
      }
    }
  }

  // ----- The module of the tab -----

  class AdminTab {
    var tokens: Tokens
    var refreshPromise: Option<RequestId>
    var autoLoginPromise: bool
    var calls: seq<Call>
    var nextId: nat
    /** The network's and the server's side. */
    ghost var wire: map<RequestId, Request>
    ghost var adrift: multiset<Token>
    ghost var rotated: set<Token>
    ghost var reuseDetected: bool

    ghost function View(): State
      reads this
    {
      State(tokens, refreshPromise, autoLoginPromise, calls, wire, adrift, rotated, reuseDetected, nextId)
    }

    method ClearTokens()
      modifies this`tokens
      ensures View() == ClearSession(old(View()))
    {
      tokens := Tokens(None, None);
    }

    method ApplyTokens(access: Token, refresh: Option<Token>)
      modifies this`tokens
      ensures View() == StoreTokens(old(View()), access, refresh)
    {
      tokens := tokens.(access := Some(access));
      if refresh.Some? {
        tokens := tokens.(refresh := refresh);
      }
    }

    /** Starts a refresh unless one is under way. */
    method StartRefresh()
      modifies this`refreshPromise, this`wire, this`nextId
      ensures View() == TryRefresh(old(View()))
    {
      if refreshPromise == None {
        var id := nextId;
        nextId := nextId + 1;
        refreshPromise := Some(id);
        if tokens.refresh.Some? {
          wire := wire[id := Request(tokens.refresh.value, None)];
        }
      }
    }

    method ApiFetch(skipRefresh: bool) returns (i: nat)
      requires Orderly(View())
      modifies this`calls
      ensures View() == Step(old(View()), Fetch(skipRefresh)) && Orderly(View())
      ensures i == old(|calls|) && calls[..i] == old(calls)
    {
      StepKeepsOrder(View(), Fetch(skipRefresh));
      i := |calls|;
      calls := calls + [Call(skipRefresh, Sent(false), 1, Pending, false)];
    }

    /** The response to a call's own request. */
    method OnResponse(i: nat, outcome: Outcome)
      requires Orderly(View()) && Enabled(View(), Respond(i, outcome))
      modifies this
      ensures View() == Responded(old(View()), i, outcome) && Orderly(View())
    {
      StepKeepsOrder(View(), Respond(i, outcome));
      var retried := calls[i].phase.retried;
      calls := calls[i := calls[i].(last := outcome)];
      if outcome == Unauthorized && !calls[i].skipRefresh && !retried {
        calls := calls[i := calls[i].(phase := AwaitRefresh)];
        StartRefresh();
        return;
      }
      if outcome == Unauthorized {
        ClearTokens();
      }
      calls := calls[i := calls[i].(phase := Finished, cleared := outcome == Unauthorized)];
    }

    /** The answer to the refresh request `r`, as the tab reads it. */
    method OnRefreshAnswer(r: RequestId, body: Option<Tokens>, ghost how: Delivery)
      requires Orderly(View()) && Enabled(View(), DeliverRefresh(r, how))
      requires body == Observed(wire[r].answer.value, how)
      modifies this
      ensures View() == Delivered(old(View()), r, body) && Orderly(View())
    {
      StepKeepsOrder(View(), DeliverRefresh(r, how));
      wire := wire - {r};
      var refreshed := body.Some? && body.value.access.Some?;
      if refreshed {
        ApplyTokens(body.value.access.value, body.value.refresh);
      }
      refreshPromise := None;
      WakeRefreshWaiters(refreshed);
    }

    /** Resumes every call that awaits the refresh promise. */
    method WakeRefreshWaiters(refreshed: bool)
      modifies this`calls
      ensures calls == WakeAfterRefresh(old(calls), refreshed)
    {
      for i := 0 to |calls|
        invariant |calls| == |old(calls)|
        invariant forall k | 0 <= k < i :: calls[k] == WakeAfterRefresh(old(calls), refreshed)[k]
        invariant forall k | i <= k < |calls| :: calls[k] == old(calls)[k]
      {
        if calls[i].phase.AwaitRefresh? {
          calls := calls[i := calls[i].(phase := AfterRefresh(refreshed))];
        }
      }
    }

    /** A refresh whose request fails before its answer: the server may still handle it. */
    method OnRefreshGivenUp(r: RequestId)
      requires Orderly(View()) && Enabled(View(), AbandonRefresh(r))
      modifies this
      ensures View() == Abandoned(old(View()), r) && Orderly(View())
    {
      StepKeepsOrder(View(), AbandonRefresh(r));
      adrift := adrift + multiset{wire[r].token};
      wire := wire - {r};
      refreshPromise := None;
      WakeRefreshWaiters(false);
    }

    /** A refresh that finds no stored refresh token fails without a request. */
    method OnNothingToRefresh()
      requires Orderly(View()) && Enabled(View(), NothingToRefresh)
      modifies this
      ensures View() == SettleRefresh(old(View()), false) && Orderly(View())
    {
      StepKeepsOrder(View(), NothingToRefresh);
      refreshPromise := None;
      WakeRefreshWaiters(false);
    }

    /** The answer to the auto-login, as the tab reads it. */
    method OnAutoLoginAnswer(body: Option<Tokens>)
      requires Orderly(View()) && autoLoginPromise
      modifies this
      ensures View() == AutoLoginDelivered(old(View()), body) && Orderly(View())
    {
      AutoLoginKeepsOrder(View(), body);
      var loggedIn := body.Some? && body.value.access.Some?;
      if loggedIn {
        ApplyTokens(body.value.access.value, body.value.refresh);
      }
      autoLoginPromise := false;
      for i := 0 to |calls|
        invariant View() == old(AutoLoginDelivered(View(), body)).(calls := calls)
        invariant |calls| == |old(calls)|
        invariant forall k | 0 <= k < i :: calls[k] == WakeAfterAutoLogin(old(calls), loggedIn)[k]
        invariant forall k | i <= k < |calls| :: calls[k] == old(calls)[k]
      {
        if calls[i].phase.AwaitAutoLogin? {
          calls := calls[i := calls[i].(phase := AfterAutoLogin(loggedIn))];
        }
      }
    }

    /** A call continues after its refresh settled. */
    method ContinueAfterRefresh(i: nat)
      requires Orderly(View()) && Enabled(View(), ResumeAfterRefresh(i))
      modifies this
      ensures View() == ResumedAfterRefresh(old(View()), i) && Orderly(View())
      ensures old(calls[i].phase.refreshed) ==>
                calls[i].phase == Sent(true) && calls[i].sends == old(calls[i].sends) + 1
      ensures !old(calls[i].phase.refreshed) ==>
                calls[i].phase == AwaitAutoLogin && calls[i].sends == old(calls[i].sends) && autoLoginPromise
    {
      StepKeepsOrder(View(), ResumeAfterRefresh(i));
      if calls[i].phase.refreshed {
        calls := calls[i := calls[i].(phase := Sent(true), sends := calls[i].sends + 1, last := Pending)];
      } else {
        calls := calls[i := calls[i].(phase := AwaitAutoLogin)];
        autoLoginPromise := true;
      }
    }

    /** A call continues after the auto-login settled. */
    method ContinueAfterAutoLogin(i: nat)
      requires Orderly(View()) && Enabled(View(), ResumeAfterAutoLogin(i))
      modifies this
      ensures View() == ResumedAfterAutoLogin(old(View()), i) && Orderly(View())
      ensures old(calls[i].phase.loggedIn) ==> calls[i].phase == Sent(true) && tokens == old(tokens)
      ensures !old(calls[i].phase.loggedIn) ==> calls[i].phase.Finished? && tokens == Tokens(None, None)
    {
      StepKeepsOrder(View(), ResumeAfterAutoLogin(i));
      if calls[i].phase.loggedIn {
        calls := calls[i := calls[i].(phase := Sent(true), sends := calls[i].sends + 1, last := Pending)];
      } else {
        ClearTokens();
        calls := calls[i := calls[i].(phase := Finished, cleared := true)];
      }
    }
  }
}
