/** One rotating OAuth credential: when it is refreshed, how a refresh is merged, and what is loaded at start. */
module Credentials {
  import opened Wrappers

  const PROACTIVE_REFRESH_WINDOW := 5 * 60
  const OPAQUE_TOKEN_REFRESH_AGE := 8 * 24 * 60 * 60

  datatype Credential = Credential(accountId: string, accessToken: string, refreshToken: string,
    accessExpiresAt: Option<int>, lastRefresh: int)

  datatype Snapshot = Snapshot(accessToken: string, accountId: string, generation: nat)

  datatype Error = OauthRequest | OauthRejected(status: nat) | OauthResponse | InvalidOauthResponse | StoreFailed

  type Outcome = Result<Snapshot, Error>

  datatype Reason = Proactive | Unauthorized

  /** The account is the nonempty one the identity token names, when it carries one. */
  datatype RefreshResponse = RefreshResponse(account: Option<string>, accessToken: Option<string>,
    refreshToken: Option<string>)

  /** Blankness, the expiry an access token carries and header validity are opaque here. */
  datatype Tokens = Tokens(blank: string -> bool, expiry: string -> Option<int>, headersValid: (string, string) -> bool)

  function SnapshotOf(credential: Credential, generation: nat): Snapshot {
    Snapshot(credential.accessToken, credential.accountId, generation)
  }

  predicate NeedsRefresh(credential: Credential, now: int) {
    match credential.accessExpiresAt
    case Some(expiresAt) => expiresAt <= now + PROACTIVE_REFRESH_WINDOW
    case None => credential.lastRefresh < now - OPAQUE_TOKEN_REFRESH_AGE
  }

  /** Good for more than five minutes yet, or, without an expiry, refreshed within the last eight days. */
  predicate GoodAt(credential: Credential, now: int) {
    match credential.accessExpiresAt
    case Some(expiresAt) => now + 300 < expiresAt
    case None => now - 691200 <= credential.lastRefresh
  }

  lemma GoodNeedsNoRefresh(credential: Credential, now: int)
    ensures NeedsRefresh(credential, now) <==> !GoodAt(credential, now)
  {
  }

  predicate Retryable(outcome: Outcome) {
    outcome.Failure? && outcome.error.OauthRejected? && 500 <= outcome.error.status <= 599
  }

  /** What every credential in use satisfies: usable tokens, and the expiry its own access token carries. */
  predicate WellFormed(tokens: Tokens, credential: Credential) {
    && !tokens.blank(credential.accessToken) && !tokens.blank(credential.refreshToken)
    && tokens.headersValid(credential.accessToken, credential.accountId)
    && credential.accessExpiresAt == tokens.expiry(credential.accessToken)
  }

  predicate PresentAndBlank(tokens: Tokens, value: Option<string>) { value.Some? && tokens.blank(value.value) }

  function Merged(tokens: Tokens, current: Credential, response: RefreshResponse, now: int)
    : (r: Result<Credential, Error>)
    // What the response leaves out stays, whatever it sends takes its place, and the result is usable again.
    ensures r.Success? && WellFormed(tokens, current) ==> WellFormed(tokens, r.value)
    ensures r.Success? ==>
      && r.value.accountId == response.account.GetOr(current.accountId)
      && r.value.accessToken == response.accessToken.GetOr(current.accessToken)
      && r.value.refreshToken == response.refreshToken.GetOr(current.refreshToken)
      && r.value.accessExpiresAt == tokens.expiry(r.value.accessToken) && r.value.lastRefresh == now
    ensures r.Failure? <==>
      || PresentAndBlank(tokens, response.accessToken) || PresentAndBlank(tokens, response.refreshToken)
      || !tokens.headersValid(response.accessToken.GetOr(current.accessToken),
        response.account.GetOr(current.accountId))
    ensures r.Failure? ==> r.error == InvalidOauthResponse
  {
    var accountId := response.account.GetOr(current.accountId);
    if PresentAndBlank(tokens, response.accessToken) then Failure(InvalidOauthResponse)
    else
      var accessToken := response.accessToken.GetOr(current.accessToken);
      if PresentAndBlank(tokens, response.refreshToken) then Failure(InvalidOauthResponse)
      else
        var refreshToken := response.refreshToken.GetOr(current.refreshToken);
        if !tokens.headersValid(accessToken, accountId) then Failure(InvalidOauthResponse)
        else Success(Credential(accountId, accessToken, refreshToken, tokens.expiry(accessToken), now))
  }

  /** The stored credential wins unless the seed is strictly newer. */
  function LoadOrImport(stored: Option<Credential>, seed: Credential): Credential {
    if stored.None? || seed.lastRefresh > stored.value.lastRefresh then seed else stored.value
  }
}

/** Callers, the flight slot, the detached refresh tasks, the store and restarts, as interleaved steps. */
module CredentialRefresh {
  import opened Wrappers
  import opened Credentials

  /** A task that is saving or has saved holds the state's write lock until it publishes. */
  datatype Phase =
    | Spawned
    | Holding(token: string)
    | Exchanging
    | Answered(response: RefreshResponse)
    | Saving(updated: Credential)
    | Saved(updated: Credential)
    | Done(outcome: Outcome)
    | Cleared(outcome: Outcome)
    | Published(outcome: Outcome)

  datatype Task = Task(generation: nat, exchange: Option<nat>, phase: Phase)
  datatype Flight = Flight(generation: nat, task: nat)
  datatype Answer = Pending | Answer(status: nat) | NoAnswer
  /** One refresh token as the authorization server is shown it. */
  datatype Exchange = Exchange(generation: nat, token: string, answer: Answer)
  /** A caller that found the credential good is released, and takes its snapshot some time later. */
  datatype Status = Released | Waiting(task: nat) | Returned(outcome: Outcome)
  datatype Caller = Caller(expected: nat, reason: Reason, at: nat, now: int, status: Status)

  /**
   * `exchanges`, `published`, `callers` and `saves` record what happened; only `saves` and `store` outlive the
   * process.
   */
  datatype State = State(credential: Credential, generation: nat, flight: Option<Flight>, tasks: seq<Task>,
    store: Option<Credential>, callers: seq<Caller>, exchanges: seq<Exchange>, published: seq<Credential>,
    saves: seq<Credential>)

  datatype Reply = NoReply | Status(status: nat, body: Option<RefreshResponse>)

  datatype Action =
    | Glance(now: int)
    | Take(caller: nat)
    | Call(expected: nat, reason: Reason, now: int)
    | ReadToken(task: nat)
    | Present(task: nat)
    | Receive(task: nat, reply: Reply)
    | Merge(task: nat, now: int)
    | Save(task: nat, ok: bool)
    | Publish(task: nat)
    | Clear(task: nat)
    | Announce(task: nat)
    | Collect(caller: nat)
    | Restart(seed: Credential)

  predicate Locks(task: Task) { task.phase.Saving? || task.phase.Saved? }

  predicate Unlocked(s: State) { forall t | 0 <= t < |s.tasks| :: !Locks(s.tasks[t]) }

  function Current(s: State): Snapshot { SnapshotOf(s.credential, s.generation) }

  function Moved(s: State, t: nat, phase: Phase): State
    requires t < |s.tasks|
  {
    s.(tasks := s.tasks[t := s.tasks[t].(phase := phase)])
  }

  function Started(store: Option<Credential>, saves: seq<Credential>, seed: Credential): State {
    var credential := LoadOrImport(store, seed);
    State(credential, 0, None, [], Some(credential), [], [], [credential],
          if store == Some(credential) then saves else saves + [credential])
  }

  /**
   * Returns at once when the generation has moved on or a proactive refresh has become needless; else joins or
   * starts a flight.
   */
  function Called(s: State, expected: nat, reason: Reason, now: int): State {
    if s.generation != expected || (reason == Proactive && !NeedsRefresh(s.credential, now)) then
      s.(callers := s.callers + [Caller(expected, reason, s.generation, now, Returned(Success(Current(s))))])
    else if s.flight.Some? && s.flight.value.generation == expected then
      s.(callers := s.callers + [Caller(expected, reason, s.generation, now, Waiting(s.flight.value.task))])
    else
      s.(flight := Some(Flight(expected, |s.tasks|)), tasks := s.tasks + [Task(expected, None, Spawned)],
         callers := s.callers + [Caller(expected, reason, s.generation, now, Waiting(|s.tasks|))])
  }

  /** A credential that needs no refresh releases its caller. */
  function Glanced(s: State, now: int): State {
    s.(callers := s.callers + [Caller(s.generation, Proactive, s.generation, now, Released)])
  }

  /** A released caller takes whatever is current by then. */
  function Taken(s: State, c: nat): State
    requires c < |s.callers|
  {
    s.(callers := s.callers[c := s.callers[c].(status := Returned(Success(Current(s))))])
  }

  function Outdated(s: State, t: nat): State
    requires t < |s.tasks|
  {
    Moved(s, t, Done(Success(Current(s))))
  }

  function Received(s: State, t: nat, reply: Reply): State
    requires t < |s.tasks| && s.tasks[t].exchange.Some? && s.tasks[t].exchange.value < |s.exchanges|
  {
    var i := s.tasks[t].exchange.value;
    var answer := if reply.Status? then Answer(reply.status) else NoAnswer;
    var phase := match reply
      case NoReply => Done(Failure(OauthRequest))
      case Status(status, body) =>
        if !(200 <= status <= 299) then Done(Failure(OauthRejected(status)))
        else if body.None? then Done(Failure(OauthResponse))
        else Answered(body.value);
    Moved(s, t, phase).(exchanges := s.exchanges[i := s.exchanges[i].(answer := answer)])
  }

  function MergedTask(tokens: Tokens, s: State, t: nat, now: int): State
    requires t < |s.tasks| && s.tasks[t].phase.Answered?
  {
    if s.generation != s.tasks[t].generation then Outdated(s, t)
    else match Merged(tokens, s.credential, s.tasks[t].phase.response, now)
      case Success(updated) => Moved(s, t, Saving(updated))
      case Failure(error) => Moved(s, t, Done(Failure(error)))
  }

  function SavedTask(s: State, t: nat, ok: bool): State
    requires t < |s.tasks| && s.tasks[t].phase.Saving?
  {
    var updated := s.tasks[t].phase.updated;
    if ok && s.store.Some? then Moved(s, t, Saved(updated)).(store := Some(updated), saves := s.saves + [updated])
    else Moved(s, t, Done(Failure(StoreFailed)))
  }

  function PublishedTask(s: State, t: nat): State
    requires t < |s.tasks| && s.tasks[t].phase.Saved?
  {
    var updated := s.tasks[t].phase.updated;
    Moved(s, t, Done(Success(SnapshotOf(updated, s.generation + 1)))).(
      credential := updated, generation := s.generation + 1, published := s.published + [updated])
  }

  function ClearedTask(s: State, t: nat): State
    requires t < |s.tasks| && s.tasks[t].phase.Done?
  {
    Moved(s, t, Cleared(s.tasks[t].phase.outcome)).(
      flight := if s.flight.Some? && s.flight.value.generation == s.tasks[t].generation then None else s.flight)
  }

  predicate Step(tokens: Tokens, s: State, action: Action, r: State) {
    match action
    case Glance(now) => Unlocked(s) && !NeedsRefresh(s.credential, now) && r == Glanced(s, now)
    case Take(c) => Unlocked(s) && c < |s.callers| && s.callers[c].status.Released? && r == Taken(s, c)
    case Call(expected, reason, now) => Unlocked(s) && r == Called(s, expected, reason, now)
    case ReadToken(t) =>
      && t < |s.tasks| && s.tasks[t].phase.Spawned? && Unlocked(s)
      && r == if s.generation != s.tasks[t].generation then Outdated(s, t)
        else Moved(s, t, Holding(s.credential.refreshToken))
    case Present(t) =>
      && t < |s.tasks| && s.tasks[t].phase.Holding?
      && var task := s.tasks[t];
         r == s.(tasks := s.tasks[t := Task(task.generation, Some(|s.exchanges|), Exchanging)],
                 exchanges := s.exchanges + [Exchange(task.generation, task.phase.token, Pending)])
    case Receive(t, reply) =>
      && t < |s.tasks| && s.tasks[t].phase.Exchanging?
      && s.tasks[t].exchange.Some? && s.tasks[t].exchange.value < |s.exchanges|
      && r == Received(s, t, reply)
    case Merge(t, now) =>
      t < |s.tasks| && s.tasks[t].phase.Answered? && Unlocked(s) && r == MergedTask(tokens, s, t, now)
    case Save(t, ok) =>
      t < |s.tasks| && s.tasks[t].phase.Saving? && r == SavedTask(s, t, ok)
    case Publish(t) =>
      t < |s.tasks| && s.tasks[t].phase.Saved? && r == PublishedTask(s, t)
    case Clear(t) =>
      t < |s.tasks| && s.tasks[t].phase.Done? && Retryable(s.tasks[t].phase.outcome) && r == ClearedTask(s, t)
    case Announce(t) =>
      && t < |s.tasks|
      && ((s.tasks[t].phase.Done? && !Retryable(s.tasks[t].phase.outcome)) || s.tasks[t].phase.Cleared?)
      && r == Moved(s, t, Published(s.tasks[t].phase.outcome))
    case Collect(c) =>
      && c < |s.callers| && s.callers[c].status.Waiting?
      && s.callers[c].status.task < |s.tasks| && s.tasks[s.callers[c].status.task].phase.Published?
      && var outcome := s.tasks[s.callers[c].status.task].phase.outcome;
         r == s.(callers := s.callers[c := s.callers[c].(status := Returned(outcome))])
    case Restart(seed) => WellFormed(tokens, seed) && r == Started(s.store, s.saves, seed)
  }

  ghost predicate Init(tokens: Tokens, s: State) {
    exists seed :: WellFormed(tokens, seed) && s == Started(None, [], seed)
  }

  ghost predicate Run(tokens: Tokens, states: seq<State>, actions: seq<Action>) {
    && |states| == |actions| + 1 && Init(tokens, states[0])
    && forall i | 0 <= i < |actions| :: Step(tokens, states[i], actions[i], states[i + 1])
  }

  // ----- the invariant -----

  predicate Active(task: Task) { !task.phase.Done? && !task.phase.Cleared? && !task.phase.Published? }

  /** A task whose 5xx has been cleared from the flight slot. */
  predicate Spent(task: Task) { task.phase.Cleared? || (task.phase.Published? && Retryable(task.phase.outcome)) }

  predicate Flies(s: State, t: nat) { s.flight == Some(Flight(s.generation, t)) }

  predicate Rejected5xx(answer: Answer) { answer.Answer? && 500 <= answer.status <= 599 }

  function OutcomeOf(task: Task): (r: Option<Outcome>) {
    if task.phase.Done? || task.phase.Cleared? || task.phase.Published? then Some(task.phase.outcome) else None
  }

  predicate TaskOk(tokens: Tokens, s: State, t: nat)
    requires t < |s.tasks|
  {
    var task := s.tasks[t];
    && task.generation <= s.generation
    && (Active(task) ==> task.generation == s.generation)
    && (task.generation == s.generation && !Spent(task) ==> Flies(s, t))
    && (task.exchange.Some? ==>
      task.exchange.value < |s.exchanges| && s.exchanges[task.exchange.value].generation == task.generation)
    && match task.phase
       case Spawned => task.exchange.None?
       case Holding(token) => task.exchange.None? && token == s.credential.refreshToken
       case Exchanging => task.exchange.Some? && s.exchanges[task.exchange.value].answer == Pending
       case Answered(_) => task.exchange.Some? && s.exchanges[task.exchange.value].answer != Pending
       case Saving(updated) => task.exchange.Some? && s.exchanges[task.exchange.value].answer != Pending
         && WellFormed(tokens, updated)
       case Saved(updated) =>
         && task.exchange.Some? && s.exchanges[task.exchange.value].answer != Pending
         && WellFormed(tokens, updated) && s.store == Some(updated)
       case _ => OutcomeOk(s, task, task.phase.outcome)
  }

  predicate OutcomeOk(s: State, task: Task, outcome: Outcome)
    requires task.exchange.Some? ==> task.exchange.value < |s.exchanges|
  {
    && task.exchange.Some? && s.exchanges[task.exchange.value].answer != Pending
    && (outcome.Success? ==>
          && task.generation + 1 <= s.generation && task.generation + 1 < |s.published|
          && outcome.value == SnapshotOf(s.published[task.generation + 1], task.generation + 1))
    && (outcome.Failure? && !Retryable(outcome) ==> task.generation == s.generation)
    && (Retryable(outcome) ==> Rejected5xx(s.exchanges[task.exchange.value].answer))
    && (Retryable(outcome) && task.phase.Done? ==> task.generation == s.generation)
    && (task.phase.Cleared? ==> Retryable(outcome))
  }

  predicate ExchangeOk(s: State, i: nat)
    requires i < |s.exchanges|
  {
    var exchange := s.exchanges[i];
    && exchange.generation <= s.generation && exchange.generation < |s.published|
    && exchange.token == s.published[exchange.generation].refreshToken
    && (exchange.answer == Pending ==> exchange.generation == s.generation)
    && (exchange.generation == s.generation && !Rejected5xx(exchange.answer) ==>
          && s.flight.Some? && s.flight.value.task < |s.tasks| && s.flight.value.generation == s.generation
          && s.tasks[s.flight.value.task].exchange == Some(i))
    && (exchange.answer == Pending ==>
      s.flight.Some? && s.flight.value.task < |s.tasks| && s.tasks[s.flight.value.task].phase.Exchanging?)
  }

  /** At one generation, every exchange but the last was answered with a 5xx. */
  predicate EarlierRejected(s: State) {
    forall i, j | 0 <= i < j < |s.exchanges| && s.exchanges[i].generation == s.exchanges[j].generation ::
      Rejected5xx(s.exchanges[i].answer)
  }

  predicate CallerOk(s: State, c: Caller) {
    && c.at <= s.generation
    && match c.status
       case Released =>
         c.reason == Proactive && c.expected == c.at && c.at < |s.published| && GoodAt(s.published[c.at], c.now)
       case Waiting(t) => t < |s.tasks| && s.tasks[t].generation == c.expected == c.at
       case Returned(outcome) =>
         outcome.Success? ==>
           && outcome.value.generation <= s.generation && outcome.value.generation < |s.published|
           && outcome.value == SnapshotOf(s.published[outcome.value.generation], outcome.value.generation)
           && (c.reason == Unauthorized ==>
                 outcome.value.generation == if c.at == c.expected then c.expected + 1 else c.at)
           && (c.reason == Proactive && outcome.value.generation == c.expected ==>
             GoodAt(s.published[c.expected], c.now))
  }

  /** Memory and store agree except between a save and its publication. */
  predicate StoreOk(s: State) {
    && (Settled(s) ==> s.store == Some(s.credential))
    && s.store.Some? && s.saves != [] && s.store.value == s.saves[|s.saves| - 1]
  }

  predicate Settled(s: State) { forall t | 0 <= t < |s.tasks| :: !s.tasks[t].phase.Saved? }

  predicate Inv(tokens: Tokens, s: State) {
    && |s.published| == s.generation + 1 && s.credential == s.published[s.generation]
      && WellFormed(tokens, s.credential)
    && (s.flight.Some? ==>
      s.flight.value.task < |s.tasks| && s.tasks[s.flight.value.task].generation == s.flight.value.generation)
    && (forall t | 0 <= t < |s.tasks| :: TaskOk(tokens, s, t))
    && (forall i | 0 <= i < |s.exchanges| :: ExchangeOk(s, i))
    && EarlierRejected(s)
    && (forall c | 0 <= c < |s.callers| :: CallerOk(s, s.callers[c]))
    && StoreOk(s) && (s.store.Some? ==> WellFormed(tokens, s.store.value))
  }

  lemma StartedIsOk(tokens: Tokens, store: Option<Credential>, saves: seq<Credential>, seed: Credential)
    requires WellFormed(tokens, seed)
    requires store.Some? ==> WellFormed(tokens, store.value) && saves != [] && store.value == saves[|saves| - 1]
    ensures Inv(tokens, Started(store, saves, seed))
  {
  }

  lemma CallKeeps(tokens: Tokens, s: State, expected: nat, reason: Reason, now: int)
    requires Inv(tokens, s)
    ensures Inv(tokens, Called(s, expected, reason, now))
  {
    GoodNeedsNoRefresh(s.credential, now);
    hide WellFormed, NeedsRefresh, GoodAt;
    var r := Called(s, expected, reason, now);
    assert forall t | 0 <= t < |s.tasks| :: r.tasks[t] == s.tasks[t];
    forall t | 0 <= t < |r.tasks| ensures TaskOk(tokens, r, t) {
      if t < |s.tasks| { assert TaskOk(tokens, s, t); }
    }
    forall i | 0 <= i < |r.exchanges| ensures ExchangeOk(r, i) { assert ExchangeOk(s, i); }
    forall c | 0 <= c < |r.callers| ensures CallerOk(r, r.callers[c]) {
      if c < |s.callers| { assert CallerOk(s, s.callers[c]); }
    }
  }

  lemma AnsweredIsCurrent(tokens: Tokens, s: State, t: nat)
    requires Inv(tokens, s) && t < |s.tasks| && s.tasks[t].phase.Answered?
    ensures s.tasks[t].generation == s.generation && s.store.Some?
  {
    assert TaskOk(tokens, s, t);
  }

  lemma GlanceKeeps(tokens: Tokens, s: State, now: int)
    requires Inv(tokens, s) && !NeedsRefresh(s.credential, now)
    ensures Inv(tokens, Glanced(s, now))
  {
    GoodNeedsNoRefresh(s.credential, now);
    hide WellFormed, NeedsRefresh, GoodAt;
    var r := Glanced(s, now);
    forall t | 0 <= t < |r.tasks| ensures TaskOk(tokens, r, t) { assert TaskOk(tokens, s, t); }
    forall i | 0 <= i < |r.exchanges| ensures ExchangeOk(r, i) { assert ExchangeOk(s, i); }
    forall c | 0 <= c < |r.callers| ensures CallerOk(r, r.callers[c]) {
      if c < |s.callers| { assert CallerOk(s, s.callers[c]); }
    }
  }

  lemma TakeKeeps(tokens: Tokens, s: State, c: nat)
    requires Inv(tokens, s) && c < |s.callers| && s.callers[c].status.Released?
    ensures Inv(tokens, Taken(s, c))
  {
    hide WellFormed, NeedsRefresh, GoodAt;
    var r := Taken(s, c);
    forall t | 0 <= t < |r.tasks| ensures TaskOk(tokens, r, t) { assert TaskOk(tokens, s, t); }
    forall i | 0 <= i < |r.exchanges| ensures ExchangeOk(r, i) { assert ExchangeOk(s, i); }
    forall d | 0 <= d < |r.callers| ensures CallerOk(r, r.callers[d]) { assert CallerOk(s, s.callers[d]); }
  }

  /** A task that keeps its exchange and neither leaves the wire nor saves moves alone. */
  lemma MovedKeeps(tokens: Tokens, s: State, t: nat, phase: Phase)
    requires Inv(tokens, s) && t < |s.tasks| && !s.tasks[t].phase.Exchanging? && !s.tasks[t].phase.Saved?
      && !phase.Saved?
    requires TaskOk(tokens, Moved(s, t, phase), t)
    ensures Inv(tokens, Moved(s, t, phase))
  {
    hide WellFormed;
    var r := Moved(s, t, phase);
    assert forall u | 0 <= u < |s.tasks| && u != t :: r.tasks[u] == s.tasks[u];
    forall u | 0 <= u < |r.tasks| ensures TaskOk(tokens, r, u) {
      if u != t { assert TaskOk(tokens, s, u); }
    }
    forall i | 0 <= i < |r.exchanges| ensures ExchangeOk(r, i) { assert ExchangeOk(s, i); }
    forall c | 0 <= c < |r.callers| ensures CallerOk(r, r.callers[c]) { assert CallerOk(s, s.callers[c]); }
    assert Settled(r) ==> Settled(s);
  }

  lemma ReadTokenKeeps(tokens: Tokens, s: State, t: nat, r: State)
    requires Inv(tokens, s) && Step(tokens, s, ReadToken(t), r)
    ensures Inv(tokens, r)
  {
    hide WellFormed;
    assert TaskOk(tokens, s, t);
    MovedKeeps(tokens, s, t, Holding(s.credential.refreshToken));
  }

  lemma PresentKeeps(tokens: Tokens, s: State, t: nat, r: State)
    requires Inv(tokens, s) && Step(tokens, s, Present(t), r)
    ensures Inv(tokens, r)
  {
    hide WellFormed;
    assert TaskOk(tokens, s, t) && Flies(s, t);
    assert forall u | 0 <= u < |s.tasks| && u != t :: r.tasks[u] == s.tasks[u];
    forall u | 0 <= u < |r.tasks| ensures TaskOk(tokens, r, u) { assert TaskOk(tokens, s, u); }
    assert forall i | 0 <= i < |s.exchanges| :: r.exchanges[i] == s.exchanges[i];
    forall i | 0 <= i < |s.exchanges| ensures s.exchanges[i].generation == s.generation ==>
      Rejected5xx(s.exchanges[i].answer) {
      assert ExchangeOk(s, i);
    }
    forall i | 0 <= i < |r.exchanges| ensures ExchangeOk(r, i) {
      if i < |s.exchanges| { assert ExchangeOk(s, i); }
    }
    forall c | 0 <= c < |r.callers| ensures CallerOk(r, r.callers[c]) { assert CallerOk(s, s.callers[c]); }
    assert Settled(r) ==> Settled(s);
    assert EarlierRejected(r);
  }

  lemma ReceiveKeeps(tokens: Tokens, s: State, t: nat, reply: Reply, r: State)
    requires Inv(tokens, s) && Step(tokens, s, Receive(t, reply), r)
    ensures Inv(tokens, r)
  {
    hide WellFormed;
    var n := s.tasks[t].exchange.value;
    assert TaskOk(tokens, s, t) && ExchangeOk(s, n);
    assert forall u | 0 <= u < |s.tasks| && u != t :: r.tasks[u] == s.tasks[u];
    assert forall i | 0 <= i < |s.exchanges| && i != n :: r.exchanges[i] == s.exchanges[i];
    forall u | 0 <= u < |r.tasks| ensures TaskOk(tokens, r, u) { assert TaskOk(tokens, s, u); }
    forall i | 0 <= i < |r.exchanges| ensures ExchangeOk(r, i) { assert ExchangeOk(s, i); }
    forall c | 0 <= c < |r.callers| ensures CallerOk(r, r.callers[c]) { assert CallerOk(s, s.callers[c]); }
  }

  lemma MergeKeeps(tokens: Tokens, s: State, t: nat, now: int, r: State)
    requires Inv(tokens, s) && Step(tokens, s, Merge(t, now), r)
    ensures Inv(tokens, r)
  {
    assert TaskOk(tokens, s, t);
    var merged := Merged(tokens, s.credential, s.tasks[t].phase.response, now);
    hide WellFormed, Merged;
    MovedKeeps(tokens, s, t, if merged.Success? then Saving(merged.value) else Done(Failure(merged.error)));
  }

  lemma SaveKeeps(tokens: Tokens, s: State, t: nat, ok: bool, r: State)
    requires Inv(tokens, s) && Step(tokens, s, Save(t, ok), r)
    ensures Inv(tokens, r)
  {
    hide WellFormed;
    assert TaskOk(tokens, s, t);
    if ok {
      assert forall u | 0 <= u < |s.tasks| && u != t :: r.tasks[u] == s.tasks[u];
      assert r.tasks[t].phase.Saved?;
      forall u | 0 <= u < |r.tasks| ensures TaskOk(tokens, r, u) { assert TaskOk(tokens, s, u); }
      forall i | 0 <= i < |r.exchanges| ensures ExchangeOk(r, i) { assert ExchangeOk(s, i); }
      forall c | 0 <= c < |r.callers| ensures CallerOk(r, r.callers[c]) { assert CallerOk(s, s.callers[c]); }
    } else {
      MovedKeeps(tokens, s, t, Done(Failure(StoreFailed)));
    }
  }

  lemma PublishKeeps(tokens: Tokens, s: State, t: nat, r: State)
    requires Inv(tokens, s) && Step(tokens, s, Publish(t), r)
    ensures Inv(tokens, r)
  {
    hide WellFormed;
    assert TaskOk(tokens, s, t);
    assert forall u | 0 <= u < |s.tasks| && u != t :: r.tasks[u] == s.tasks[u];
    assert forall g | 0 <= g < |s.published| :: r.published[g] == s.published[g];
    forall u | 0 <= u < |r.tasks| ensures TaskOk(tokens, r, u) { assert TaskOk(tokens, s, u); }
    forall i | 0 <= i < |r.exchanges| ensures ExchangeOk(r, i) { assert ExchangeOk(s, i); }
    forall c | 0 <= c < |r.callers| ensures CallerOk(r, r.callers[c]) { assert CallerOk(s, s.callers[c]); }
  }

  lemma ClearKeeps(tokens: Tokens, s: State, t: nat, r: State)
    requires Inv(tokens, s) && Step(tokens, s, Clear(t), r)
    ensures Inv(tokens, r)
  {
    hide WellFormed;
    assert TaskOk(tokens, s, t);
    assert forall u | 0 <= u < |s.tasks| && u != t :: r.tasks[u] == s.tasks[u];
    forall u | 0 <= u < |r.tasks| ensures TaskOk(tokens, r, u) { assert TaskOk(tokens, s, u); }
    forall i | 0 <= i < |r.exchanges| ensures ExchangeOk(r, i) { assert ExchangeOk(s, i); }
    forall c | 0 <= c < |r.callers| ensures CallerOk(r, r.callers[c]) { assert CallerOk(s, s.callers[c]); }
    assert Settled(r) ==> Settled(s);
  }

  lemma AnnounceKeeps(tokens: Tokens, s: State, t: nat, r: State)
    requires Inv(tokens, s) && Step(tokens, s, Announce(t), r)
    ensures Inv(tokens, r)
  {
    hide WellFormed;
    assert TaskOk(tokens, s, t);
    MovedKeeps(tokens, s, t, Published(s.tasks[t].phase.outcome));
  }

  lemma CollectKeeps(tokens: Tokens, s: State, c: nat, r: State)
    requires Inv(tokens, s) && Step(tokens, s, Collect(c), r)
    ensures Inv(tokens, r)
  {
    hide WellFormed;
    assert CallerOk(s, s.callers[c]) && TaskOk(tokens, s, s.callers[c].status.task);
    forall u | 0 <= u < |r.tasks| ensures TaskOk(tokens, r, u) { assert TaskOk(tokens, s, u); }
    forall i | 0 <= i < |r.exchanges| ensures ExchangeOk(r, i) { assert ExchangeOk(s, i); }
    forall d | 0 <= d < |r.callers| ensures CallerOk(r, r.callers[d]) { assert CallerOk(s, s.callers[d]); }
  }

  lemma StepKeeps(tokens: Tokens, s: State, action: Action, r: State)
    requires Inv(tokens, s) && Step(tokens, s, action, r)
    ensures Inv(tokens, r)
  {
    match action
    case Glance(now) => GlanceKeeps(tokens, s, now);
    case Take(c) => TakeKeeps(tokens, s, c);
    case Call(expected, reason, now) => CallKeeps(tokens, s, expected, reason, now);
    case ReadToken(t) => ReadTokenKeeps(tokens, s, t, r);
    case Present(t) => PresentKeeps(tokens, s, t, r);
    case Receive(t, reply) => ReceiveKeeps(tokens, s, t, reply, r);
    case Merge(t, now) => MergeKeeps(tokens, s, t, now, r);
    case Save(t, ok) => SaveKeeps(tokens, s, t, ok, r);
    case Publish(t) => PublishKeeps(tokens, s, t, r);
    case Clear(t) => ClearKeeps(tokens, s, t, r);
    case Announce(t) => AnnounceKeeps(tokens, s, t, r);
    case Collect(c) => CollectKeeps(tokens, s, c, r);
    case Restart(seed) => StartedIsOk(tokens, s.store, s.saves, seed);
  }

  lemma {:induction false} RunsKeepTheInvariant(tokens: Tokens, states: seq<State>, actions: seq<Action>, i: nat)
    requires Run(tokens, states, actions) && i < |states|
    ensures Inv(tokens, states[i])
  {
    hide Inv, Step;
    if i == 0 {
      var seed :| WellFormed(tokens, seed) && states[0] == Started(None, [], seed);
      StartedIsOk(tokens, None, [], seed);
    } else {
      RunsKeepTheInvariant(tokens, states, actions, i - 1);
      assert Step(tokens, states[i - 1], actions[i - 1], states[i - 1 + 1]);
      StepKeeps(tokens, states[i - 1], actions[i - 1], states[i]);
    }
  }

  // ----- what every run keeps -----

  /** However callers interleave, at most one exchange is on the wire. */
  lemma OneExchangeAtATime(tokens: Tokens, states: seq<State>, actions: seq<Action>, i: nat, p: nat, q: nat)
    requires Run(tokens, states, actions) && i < |states|
    requires p < |states[i].exchanges| && q < |states[i].exchanges|
    requires states[i].exchanges[p].answer == Pending && states[i].exchanges[q].answer == Pending
    ensures p == q
  {
    hide WellFormed, Step;
    RunsKeepTheInvariant(tokens, states, actions, i);
    assert ExchangeOk(states[i], p) && ExchangeOk(states[i], q);
  }

  function ExchangesAt(exchanges: seq<Exchange>, generation: nat): nat {
    if exchanges == [] then 0
    else ExchangesAt(exchanges[1..], generation) + if exchanges[0].generation == generation then 1 else 0
  }

  function RejectionsAt(exchanges: seq<Exchange>, generation: nat): nat {
    if exchanges == [] then 0
    else RejectionsAt(exchanges[1..], generation)
           + if exchanges[0].generation == generation && Rejected5xx(exchanges[0].answer) then 1 else 0
  }

  lemma {:induction false} AllButTheLastRejected(exchanges: seq<Exchange>, generation: nat)
    requires forall i, j | 0 <= i < j < |exchanges| && exchanges[i].generation == exchanges[j].generation ::
      Rejected5xx(exchanges[i].answer)
    ensures ExchangesAt(exchanges, generation) <= 1 + RejectionsAt(exchanges, generation)
    ensures (exists i :: 0 <= i < |exchanges| && exchanges[i].generation == generation)
      || ExchangesAt(exchanges, generation) == 0
  {
    if exchanges != [] {
      var rest := exchanges[1..];
      assert forall i | 0 <= i < |rest| :: rest[i] == exchanges[i + 1];
      AllButTheLastRejected(rest, generation);
    }
  }

  /** A generation's refresh token is presented at most once more than it is answered with a 5xx. */
  lemma ExchangesAreBounded(tokens: Tokens, states: seq<State>, actions: seq<Action>, i: nat, generation: nat)
    requires Run(tokens, states, actions) && i < |states|
    ensures ExchangesAt(states[i].exchanges, generation) <= 1 + RejectionsAt(states[i].exchanges, generation)
  {
    hide WellFormed, Step;
    RunsKeepTheInvariant(tokens, states, actions, i);
    AllButTheLastRejected(states[i].exchanges, generation);
  }

  /** A refresh task always finds the generation it was started for: its guards against another one are never taken. */
  lemma GuardsAreNeverTaken(tokens: Tokens, states: seq<State>, actions: seq<Action>, i: nat)
    requires Run(tokens, states, actions) && i < |actions|
    ensures actions[i].ReadToken? || actions[i].Merge? ==>
      && actions[i].task < |states[i].tasks|
      && states[i].tasks[actions[i].task].generation == states[i].generation
  {
    hide WellFormed;
    RunsKeepTheInvariant(tokens, states, actions, i);
    assert Step(tokens, states[i], actions[i], states[i + 1]);
    if actions[i].ReadToken? || actions[i].Merge? { assert TaskOk(tokens, states[i], actions[i].task); }
  }

  /** What goes on the wire is the refresh token in force at that moment. */
  lemma PresentedTokenIsCurrent(tokens: Tokens, states: seq<State>, actions: seq<Action>, i: nat)
    requires Run(tokens, states, actions) && i < |actions| && actions[i].Present?
    ensures states[i + 1].exchanges ==
      states[i].exchanges + [Exchange(states[i].generation, states[i].credential.refreshToken, Pending)]
  {
    hide WellFormed;
    RunsKeepTheInvariant(tokens, states, actions, i);
    assert Step(tokens, states[i], actions[i], states[i + 1]);
    assert TaskOk(tokens, states[i], actions[i].task);
  }

  /**
   * A successful return is a credential this process published; recovery from a 401 moves past the generation that
   * failed.
   */
  lemma RecoveryAdvances(tokens: Tokens, states: seq<State>, actions: seq<Action>, i: nat, c: nat)
    requires Run(tokens, states, actions) && i < |states| && c < |states[i].callers|
    requires var status := states[i].callers[c].status; status.Returned? && status.outcome.Success?
    ensures var s, caller := states[i], states[i].callers[c];
      var snapshot := caller.status.outcome.value;
      && snapshot.generation < |s.published|
      && snapshot.accessToken == s.published[snapshot.generation].accessToken
      && snapshot.accountId == s.published[snapshot.generation].accountId
      && (caller.reason == Unauthorized ==> (snapshot.generation > caller.expected <==> caller.expected <= caller.at))
  {
    hide WellFormed, Step;
    RunsKeepTheInvariant(tokens, states, actions, i);
    assert CallerOk(states[i], states[i].callers[c]);
  }

  /**
   * A snapshot handed out ahead of a request, at the generation the caller found, was good for more than five minutes
   * at the clock reading that released it, or, without an expiry, refreshed within eight days before.
   */
  lemma HandedOutWhileGood(tokens: Tokens, states: seq<State>, actions: seq<Action>, i: nat, c: nat)
    requires Run(tokens, states, actions) && i < |states| && c < |states[i].callers|
    requires var status := states[i].callers[c].status; status.Returned? && status.outcome.Success?
    ensures var s, caller := states[i], states[i].callers[c];
      caller.reason == Proactive && caller.status.outcome.value.generation == caller.expected ==>
        && caller.expected < |s.published|
        && match s.published[caller.expected].accessExpiresAt
           case Some(expiresAt) => expiresAt > caller.now + 300
           case None => s.published[caller.expected].lastRefresh >= caller.now - 691200
  {
    hide WellFormed, Step;
    RunsKeepTheInvariant(tokens, states, actions, i);
    assert CallerOk(states[i], states[i].callers[c]);
  }

  /**
   * A proactive call at the current generation returns the current snapshot at once exactly while the credential is
   * good; otherwise it waits for a flight at that generation, joining the one there is.
   */
  lemma ProactiveCallsRefreshInTime(s: State, now: int)
    ensures var r := Called(s, s.generation, Proactive, now);
      var caller := r.callers[|s.callers|];
      var good := match s.credential.accessExpiresAt
        case Some(expiresAt) => expiresAt > now + 300
        case None => s.credential.lastRefresh >= now - 691200;
      && |r.callers| == |s.callers| + 1
      && (if good then
            && caller.status ==
              Returned(Success(Snapshot(s.credential.accessToken, s.credential.accountId, s.generation)))
            && r.tasks == s.tasks && r.flight == s.flight
          else
            && caller.status.Waiting? && r.flight == Some(Flight(s.generation, caller.status.task))
            && (s.flight.Some? && s.flight.value.generation == s.generation ==>
              r.tasks == s.tasks && r.flight == s.flight)
            && (s.flight.None? || s.flight.value.generation != s.generation ==>
                  r.tasks == s.tasks + [Task(s.generation, None, Spawned)]))
  {
  }

  /** What each answer of the authorization server makes of its exchange: only a 2xx with a readable body goes on. */
  lemma AnswersDecide(s: State, t: nat, reply: Reply)
    requires t < |s.tasks| && s.tasks[t].exchange.Some? && s.tasks[t].exchange.value < |s.exchanges|
    ensures var r := Received(s, t, reply);
      && |r.tasks| == |s.tasks| && r.exchanges[s.tasks[t].exchange.value].answer ==
           (match reply case NoReply => NoAnswer case Status(status, _) => Answer(status))
      && (reply.NoReply? <==> r.tasks[t].phase == Done(Failure(OauthRequest)))
      && (reply.Status? && (reply.status < 200 || reply.status > 299) <==>
            reply.Status? && r.tasks[t].phase == Done(Failure(OauthRejected(reply.status))))
      && (reply.Status? && 200 <= reply.status <= 299 && reply.body.None? <==>
            r.tasks[t].phase == Done(Failure(OauthResponse)))
      && (reply.Status? && 200 <= reply.status <= 299 && reply.body.Some? <==>
            reply.Status? && reply.body.Some? && r.tasks[t].phase == Answered(reply.body.value))
  {
  }

  /**
   * A failure is forgotten exactly when the server answered 5xx: its task then empties the flight slot, and the next
   * recovery at that generation starts a new exchange; after any other failure it gets the old one's task.
   */
  lemma OnlyServerErrorsAreRetried(tokens: Tokens, s: State, t: nat, error: Error, now: int)
    requires Inv(tokens, s) && t < |s.tasks| && s.tasks[t].phase == Done(Failure(error))
    ensures var server := error.OauthRejected? && error.status >= 500 && error.status < 600;
      && (server <==> Step(tokens, s, Clear(t), ClearedTask(s, t)))
      && (!server <==> Step(tokens, s, Announce(t), Moved(s, t, Published(Failure(error)))))
      && (server ==> |Called(ClearedTask(s, t), s.generation, Unauthorized, now).tasks| == |s.tasks| + 1)
      && (!server ==>
            var r := Called(Moved(s, t, Published(Failure(error))), s.generation, Unauthorized, now);
            |r.tasks| == |s.tasks| && r.callers[|s.callers|].status == Waiting(t))
  {
    hide WellFormed, NeedsRefresh;
    assert TaskOk(tokens, s, t);
  }

  /** While a refresh is being saved and published nobody reads the state: no call, no token and no other merge. */
  lemma SavingExcludesReaders(tokens: Tokens, s: State, t: nat, action: Action, r: State)
    requires t < |s.tasks| && (s.tasks[t].phase.Saving? || s.tasks[t].phase.Saved?) && Step(tokens, s, action, r)
    ensures !action.Glance? && !action.Take? && !action.Call? && !action.ReadToken? && !action.Merge?
  {
    hide WellFormed, NeedsRefresh, Merged;
    assert Locks(s.tasks[t]);
  }

  predicate SameCall(a: Caller, b: Caller) { a.expected == b.expected && a.reason == b.reason && a.at == b.at }

  /** Within a process generations only grow, and calls stay on record. */
  predicate Grows(s: State, r: State) {
    && s.generation <= r.generation && |s.callers| <= |r.callers|
    && forall c | 0 <= c < |s.callers| :: SameCall(s.callers[c], r.callers[c])
  }

  lemma StepGrows(tokens: Tokens, s: State, action: Action, r: State)
    requires Step(tokens, s, action, r) && !action.Restart?
    ensures Grows(s, r)
  {
    hide WellFormed, NeedsRefresh, Merged;
  }

  lemma {:induction false} ProcessesGrow(tokens: Tokens, states: seq<State>, actions: seq<Action>, i: nat, k: nat)
    requires Run(tokens, states, actions) && i <= k < |states| && forall j | i <= j < k :: !actions[j].Restart?
    ensures Grows(states[i], states[k])
    decreases k
  {
    hide Step;
    if i < k {
      ProcessesGrow(tokens, states, actions, i, k - 1);
      assert Step(tokens, states[k - 1], actions[k - 1], states[k - 1 + 1]);
      StepGrows(tokens, states[k - 1], actions[k - 1], states[k]);
    }
  }

  /**
   * As the upstream clients call it, with the generation of a snapshot this process handed out earlier, recovery
   * from a 401 always returns a later generation.
   */
  lemma RecoveryFromSnapshotAdvances(tokens: Tokens, states: seq<State>, actions: seq<Action>, i: nat, c: nat, k: nat,
      m: nat, d: nat)
    requires Run(tokens, states, actions) && i <= k < m < |states| && forall j | i <= j < m :: !actions[j].Restart?
    requires c < |states[i].callers|
    requires var status := states[i].callers[c].status; status.Returned? && status.outcome.Success?
    requires actions[k].Call? && actions[k].reason == Unauthorized
    requires actions[k].expected == states[i].callers[c].status.outcome.value.generation
    requires d == |states[k].callers| < |states[m].callers|
    requires var status := states[m].callers[d].status; status.Returned? && status.outcome.Success?
    ensures states[m].callers[d].status.outcome.value.generation > actions[k].expected
  {
    hide WellFormed, NeedsRefresh;
    RunsKeepTheInvariant(tokens, states, actions, i);
    assert CallerOk(states[i], states[i].callers[c]);
    ProcessesGrow(tokens, states, actions, i, k);
    assert Step(tokens, states[k], actions[k], states[k + 1]);
    hide Inv, Step;
    ProcessesGrow(tokens, states, actions, k + 1, m);
    assert SameCall(states[k + 1].callers[d], states[m].callers[d]);
    RecoveryAdvances(tokens, states, actions, m, d);
  }

  // ----- failures latch -----

  predicate Latched(s: State, t: nat, error: Error) {
    && t < |s.tasks| && Flies(s, t) && s.tasks[t].generation == s.generation
    && (s.tasks[t].phase.Done? || s.tasks[t].phase.Published?)
    && s.tasks[t].phase.outcome == Failure(error) && !Retryable(Failure(error))
  }

  predicate LatchedSince(before: State, s: State, t: nat, error: Error) {
    && Latched(s, t, error)
    && s.generation == before.generation && s.exchanges == before.exchanges && |before.callers| <= |s.callers|
    && forall c | |before.callers| <= c < |s.callers| && s.callers[c].reason == Unauthorized
      && s.callers[c].expected == s.generation ::
         s.callers[c].status == Waiting(t) || s.callers[c].status == Returned(Failure(error))
  }

  lemma LatchHolds(tokens: Tokens, before: State, s: State, action: Action, r: State, t: nat, error: Error)
    requires Inv(tokens, s) && Step(tokens, s, action, r) && !action.Restart?
    requires LatchedSince(before, s, t, error)
    ensures LatchedSince(before, r, t, error)
  {
    hide WellFormed, NeedsRefresh, Merged;
    forall u | 0 <= u < |s.tasks| && u != t
      ensures !Active(s.tasks[u]) && (s.tasks[u].phase.Done? ==> !Retryable(s.tasks[u].phase.outcome))
    {
      assert TaskOk(tokens, s, u);
      assert s.tasks[u].phase.Done? ==> OutcomeOk(s, s.tasks[u], s.tasks[u].phase.outcome);
    }
  }

  /**
   * After any failure but a 5xx the token is never presented again, and every later caller at that generation gets
   * that failure.
   */
  lemma {:induction false} FailuresAreLatched(tokens: Tokens, states: seq<State>, actions: seq<Action>, i: nat, k: nat,
      t: nat)
    requires Run(tokens, states, actions) && i <= k < |states|
    requires forall j | i <= j < k :: !actions[j].Restart?
    requires t < |states[i].tasks|
    requires var outcome := OutcomeOf(states[i].tasks[t]);
      outcome.Some? && outcome.value.Failure? && !Retryable(outcome.value)
    ensures LatchedSince(states[i], states[k], t, OutcomeOf(states[i].tasks[t]).value.error)
    decreases k
  {
    hide WellFormed, Step;
    var error := OutcomeOf(states[i].tasks[t]).value.error;
    if k == i {
      RunsKeepTheInvariant(tokens, states, actions, i);
      assert TaskOk(tokens, states[i], t);
    } else {
      FailuresAreLatched(tokens, states, actions, i, k - 1, t);
      RunsKeepTheInvariant(tokens, states, actions, k - 1);
      assert Step(tokens, states[k - 1], actions[k - 1], states[k - 1 + 1]);
      LatchHolds(tokens, states[i], states[k - 1], actions[k - 1], states[k], t, error);
    }
  }

  // ----- the store and restarts -----

  /** The last credential saved or imported: one being published, or else the one in memory. */
  ghost predicate InForce(s: State, credential: Credential) {
    if Settled(s) then credential == s.credential
    else exists t :: 0 <= t < |s.tasks| && s.tasks[t].phase == Saved(credential)
  }

  /** Outside save-then-publish the store holds what memory holds; inside, what is about to be published. */
  lemma StoreAgreesWithMemory(tokens: Tokens, states: seq<State>, actions: seq<Action>, i: nat)
    requires Run(tokens, states, actions) && i < |states|
    ensures states[i].store.Some? && InForce(states[i], states[i].store.value)
    ensures forall credential | InForce(states[i], credential) :: credential == states[i].store.value
    ensures states[i].saves != [] && states[i].store.value == states[i].saves[|states[i].saves| - 1]
  {
    hide WellFormed, Step;
    RunsKeepTheInvariant(tokens, states, actions, i);
    var s := states[i];
    if !Settled(s) {
      var t :| 0 <= t < |s.tasks| && s.tasks[t].phase.Saved?;
      assert TaskOk(tokens, s, t);
      assert s.tasks[t].phase == Saved(s.store.value);
      forall credential | InForce(s, credential) ensures credential == s.store.value {
        var u :| 0 <= u < |s.tasks| && s.tasks[u].phase == Saved(credential);
        assert TaskOk(tokens, s, u);
      }
    }
  }

  /** A crash at any point and a restart resume the latest saved credential exactly when the seed is not newer. */
  lemma RestartResumes(tokens: Tokens, states: seq<State>, actions: seq<Action>, i: nat)
    requires Run(tokens, states, actions) && i < |actions| && actions[i].Restart?
    ensures var seed, saves := actions[i].seed, states[i].saves;
      && saves != []
      && var latest := saves[|saves| - 1];
         && InForce(states[i], latest)
         && (states[i + 1].credential == latest <==> seed == latest || seed.lastRefresh <= latest.lastRefresh)
         && (seed.lastRefresh <= latest.lastRefresh ==> states[i + 1].saves == saves)
  {
    hide WellFormed;
    StoreAgreesWithMemory(tokens, states, actions, i);
    assert Step(tokens, states[i], actions[i], states[i + 1]);
  }

  predicate NotBefore(s: State, floor: int) {
    && s.store.Some? && s.store.value.lastRefresh >= floor
    && forall t | 0 <= t < |s.tasks| && s.tasks[t].phase.Saving? :: s.tasks[t].phase.updated.lastRefresh >= floor
  }

  /** While the clock never reads earlier than any seed's refresh time, no restart ever goes back to a seed. */
  lemma {:induction false} RotationsSurviveRestarts(tokens: Tokens, states: seq<State>, actions: seq<Action>,
      floor: int, i: nat)
    requires Run(tokens, states, actions) && i < |states| && states[0].credential.lastRefresh >= floor
    requires forall j | 0 <= j < |actions| && actions[j].Restart? :: actions[j].seed.lastRefresh <= floor
    requires forall j | 0 <= j < |actions| && actions[j].Merge? :: floor <= actions[j].now
    ensures NotBefore(states[i], floor)
    ensures i > 0 && actions[i - 1].Restart? ==>
      InForce(states[i - 1], states[i].credential) && states[i].saves == states[i - 1].saves
  {
    hide WellFormed;
    if i > 0 {
      var s, r := states[i - 1], states[i];
      RotationsSurviveRestarts(tokens, states, actions, floor, i - 1);
      assert Step(tokens, states[i - 1], actions[i - 1], states[i - 1 + 1]);
      RotationStep(tokens, s, actions[i - 1], r, floor);
      if actions[i - 1].Restart? { StoreAgreesWithMemory(tokens, states, actions, i - 1); }
    }
  }

  lemma RotationStep(tokens: Tokens, s: State, action: Action, r: State, floor: int)
    requires NotBefore(s, floor) && Step(tokens, s, action, r)
    requires action.Restart? ==> action.seed.lastRefresh <= floor
    requires action.Merge? ==> floor <= action.now
    ensures NotBefore(r, floor)
  {
    hide WellFormed, NeedsRefresh;
  }

  /** The run that rotates the imported seed once, at a given clock reading, and then restarts with the same seed. */
  function RotateThenRestart(seed: Credential, response: RefreshResponse, now: int): seq<Action> {
    [Call(0, Unauthorized, now), ReadToken(0), Present(0), Receive(0, Status(200, Some(response))), Merge(0, now),
      Save(0, true),
     Publish(0), Restart(seed)]
  }

  /**
   * With the clock behind the seed the restart forgets the rotation and holds the token already exchanged;
   * otherwise it does not.
   */
  lemma ClockBehindSeedForgetsRotation(tokens: Tokens, seed: Credential, response: RefreshResponse, now: int)
    returns (states: seq<State>)
    requires WellFormed(tokens, seed) && Merged(tokens, seed, response, now).Success?
    ensures Run(tokens, states, RotateThenRestart(seed, response, now))
    ensures states[7].exchanges == [Exchange(0, seed.refreshToken, Answer(200))] && states[7].generation == 1
    ensures states[7].credential == Merged(tokens, seed, response, now).value
    ensures states[8].credential == if now < seed.lastRefresh then seed else states[7].credential
  {
    var updated := Merged(tokens, seed, response, now).value;
    hide WellFormed, Merged;
    var s0 := Started(None, [], seed);
    var s1 := Called(s0, 0, Unauthorized, now);
    var s2 := Moved(s1, 0, Holding(seed.refreshToken));
    var s3 := s2.(tasks := [Task(0, Some(0), Exchanging)], exchanges := [Exchange(0, seed.refreshToken, Pending)]);
    var s4 := Received(s3, 0, Status(200, Some(response)));
    var s5 := MergedTask(tokens, s4, 0, now);
    var s6 := SavedTask(s5, 0, true);
    var s7 := PublishedTask(s6, 0);
    states := [s0, s1, s2, s3, s4, s5, s6, s7, Started(s7.store, s7.saves, seed)];
  }

  /** The run that fails a refresh for good, restarts with the same seed and refreshes again. */
  function FailThenRestart(seed: Credential, now: int): seq<Action> {
    [Call(0, Unauthorized, now), ReadToken(0), Present(0), Receive(0, Status(400, None)),
      Restart(seed), Call(0, Unauthorized, now), ReadToken(0), Present(0)]
  }

  /** The latch ends with the process: after a restart the token that was refused for good is presented again. */
  lemma RestartForgetsTheLatch(tokens: Tokens, seed: Credential, now: int) returns (states: seq<State>)
    requires WellFormed(tokens, seed)
    ensures Run(tokens, states, FailThenRestart(seed, now))
    ensures Latched(states[4], 0, OauthRejected(400))
    ensures states[4].exchanges == [Exchange(0, seed.refreshToken, Answer(400))]
    ensures states[8].exchanges == [Exchange(0, seed.refreshToken, Pending)]
  {
    hide WellFormed;
    var s0 := Started(None, [], seed);
    var s1 := Called(s0, 0, Unauthorized, now);
    var s2 := Moved(s1, 0, Holding(seed.refreshToken));
    var s3 := s2.(tasks := [Task(0, Some(0), Exchanging)], exchanges := [Exchange(0, seed.refreshToken, Pending)]);
    var s4 := Received(s3, 0, Status(400, None));
    var s5 := Started(s4.store, s4.saves, seed);
    var s6 := Called(s5, 0, Unauthorized, now);
    var s7 := Moved(s6, 0, Holding(seed.refreshToken));
    var s8 := s7.(tasks := [Task(0, Some(0), Exchanging)], exchanges := [Exchange(0, seed.refreshToken, Pending)]);
    states := [s0, s1, s2, s3, s4, s5, s6, s7, s8];
  }
}

/** The manager's critical sections, each proved to be one of the protocol's steps. */
module CredentialManagers {
  import opened Wrappers
  import opened Credentials
  import opened CredentialRefresh

  class CredentialManager {
    const tokens: Tokens
    var credential: Credential
    var generation: nat
    var refreshFlight: Option<Flight>
    var refreshTasks: seq<Task>
    var stored: Option<Credential>
    ghost var world: State

    ghost predicate Valid()
      reads this
    {
      && credential == world.credential && generation == world.generation && refreshFlight == world.flight
      && refreshTasks == world.tasks && stored == world.store
      && Inv(tokens, world)
    }

    constructor Load(tokens: Tokens, stored: Option<Credential>, ghost saves: seq<Credential>, seed: Credential)
      requires WellFormed(tokens, seed)
      requires stored.Some? ==> WellFormed(tokens, stored.value) && saves != [] && stored.value == saves[|saves| - 1]
      ensures Valid() && this.tokens == tokens && world == Started(stored, saves, seed)
    {
      var loaded := seed;
      if stored.Some? && seed.lastRefresh <= stored.value.lastRefresh { loaded := stored.value; }
      this.tokens := tokens;
      credential, generation, refreshFlight, refreshTasks, this.stored := loaded, 0, None, [], Some(loaded);
      world := Started(stored, saves, seed);
      StartedIsOk(tokens, stored, saves, seed);
    }

    /** The section under the flight lock: the snapshot to return, or the task to wait for. */
    method RefreshGeneration(expected: nat, reason: Reason, now: int) returns (r: Result<Snapshot, nat>)
      requires Valid() && Unlocked(world)
      modifies this
      ensures Valid() && Step(tokens, old(world), Call(expected, reason, now), world)
      ensures world.callers[|old(world).callers|].status ==
        match r case Success(snapshot) => Returned(Success(snapshot)) case Failure(task) => Waiting(task)
      ensures reason == Proactive && expected == old(generation) ==>
        && (r.Success? <==> GoodAt(old(credential), now))
        && (r.Success? ==> r.value == Snapshot(old(credential).accessToken, old(credential).accountId, expected))
    {
      GoodNeedsNoRefresh(credential, now);
      CallKeeps(tokens, world, expected, reason, now);
      world := Called(world, expected, reason, now);
      if generation != expected { return Success(SnapshotOf(credential, generation)); }
      if reason == Proactive && !NeedsRefresh(credential, now) { return Success(SnapshotOf(credential, generation)); }
      if refreshFlight.Some? && refreshFlight.value.generation == expected { return Failure(refreshFlight.value.task); }
      var task := |refreshTasks|;
      refreshFlight := Some(Flight(expected, task));
      refreshTasks := refreshTasks + [Task(expected, None, Spawned)];
      r := Failure(task);
    }

    /** Credentials ready for an upstream request, or the flight to wait for, when nothing else happens meanwhile. */
    method Credentials(now: int) returns (r: Result<Snapshot, nat>)
      requires Valid() && Unlocked(world)
      modifies this
      ensures Valid() && credential == old(credential) && generation == old(generation)
      ensures r.Success? <==> GoodAt(old(credential), now)
      ensures r.Success? ==>
        r.value == Snapshot(old(credential).accessToken, old(credential).accountId, old(generation))
      ensures r.Success? ==> refreshFlight == old(refreshFlight) && refreshTasks == old(refreshTasks)
    {
      GoodNeedsNoRefresh(credential, now);
      hide Inv, GoodAt, WellFormed;
      if NeedsRefresh(credential, now) {
        r := RefreshGeneration(generation, Proactive, now);
        return;
      }
      GlanceKeeps(tokens, world, now);
      world := Glanced(world, now);
      TakeKeeps(tokens, world, |world.callers| - 1);
      world := Taken(world, |world.callers| - 1);
      r := Success(SnapshotOf(credential, generation));
    }

    /** The section under the state's write lock: merge, save, publish, each only if the one before succeeded. */
    method FinishExchange(t: nat, now: int, saveSucceeds: bool)
      requires Valid() && t < |refreshTasks| && refreshTasks[t].phase.Answered? && Unlocked(world)
      modifies this
      ensures Valid() && t < |refreshTasks| && refreshTasks[t].phase.Done?
      ensures var merged := Merged(tokens, old(credential), old(refreshTasks[t]).phase.response, now);
        if merged.Success? && saveSucceeds then
          && credential == merged.value && stored == Some(merged.value) && generation == old(generation) + 1
          && refreshTasks[t].phase.outcome == Success(SnapshotOf(merged.value, generation))
          && world.saves == old(world).saves + [merged.value]
        else
          && credential == old(credential) && generation == old(generation) && stored == old(stored)
          && refreshTasks[t].phase.outcome == Failure(if merged.Failure? then merged.error else StoreFailed)
          && world.saves == old(world).saves
      ensures refreshFlight == old(refreshFlight) && world.exchanges == old(world).exchanges
    {
      hide WellFormed, Merged, PresentAndBlank, Inv;
      AnsweredIsCurrent(tokens, world, t);
      var merged := Merged(tokens, credential, refreshTasks[t].phase.response, now);
      MergeKeeps(tokens, world, t, now, MergedTask(tokens, world, t, now));
      world := MergedTask(tokens, world, t, now);
      if merged.Failure? {
        refreshTasks := refreshTasks[t := refreshTasks[t].(phase := Done(Failure(merged.error)))];
        return;
      }
      SaveKeeps(tokens, world, t, saveSucceeds, SavedTask(world, t, saveSucceeds));
      world := SavedTask(world, t, saveSucceeds);
      if !saveSucceeds || stored.None? {
        refreshTasks := refreshTasks[t := refreshTasks[t].(phase := Done(Failure(StoreFailed)))];
        return;
      }
      stored := Some(merged.value);
      PublishKeeps(tokens, world, t, PublishedTask(world, t));
      world := PublishedTask(world, t);
      credential := merged.value;
      generation := generation + 1;
      refreshTasks := refreshTasks[t := refreshTasks[t].(phase := Done(Success(SnapshotOf(credential, generation))))];
    }

    /** A finished task empties the flight slot after a 5xx and then announces its outcome. */
    method FinishTask(t: nat)
      requires Valid() && t < |refreshTasks| && refreshTasks[t].phase.Done?
      modifies this
      ensures Valid()
      ensures refreshTasks ==
        old(refreshTasks)[t := old(refreshTasks[t]).(phase := Published(old(refreshTasks[t]).phase.outcome))]
      ensures refreshFlight == if Retryable(old(refreshTasks[t]).phase.outcome) then None else old(refreshFlight)
      ensures credential == old(credential) && generation == old(generation) && stored == old(stored)
    {
      hide WellFormed;
      assert TaskOk(tokens, world, t);
      var outcome := refreshTasks[t].phase.outcome;
      if Retryable(outcome) {
        ClearKeeps(tokens, world, t, ClearedTask(world, t));
        world := ClearedTask(world, t);
        if refreshFlight.Some?
          && refreshFlight.value.generation == refreshTasks[t].generation { refreshFlight := None; }
      }
      AnnounceKeeps(tokens, world, t, Moved(world, t, Published(outcome)));
      world := Moved(world, t, Published(outcome));
      refreshTasks := refreshTasks[t := refreshTasks[t].(phase := Published(outcome))];
    }
  }
}
