/** Requests, session actors and the cache between them, as interleaved steps over one clock. */
module SessionActors {
  import opened Wrappers
  import opened SessionCache

  const IDLE_TTL_SECONDS := 600

  datatype Cause = Expired | HungUp | ShutDown
  /** A leaving actor has left its loop but still holds its slot; a gone one has dropped it. */
  datatype Stage = Serving | Leaving(cause: Cause) | Gone(cause: Cause)
  datatype Actor = Actor(key: Option<SessionKey>, stage: Stage, since: int)
  datatype Phase = Acquired | Queued | Running | Replied | Refused | Dropped
  datatype Job = Job(actor: nat, phase: Phase)
  datatype State = State(entries: Entries, actors: seq<Actor>, jobs: seq<Job>, shutdown: bool, now: int)

  datatype Action =
    | Acquire(key: Option<SessionKey>)
    | Send(job: nat)
    | Receive(job: nat)
    | Finish(job: nat, bytes: nat)
    | Expire(actor: nat)
    | HangUp(actor: nat)
    | Quit(actor: nat)
    | Leave(actor: nat)
    | BeginShutdown
    | Tick(now: int)

  predicate InFlight(job: Job) { job.phase.Acquired? || job.phase.Queued? || job.phase.Running? }
  predicate Lost(job: Job) { job.phase.Refused? || job.phase.Dropped? }

  predicate Init(s: State) { s.entries == map[] && s.actors == [] && s.jobs == [] && !s.shutdown }

  function Moved(s: State, j: nat, phase: Phase): State
    requires j < |s.jobs|
  {
    s.(jobs := s.jobs[j := s.jobs[j].(phase := phase)])
  }

  function Staged(s: State, a: nat, stage: Stage): State
    requires a < |s.actors|
  {
    s.(actors := s.actors[a := s.actors[a].(stage := stage)])
  }

  /** A dropped slot drops the job in it. */
  function Dropping(jobs: seq<Job>, a: nat): (r: seq<Job>)
    ensures |r| == |jobs|
    ensures forall j | 0 <= j < |r| :: r[j] == if jobs[j] == Job(a, Queued) then Job(a, Dropped) else jobs[j]
  {
    seq(|jobs|, j requires 0 <= j < |jobs| => if jobs[j] == Job(a, Queued) then Job(a, Dropped) else jobs[j])
  }

  predicate Sits(s: State, a: nat) {
    a < |s.actors| && s.actors[a].stage.Serving? && Job(a, Running) !in s.jobs
  }

  predicate Has(s: State, j: nat, phase: Phase) {
    j < |s.jobs| && s.jobs[j].phase == phase && s.jobs[j].actor < |s.actors|
  }

  predicate AcquireStep(s: State, key: Option<SessionKey>, t: State) {
    var acquisition := Acquiring(s.entries, |s.actors|, key);
    var entries := AfterAcquiring(s.entries, key, acquisition, s.now);
    match acquisition
    case SessionBusy => t == s
    case Reused(id) => t == s.(entries := entries, jobs := s.jobs + [Job(id, Acquired)])
    case Spawned(id) =>
      t == s.(entries := entries, actors := s.actors + [Actor(key, Serving, s.now)],
        jobs := s.jobs + [Job(id, Acquired)])
  }

  /** The one-place channel refuses when it is full or its receiver is gone. */
  predicate SendStep(s: State, j: nat, t: State) {
    && Has(s, j, Acquired)
    && var a := s.jobs[j].actor;
       t == Moved(s, j, if s.actors[a].stage.Gone? || Job(a, Queued) in s.jobs then Refused else Queued)
  }

  predicate ReceiveStep(s: State, j: nat, t: State) {
    Has(s, j, Queued) && Sits(s, s.jobs[j].actor) && t == Moved(s, j, Running)
  }

  ghost predicate FinishStep(s: State, j: nat, bytes: nat, t: State) {
    && Has(s, j, Running)
    && var a := s.jobs[j].actor;
       && t == Moved(s, j, Replied).(entries := t.entries, actors := s.actors[a := s.actors[a].(since := s.now)])
       && match s.actors[a].key
          case None => t.entries == s.entries
          case Some(key) => Readied(s.entries, key, a, bytes, s.now, t.entries)
  }

  /** The channel is polled before the timer: a keyless actor stops only while its one sender is yet to send. */
  predicate ExpireStep(s: State, a: nat, t: State) {
    && Sits(s, a) && s.now >= s.actors[a].since + IDLE_TTL_SECONDS
    && match s.actors[a].key
       case None => Job(a, Acquired) in s.jobs && Job(a, Queued) !in s.jobs && t == Staged(s, a, Leaving(Expired))
       case Some(key) =>
         if Owns(s.entries, key, a) && s.entries[key].busy then t == s
         else t == Staged(s, a, Leaving(Expired)).(entries := WithoutIdle(s.entries, key, a))
  }

  /** Neither an entry nor a request holds a sender any more. */
  predicate HangUpStep(s: State, a: nat, t: State) {
    && Sits(s, a) && Job(a, Acquired) !in s.jobs && Job(a, Queued) !in s.jobs
    && (s.actors[a].key.Some? ==> !Owns(s.entries, s.actors[a].key.value, a))
    && t == Staged(s, a, Leaving(HungUp))
  }

  predicate QuitStep(s: State, a: nat, t: State) {
    s.shutdown && Sits(s, a) && t == Staged(s, a, Leaving(ShutDown))
  }

  predicate LeaveStep(s: State, a: nat, t: State) {
    && a < |s.actors| && s.actors[a].stage.Leaving?
    && t == Staged(s, a, Gone(s.actors[a].stage.cause)).(
              entries := if s.actors[a].key.Some? then WithoutOwn(s.entries, s.actors[a].key.value, a) else s.entries,
              jobs := Dropping(s.jobs, a))
  }

  ghost predicate Step(s: State, action: Action, t: State) {
    match action
    case Acquire(key) => AcquireStep(s, key, t)
    case Send(j) => SendStep(s, j, t)
    case Receive(j) => ReceiveStep(s, j, t)
    case Finish(j, bytes) => FinishStep(s, j, bytes, t)
    case Expire(a) => ExpireStep(s, a, t)
    case HangUp(a) => HangUpStep(s, a, t)
    case Quit(a) => QuitStep(s, a, t)
    case Leave(a) => LeaveStep(s, a, t)
    case BeginShutdown => t == s.(shutdown := true)
    case Tick(now) => s.now <= now && t == s.(now := now)
  }

  ghost predicate Run(states: seq<State>, actions: seq<Action>) {
    && |states| == |actions| + 1 && Init(states[0])
    && forall i | 0 <= i < |actions| :: Step(states[i], actions[i], states[i + 1])
  }

  // ----- the invariant -----

  predicate Wired(s: State) {
    && (forall j | 0 <= j < |s.jobs| :: s.jobs[j].actor < |s.actors|)
    && forall k | k in s.entries :: EntryWired(s, k)
  }

  /** An entry names an actor of its key that has not expired or hung up, nor gone. */
  predicate EntryWired(s: State, k: SessionKey)
    requires k in s.entries
  {
    var a := s.entries[k].id;
    && a < |s.actors| && s.actors[a].key == Some(k)
    && (s.actors[a].stage.Serving? || s.actors[a].stage == Leaving(ShutDown))
  }

  /** No actor has two requests in flight, and a keyless one never has a second. */
  predicate Exclusive(s: State)
    requires Wired(s)
  {
    forall i, j | 0 <= i < j < |s.jobs| && s.jobs[i].actor == s.jobs[j].actor ::
      s.actors[s.jobs[i].actor].key.Some? && !(InFlight(s.jobs[i]) && InFlight(s.jobs[j]))
  }

  predicate Held(s: State)
    requires Wired(s)
  {
    forall j | 0 <= j < |s.jobs| && InFlight(s.jobs[j]) :: Holds(s, s.jobs[j].actor)
  }

  predicate Holds(s: State, a: nat)
    requires a < |s.actors|
  {
    s.actors[a].key.Some? && !s.actors[a].stage.Gone? ==>
      Owns(s.entries, s.actors[a].key.value, a) && s.entries[s.actors[a].key.value].busy
  }

  predicate HasJob(s: State, a: nat) { exists j :: 0 <= j < |s.jobs| && s.jobs[j].actor == a && InFlight(s.jobs[j]) }

  predicate BusyHasJob(s: State) {
    forall k | k in s.entries && s.entries[k].busy :: HasJob(s, s.entries[k].id)
  }

  predicate Staging(s: State)
    requires Wired(s)
  {
    && (forall j | 0 <= j < |s.jobs| :: JobStaged(s, s.jobs[j]))
    && forall a | 0 <= a < |s.actors| :: ActorStaged(s, s.actors[a])
  }

  predicate JobStaged(s: State, job: Job)
    requires job.actor < |s.actors|
  {
    var actor := s.actors[job.actor];
    && (job.phase.Running? ==> actor.stage.Serving?)
    && (job.phase.Queued? ==> !actor.stage.Gone?)
    && (InFlight(job) && !actor.stage.Serving? ==>
          actor.stage.cause == ShutDown || (actor.stage.cause == Expired && actor.key.None?))
    && (Lost(job) ==> s.shutdown || (actor.key.None? && !actor.stage.Serving? && actor.stage.cause == Expired))
    && (job.phase.Replied? && actor.key.None? && !actor.stage.Serving? ==> actor.stage.cause != Expired)
  }

  predicate ActorStaged(s: State, actor: Actor) {
    && (!actor.stage.Serving? && actor.stage.cause == ShutDown ==> s.shutdown)
    && (!actor.stage.Serving? && actor.stage.cause == Expired ==> s.now >= actor.since + IDLE_TTL_SECONDS)
  }

  ghost predicate Inv(s: State) {
    Wired(s) && Exclusive(s) && Held(s) && BusyHasJob(s) && Staging(s) && WithinBudget(s.entries)
  }

  lemma KeepsJob(s: State, t: State, a: nat)
    requires HasJob(s, a) && |s.jobs| <= |t.jobs|
    requires forall j | 0 <= j < |s.jobs| && s.jobs[j].actor == a && InFlight(s.jobs[j]) ::
      t.jobs[j].actor == a && InFlight(t.jobs[j])
    ensures HasJob(t, a)
  {
  }

  lemma ReuseKeeps(s: State, key: SessionKey, t: State)
    requires Inv(s) && AcquireStep(s, Some(key), t) && key in s.entries && !s.entries[key].busy
    ensures Wired(t) && Exclusive(t) && Held(t) && BusyHasJob(t) && Staging(t)
  {
    hide WithinBudget;
    ReuseKeepsStages(s, key, t);
    var n, id := |s.jobs|, s.entries[key].id;
    assert t.jobs[n] == Job(id, Acquired);
    assert forall j | 0 <= j < n :: t.jobs[j] == s.jobs[j];
    assert EntryWired(s, key);
    hide Staging;
    forall j | 0 <= j < n && InFlight(s.jobs[j]) ensures Holds(t, s.jobs[j].actor) && s.jobs[j].actor != id {
      assert Holds(s, s.jobs[j].actor);
    }
    hide EntryWired;
    assert HasJob(t, id);
    forall k | k in t.entries && t.entries[k].busy ensures HasJob(t, t.entries[k].id) {
      if k != key { KeepsJob(s, t, s.entries[k].id); }
    }
  }

  lemma ReuseKeepsStages(s: State, key: SessionKey, t: State)
    requires Inv(s) && AcquireStep(s, Some(key), t) && key in s.entries && !s.entries[key].busy
    ensures Wired(t) && Staging(t)
  {
    hide WithinBudget, Exclusive, Held, BusyHasJob;
    assert EntryWired(s, key);
    assert forall j | 0 <= j < |s.jobs| :: t.jobs[j] == s.jobs[j] && JobStaged(s, s.jobs[j]);
    assert forall k | k in t.entries :: EntryWired(s, k) && EntryWired(t, k);
  }

  lemma SpawnKeeps(s: State, key: Option<SessionKey>, t: State)
    requires Inv(s) && AcquireStep(s, key, t) && (key.None? || key.value !in s.entries)
    ensures Wired(t) && Exclusive(t) && Held(t) && BusyHasJob(t) && Staging(t)
  {
    hide WithinBudget;
    SpawnKeepsStages(s, key, t);
    hide Staging, EntryWired;
    var n, id := |s.jobs|, |s.actors|;
    assert forall j | 0 <= j < n :: t.jobs[j] == s.jobs[j];
    assert forall j | 0 <= j < n :: t.actors[s.jobs[j].actor] == s.actors[s.jobs[j].actor];
    assert t.jobs[n] == Job(id, Acquired);
    assert HasJob(t, id);
    forall k | k in t.entries && t.entries[k].busy ensures HasJob(t, t.entries[k].id) {
      if key != Some(k) { KeepsJob(s, t, s.entries[k].id); }
    }
    forall j | 0 <= j < |t.jobs| && InFlight(t.jobs[j]) ensures Holds(t, t.jobs[j].actor) {
      if j < n { assert Holds(s, s.jobs[j].actor); }
    }
  }

  lemma SpawnKeepsStages(s: State, key: Option<SessionKey>, t: State)
    requires Inv(s) && AcquireStep(s, key, t) && (key.None? || key.value !in s.entries)
    ensures Wired(t) && Staging(t)
  {
    hide WithinBudget, Exclusive, Held, BusyHasJob;
    assert forall a | 0 <= a < |s.actors| :: t.actors[a] == s.actors[a] && ActorStaged(s, s.actors[a]);
    assert forall j | 0 <= j < |s.jobs| :: t.jobs[j] == s.jobs[j] && JobStaged(s, s.jobs[j]);
    assert forall k | k in s.entries :: EntryWired(s, k);
    assert forall k | k in t.entries :: EntryWired(t, k);
  }

  lemma AcquireKeeps(s: State, key: Option<SessionKey>, t: State)
    requires Inv(s) && AcquireStep(s, key, t)
    ensures Inv(t)
  {
    hide WithinBudget;
    AcquiringKeepsBudget(s.entries, |s.actors|, key, s.now);
    if key.None? || key.value !in s.entries {
      SpawnKeeps(s, key, t);
    } else if !s.entries[key.value].busy {
      ReuseKeeps(s, key.value, t);
    }
  }

  /** The one job that moves stays in flight, or its actor is gone. */
  lemma SendKeeps(s: State, j: nat, t: State)
    requires Inv(s) && SendStep(s, j, t)
    ensures Inv(t)
  {
    hide WithinBudget;
    var a := s.jobs[j].actor;
    assert Job(a, Queued) !in s.jobs;
    assert forall i | 0 <= i < |t.jobs| && i != j :: t.jobs[i] == s.jobs[i];
    assert forall k | k in s.entries :: EntryWired(s, k) && EntryWired(t, k);
    forall k | k in t.entries && t.entries[k].busy ensures HasJob(t, t.entries[k].id) {
      KeepsJob(s, t, s.entries[k].id);
    }
    assert JobStaged(s, s.jobs[j]);
  }

  lemma ReceiveKeeps(s: State, j: nat, t: State)
    requires Inv(s) && ReceiveStep(s, j, t)
    ensures Inv(t)
  {
    hide WithinBudget;
    assert forall i | 0 <= i < |t.jobs| && i != j :: t.jobs[i] == s.jobs[i];
    assert forall k | k in s.entries :: EntryWired(s, k) && EntryWired(t, k);
    forall k | k in t.entries && t.entries[k].busy ensures HasJob(t, t.entries[k].id) {
      KeepsJob(s, t, s.entries[k].id);
    }
  }

  /** A turn that ends frees only its own entry; others lose at most idle entries. */
  lemma ReadiedEntries(before: Entries, key: SessionKey, id: nat, bytes: nat, now: int, after: Entries)
    requires Readied(before, key, id, bytes, now, after) && Owns(before, key, id)
    ensures after.Keys <= before.Keys
    ensures forall k | k in after && k != key :: after[k] == before[k]
    ensures key in after ==> after[key] == Entry(id, false, now, bytes)
    ensures forall k | k in before && k != key && before[k].busy :: k in after
  {
    hide WithinBudget;
    forall k | k in before && k != key && before[k].busy ensures k in after {
      BusyEntriesSurvive(before, key, id, bytes, now, after, k);
    }
  }

  lemma FinishKeeps(s: State, j: nat, bytes: nat, t: State)
    requires Inv(s) && FinishStep(s, j, bytes, t)
    ensures Inv(t)
  {
    hide WithinBudget, Readied;
    var a := s.jobs[j].actor;
    assert JobStaged(s, s.jobs[j]) && Holds(s, a);
    if s.actors[a].key.Some? {
      var key := s.actors[a].key.value;
      ReadiedEntries(s.entries, key, a, bytes, s.now, t.entries);
      ReadyKeepsBudget(s.entries, key, a, bytes, s.now, t.entries);
    }
    FinishKeepsShape(s, j, t);
  }

  /** A replied job and what a release may leave of the entries. */
  predicate FinishShape(s: State, j: nat, t: State)
    requires Wired(s) && j < |s.jobs|
  {
    var a := s.jobs[j].actor;
    && s.jobs[j].phase.Running?
    && t == Moved(s, j, Replied).(entries := t.entries, actors := s.actors[a := s.actors[a].(since := s.now)])
    && t.entries.Keys <= s.entries.Keys
    && (forall k | k in s.entries && s.entries[k].busy && s.entries[k].id != a :: k in t.entries)
    && (forall k | k in t.entries ::
          if s.entries[k].id == a then t.entries[k].id == s.entries[k].id && !t.entries[k].busy
          else t.entries[k] == s.entries[k])
  }

  lemma FinishKeepsWiring(s: State, j: nat, t: State)
    requires Inv(s) && j < |s.jobs| && FinishShape(s, j, t)
    ensures Wired(t) && BusyHasJob(t)
  {
    hide WithinBudget, Exclusive, Held, Staging;
    assert forall i | 0 <= i < |t.jobs| && i != j :: t.jobs[i] == s.jobs[i];
    assert forall k | k in t.entries :: EntryWired(s, k) && EntryWired(t, k);
    forall k | k in t.entries && t.entries[k].busy ensures HasJob(t, t.entries[k].id) {
      KeepsJob(s, t, s.entries[k].id);
    }
  }

  lemma FinishKeepsShape(s: State, j: nat, t: State)
    requires Inv(s) && j < |s.jobs| && FinishShape(s, j, t)
    ensures Wired(t) && Exclusive(t) && Held(t) && BusyHasJob(t) && Staging(t)
  {
    hide WithinBudget, BusyHasJob, EntryWired, HasJob;
    FinishKeepsWiring(s, j, t);
    var a := s.jobs[j].actor;
    assert JobStaged(s, s.jobs[j]) && ActorStaged(s, s.actors[a]);
    assert forall i | 0 <= i < |t.jobs| && i != j :: t.jobs[i] == s.jobs[i];
    assert forall b | 0 <= b < |t.actors| && b != a :: t.actors[b] == s.actors[b];
    forall i | 0 <= i < |t.jobs| && InFlight(t.jobs[i]) ensures Holds(t, t.jobs[i].actor) {
      assert Holds(s, s.jobs[i].actor) && s.jobs[i].actor != a;
    }
  }

  lemma ExpireKeeps(s: State, a: nat, t: State)
    requires Inv(s) && ExpireStep(s, a, t)
    ensures Inv(t)
  {
    hide WithinBudget;
    if s.actors[a].key.Some? { OthersKeepBudget(s.entries, s.actors[a].key.value, a); }
    if t != s { ExpiredKeeps(s, a, t); }
  }

  lemma ExpiredKeeps(s: State, a: nat, t: State)
    requires Inv(s) && ExpireStep(s, a, t) && t != s
    ensures Wired(t) && Exclusive(t) && Held(t) && BusyHasJob(t) && Staging(t)
  {
    hide WithinBudget;
    ExpiredKeepsWiring(s, a, t);
    hide ExpireStep, EntryWired, BusyHasJob;
    forall j | 0 <= j < |t.jobs| ensures JobStaged(t, t.jobs[j])
      && (InFlight(t.jobs[j]) ==> Holds(t, t.jobs[j].actor))
    {
      assert JobStaged(s, s.jobs[j]) && (InFlight(s.jobs[j]) ==> Holds(s, s.jobs[j].actor));
    }
  }

  lemma ExpiredKeepsWiring(s: State, a: nat, t: State)
    requires Inv(s) && ExpireStep(s, a, t) && t != s
    ensures t.jobs == s.jobs && t.shutdown == s.shutdown && t.now == s.now && |t.actors| == |s.actors|
    ensures t.actors[a] == s.actors[a].(stage := Leaving(Expired)) && s.now >= s.actors[a].since + IDLE_TTL_SECONDS
    ensures forall b | 0 <= b < |t.actors| && b != a :: t.actors[b] == s.actors[b]
    ensures Wired(t) && BusyHasJob(t)
    ensures forall k | k in s.entries && s.entries[k].busy :: k in t.entries && t.entries[k] == s.entries[k]
    ensures forall j | 0 <= j < |s.jobs| && s.jobs[j].actor == a && InFlight(s.jobs[j]) ::
      s.jobs[j].phase.Acquired? && s.actors[a].key.None?
    ensures s.actors[a].stage.Serving?
    ensures s.actors[a].key.None? ==> Job(a, Acquired) in s.jobs
  {
    hide WithinBudget, Exclusive, Staging;
    forall k | k in t.entries ensures EntryWired(t, k) && t.entries[k].id != a && t.entries[k] == s.entries[k] {
      assert EntryWired(s, k);
    }
    forall k | k in t.entries && t.entries[k].busy ensures HasJob(t, t.entries[k].id) {
      KeepsJob(s, t, s.entries[k].id);
    }
    forall j | 0 <= j < |s.jobs| && s.jobs[j].actor == a && InFlight(s.jobs[j]) ensures s.jobs[j].phase.Acquired?
      && s.actors[a].key.None?
    {
      assert Holds(s, a) && s.jobs[j] in s.jobs;
    }
  }

  lemma HangUpKeeps(s: State, a: nat, t: State)
    requires Inv(s) && HangUpStep(s, a, t)
    ensures Inv(t)
  {
    hide WithinBudget;
  }

  lemma QuitKeeps(s: State, a: nat, t: State)
    requires Inv(s) && QuitStep(s, a, t)
    ensures Inv(t)
  {
    hide WithinBudget;
  }

  lemma LeaveKeeps(s: State, a: nat, t: State)
    requires Inv(s) && LeaveStep(s, a, t)
    ensures Inv(t)
  {
    hide WithinBudget;
    if s.actors[a].key.Some? { OthersKeepBudget(s.entries, s.actors[a].key.value, a); }
    assert ActorStaged(s, s.actors[a]);
    assert forall b | 0 <= b < |t.actors| && b != a :: t.actors[b] == s.actors[b];
    forall k | k in t.entries ensures EntryWired(t, k) && t.entries[k].id != a && t.entries[k] == s.entries[k] {
      assert EntryWired(s, k);
    }
    forall k | k in t.entries && t.entries[k].busy ensures HasJob(t, t.entries[k].id) {
      KeepsJob(s, t, s.entries[k].id);
    }
    forall j | 0 <= j < |t.jobs| ensures JobStaged(t, t.jobs[j]) {
      assert JobStaged(s, s.jobs[j]);
    }
    forall j | 0 <= j < |t.jobs| && InFlight(t.jobs[j]) ensures Holds(t, t.jobs[j].actor) {
      assert Holds(s, s.jobs[j].actor);
    }
  }

  lemma StepKeeps(s: State, action: Action, t: State)
    requires Inv(s) && Step(s, action, t)
    ensures Inv(t)
  {
    hide Inv, AcquireStep, SendStep, ReceiveStep, FinishStep, ExpireStep, HangUpStep, QuitStep, LeaveStep;
    match action
    case Acquire(key) => AcquireKeeps(s, key, t);
    case Send(j) => SendKeeps(s, j, t);
    case Receive(j) => ReceiveKeeps(s, j, t);
    case Finish(j, bytes) => FinishKeeps(s, j, bytes, t);
    case Expire(a) => ExpireKeeps(s, a, t);
    case HangUp(a) => HangUpKeeps(s, a, t);
    case Quit(a) => QuitKeeps(s, a, t);
    case Leave(a) => LeaveKeeps(s, a, t);
    case BeginShutdown => EnvironmentKeeps(s, t);
    case Tick(now) => EnvironmentKeeps(s, t);
  }

  lemma EnvironmentKeeps(s: State, t: State)
    requires Inv(s) && t == s.(shutdown := t.shutdown, now := t.now) && (s.shutdown ==> t.shutdown) && s.now <= t.now
    ensures Inv(t)
  {
    hide WithinBudget;
    assert forall k | k in s.entries :: EntryWired(s, k) && EntryWired(t, k);
    assert forall j | 0 <= j < |s.jobs| :: JobStaged(s, s.jobs[j]) && JobStaged(t, t.jobs[j]);
    assert forall a | 0 <= a < |s.actors| :: ActorStaged(s, s.actors[a]) && ActorStaged(t, t.actors[a]);
    assert forall j | 0 <= j < |s.jobs| && InFlight(s.jobs[j]) ::
      Holds(s, s.jobs[j].actor) && Holds(t, t.jobs[j].actor);
    forall k | k in t.entries && t.entries[k].busy ensures HasJob(t, t.entries[k].id) {
      KeepsJob(s, t, s.entries[k].id);
    }
  }

  lemma {:induction false} RunsKeepTheInvariant(states: seq<State>, actions: seq<Action>, i: nat)
    requires Run(states, actions) && i < |states|
    ensures Inv(states[i])
  {
    hide Inv, Step;
    if i == 0 {
      InitHolds(states[0]);
    } else {
      RunsKeepTheInvariant(states, actions, i - 1);
      assert Step(states[i - 1], actions[i - 1], states[i - 1 + 1]);
      StepKeeps(states[i - 1], actions[i - 1], states[i]);
    }
  }

  lemma InitHolds(s: State)
    requires Init(s)
    ensures Inv(s)
  {
  }

  // ----- what every run keeps -----

  ghost predicate OnlyJob(s: State, a: nat, j: nat) {
    && j < |s.jobs| && s.jobs[j].actor == a && InFlight(s.jobs[j])
    && forall i | 0 <= i < |s.jobs| && s.jobs[i].actor == a && InFlight(s.jobs[i]) :: i == j
  }

  /** In every reachable state an entry is busy exactly while one request is in flight at its actor. */
  lemma BusyMeansOneJob(states: seq<State>, actions: seq<Action>, i: nat, key: SessionKey)
    requires Run(states, actions) && i < |states| && key in states[i].entries
    ensures states[i].entries[key].busy <==> exists j :: OnlyJob(states[i], states[i].entries[key].id, j)
  {
    hide WithinBudget, Step;
    RunsKeepTheInvariant(states, actions, i);
    var s := states[i];
    var a := s.entries[key].id;
    assert EntryWired(s, key);
    if s.entries[key].busy {
      assert HasJob(s, a);
      var j :| 0 <= j < |s.jobs| && s.jobs[j].actor == a && InFlight(s.jobs[j]);
      assert OnlyJob(s, a, j);
    } else {
      assert Holds(s, a) ==> !HasJob(s, a);
      assert forall j | 0 <= j < |s.jobs| && InFlight(s.jobs[j]) :: Holds(s, s.jobs[j].actor);
    }
  }

  /** Before shutdown a keyed request in flight owns its key's busy entry, and its actor is serving. */
  lemma KeyedJobsAreHeld(states: seq<State>, actions: seq<Action>, i: nat, j: nat)
    requires Run(states, actions) && i < |states| && !states[i].shutdown
    requires j < |states[i].jobs| && InFlight(states[i].jobs[j])
    ensures var s, a := states[i], states[i].jobs[j].actor;
      && a < |s.actors|
      && (s.actors[a].key.Some? ==>
            && s.actors[a].stage.Serving?
            && Owns(s.entries, s.actors[a].key.value, a) && s.entries[s.actors[a].key.value].busy)
  {
    hide WithinBudget, Step;
    RunsKeepTheInvariant(states, actions, i);
    var s := states[i];
    assert JobStaged(s, s.jobs[j]) && Holds(s, s.jobs[j].actor);
    assert ActorStaged(s, s.actors[s.jobs[j].actor]);
  }

  /** A sender never finds the slot full; it finds it closed only at shutdown or behind a keyless actor's timer. */
  lemma SendIsAccepted(states: seq<State>, actions: seq<Action>, i: nat)
    requires Run(states, actions) && i < |actions| && actions[i].Send?
    ensures var s, j := states[i], actions[i].job;
      && Has(s, j, Acquired)
      && Job(s.jobs[j].actor, Queued) !in s.jobs
      && (states[i + 1].jobs[j].phase == Queued <==> !s.actors[s.jobs[j].actor].stage.Gone?)
      && (s.actors[s.jobs[j].actor].key.Some? && !s.shutdown ==> states[i + 1].jobs[j].phase == Queued)
  {
    hide WithinBudget;
    assert Step(states[i], actions[i], states[i + 1]);
    hide Step;
    RunsKeepTheInvariant(states, actions, i);
    var s, j := states[i], actions[i].job;
    if !s.shutdown && s.actors[s.jobs[j].actor].key.Some? { KeyedJobsAreHeld(states, actions, i, j); }
  }

  /** Before shutdown a settled request was lost exactly when its keyless actor's timer fired before it was sent. */
  lemma LostMeansExpired(states: seq<State>, actions: seq<Action>, i: nat, j: nat)
    requires Run(states, actions) && i < |states| && !states[i].shutdown
    requires j < |states[i].jobs| && !InFlight(states[i].jobs[j])
    ensures var s, job := states[i], states[i].jobs[j];
      && job.actor < |s.actors|
      && var actor := s.actors[job.actor];
         && (Lost(job) <==> actor.key.None? && !actor.stage.Serving? && actor.stage.cause == Expired)
         && (Lost(job) ==> s.now >= actor.since + 600)
  {
    hide WithinBudget, Step;
    RunsKeepTheInvariant(states, actions, i);
    var s := states[i];
    assert JobStaged(s, s.jobs[j]) && ActorStaged(s, s.actors[s.jobs[j].actor]);
  }

  /** Ten quiet minutes between spawn and send lose a keyless request, with no shutdown anywhere. */
  lemma KeylessRequestCanBeLost()
    ensures exists states: seq<State>, actions: seq<Action> ::
      Run(states, actions) && !states[|actions|].shutdown && |states[|actions|].jobs| == 1
        && Lost(states[|actions|].jobs[0])
  {
    hide Readied, WithinBudget, Step;
    var s0 := State(map[], [], [], false, 0);
    var s1 := State(map[], [Actor(None, Serving, 0)], [Job(0, Acquired)], false, 0);
    var s2 := s1.(now := IDLE_TTL_SECONDS);
    var s3 := s2.(actors := [Actor(None, Leaving(Expired), 0)]);
    var s4 := s3.(jobs := [Job(0, Queued)]);
    var s5 := s4.(actors := [Actor(None, Gone(Expired), 0)], jobs := [Job(0, Dropped)]);
    var states := [s0, s1, s2, s3, s4, s5];
    var actions := [Acquire(None), Tick(IDLE_TTL_SECONDS), Expire(0), Send(0), Leave(0)];
    KeylessLossSteps(s0, s1, s2, s3, s4, s5);
    assert Run(states, actions);
    assert states[|actions|] == s5;
  }

  lemma KeylessLossSteps(s0: State, s1: State, s2: State, s3: State, s4: State, s5: State)
    requires s0 == State(map[], [], [], false, 0)
    requires s1 == State(map[], [Actor(None, Serving, 0)], [Job(0, Acquired)], false, 0)
    requires s2 == s1.(now := IDLE_TTL_SECONDS)
    requires s3 == s2.(actors := [Actor(None, Leaving(Expired), 0)])
    requires s4 == s3.(jobs := [Job(0, Queued)])
    requires s5 == s4.(actors := [Actor(None, Gone(Expired), 0)], jobs := [Job(0, Dropped)])
    ensures Step(s0, Acquire(None), s1) && Step(s1, Tick(IDLE_TTL_SECONDS), s2) && Step(s2, Expire(0), s3)
    ensures Step(s3, Send(0), s4) && Step(s4, Leave(0), s5)
  {
    hide Readied, WithinBudget;
    assert s2.jobs[0] == Job(0, Acquired);
  }

  /** Nothing but the end of its own turn, or shutdown of its own actor, changes a busy entry. */
  lemma ActiveEntriesSurvive(states: seq<State>, actions: seq<Action>, i: nat, key: SessionKey)
    requires Run(states, actions) && i < |actions|
    requires key in states[i].entries && states[i].entries[key].busy
    ensures var s, t, a := states[i], states[i + 1], states[i].entries[key].id;
      || (key in t.entries && t.entries[key] == s.entries[key])
      || (actions[i].Finish? && Has(s, actions[i].job, Running) && s.jobs[actions[i].job].actor == a)
      || (actions[i] == Leave(a) && s.shutdown)
  {
    hide WithinBudget, Readied;
    assert Step(states[i], actions[i], states[i + 1]);
    RunsKeepTheInvariant(states, actions, i);
    var s, t := states[i], states[i + 1];
    assert EntryWired(s, key);
    match actions[i]
    case Finish(j, bytes) =>
      var a := s.jobs[j].actor;
      if s.actors[a].key.Some? && s.entries[key].id != a {
        BusyEntriesSurvive(s.entries, s.actors[a].key.value, a, bytes, s.now, t.entries, key);
      }
    case Leave(a) => assert ActorStaged(s, s.actors[a]);
    case _ =>
  }

  function ActingActor(s: State, action: Action): Option<nat> {
    match action
    case Finish(j, _) => if j < |s.jobs| then Some(s.jobs[j].actor) else None
    case Expire(a) => Some(a)
    case HangUp(a) => Some(a)
    case Quit(a) => Some(a)
    case Leave(a) => Some(a)
    case _ => None
  }

  /** Once its key's entry is missing or another's, an actor's own steps leave the whole cache as it is. */
  lemma StaleActorsTouchNothing(states: seq<State>, actions: seq<Action>, i: nat)
    requires Run(states, actions) && i < |actions|
    ensures var s, acting := states[i], ActingActor(states[i], actions[i]);
      acting.Some? ==>
        && acting.value < |s.actors|
        && (s.actors[acting.value].key.None? || !Owns(s.entries, s.actors[acting.value].key.value, acting.value)
            ==> states[i + 1].entries == s.entries)
  {
    hide WithinBudget, Readied;
    assert Step(states[i], actions[i], states[i + 1]);
    RunsKeepTheInvariant(states, actions, i);
    var s, t := states[i], states[i + 1];
    if actions[i].Finish? {
      var a := s.jobs[actions[i].job].actor;
      if s.actors[a].key.Some? && !Owns(s.entries, s.actors[a].key.value, a) {
        StaleActorIsHarmless(s.entries, s.actors[a].key.value, a, actions[i].bytes, s.now, t.entries);
      }
    }
  }

  /** The cache is within its budget in every state of every run. */
  lemma AlwaysWithinBudget(states: seq<State>, actions: seq<Action>, i: nat)
    requires Run(states, actions) && i < |states|
    ensures |set key | key in states[i].entries && !states[i].entries[key].busy| <= 64
    ensures TotalBytes(states[i].entries) <= 67108864
  {
    hide Step;
    RunsKeepTheInvariant(states, actions, i);
  }

  predicate Later(p: Phase, q: Phase) {
    match p
    case Acquired => true
    case Queued => !q.Acquired? && !q.Refused?
    case Running => q.Running? || q.Replied?
    case _ => q == p
  }

  /** A request keeps its actor, only moves forward, and once settled stays as it is. */
  lemma JobsOnlyMoveForward(s: State, action: Action, t: State, j: nat)
    requires Step(s, action, t) && j < |s.jobs|
    ensures j < |t.jobs| && t.jobs[j].actor == s.jobs[j].actor && Later(s.jobs[j].phase, t.jobs[j].phase)
  {
    hide WithinBudget, Readied;
  }

  ghost predicate Advances(s: State, j: nat, action: Action, t: State)
    requires j < |s.jobs|
  {
    && Step(s, action, t) && j < |t.jobs|
    && t.jobs[j].phase == match s.jobs[j].phase case Acquired => Queued case Queued => Running case _ => Replied
  }

  /** Before shutdown every keyed request in flight has a step that moves it on: none waits for another. */
  lemma RequestsCanProceed(states: seq<State>, actions: seq<Action>, i: nat, j: nat)
    requires Run(states, actions) && i < |states| && !states[i].shutdown
    requires j < |states[i].jobs| && InFlight(states[i].jobs[j])
    requires var s := states[i]; s.jobs[j].actor < |s.actors| ==> s.actors[s.jobs[j].actor].key.Some?
    ensures exists action, t :: Advances(states[i], j, action, t)
  {
    hide WithinBudget, Readied, Step;
    KeyedJobsAreHeld(states, actions, i, j);
    RunsKeepTheInvariant(states, actions, i);
    CanProceed(states[i], j);
  }

  lemma CanProceed(s: State, j: nat)
    requires Inv(s) && j < |s.jobs| && InFlight(s.jobs[j])
    requires var actor := s.actors[s.jobs[j].actor]; actor.stage.Serving? && actor.key.Some?
    ensures exists action, t :: Advances(s, j, action, t)
  {
    hide WithinBudget, Readied;
    var a := s.jobs[j].actor;
    assert forall k | 0 <= k < |s.jobs| && k != j && s.jobs[k].actor == a :: !InFlight(s.jobs[k]);
    if s.jobs[j].phase.Acquired? {
      assert Advances(s, j, Send(j), Moved(s, j, Queued));
    } else if s.jobs[j].phase.Queued? {
      assert Advances(s, j, Receive(j), Moved(s, j, Running));
    } else {
      var after := ReadyHasAResult(s.entries, s.actors[a].key.value, a, 0, s.now);
      var t := Moved(s, j, Replied).(entries := after, actors := s.actors[a := s.actors[a].(since := s.now)]);
      assert Advances(s, j, Finish(j, 0), t);
    }
  }
}
