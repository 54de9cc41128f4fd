/** The cache of session actors: busy and idle entries under a count budget and a byte budget. */
module SessionCache {
  import opened Wrappers

  const MAX_IDLE_SESSIONS := 64
  const MAX_CONTEXT_BYTES := 64 * 1024 * 1024

  datatype SessionKey = SessionKey(client: string, header: string, value: string)
  datatype Entry = Entry(id: nat, busy: bool, lastUsed: int, bytes: nat)
  type Entries = map<SessionKey, Entry>

  function IdleKeys(entries: Entries): set<SessionKey> {
    set key | key in entries && !entries[key].busy
  }

  ghost function TotalBytes(entries: Entries): nat
    decreases |entries|
  {
    if entries == map[] then 0
    else
      var key :| key in entries;
      assert |entries - {key}| < |entries|;
      entries[key].bytes + TotalBytes(entries - {key})
  }

  ghost predicate WithinBudget(entries: Entries) {
    |IdleKeys(entries)| <= MAX_IDLE_SESSIONS && TotalBytes(entries) <= MAX_CONTEXT_BYTES
  }

  predicate Owns(entries: Entries, key: SessionKey, id: nat) {
    key in entries && entries[key].id == id
  }

  function Released(entries: Entries, key: SessionKey, id: nat, bytes: nat, now: int): Entries {
    if Owns(entries, key, id) then entries[key := Entry(id, false, now, bytes)] else entries
  }

  ghost predicate OldestFirst(before: Entries, evicted: set<SessionKey>) {
    && evicted <= IdleKeys(before)
    && forall e, k | e in evicted && k in IdleKeys(before) - evicted :: before[e].lastUsed <= before[k].lastUsed
  }

  /** The last entry evicted is the youngest, and before it went the budget was exceeded. */
  ghost predicate LastWasNeeded(before: Entries, evicted: set<SessionKey>, last: SessionKey) {
    && last in evicted && last in before
    && (forall e | e in evicted && e in before :: before[e].lastUsed <= before[last].lastUsed)
    && !WithinBudget(before - (evicted - {last}))
  }

  ghost predicate EvictedSoFar(before: Entries, evicted: set<SessionKey>) {
    && OldestFirst(before, evicted)
    && (evicted != {} ==> exists last :: LastWasNeeded(before, evicted, last))
  }

  /** The shortest least-recently-used prefix of idle entries that fits the budget is gone. */
  ghost predicate Evicts(before: Entries, after: Entries) {
    var evicted := before.Keys - after.Keys;
    && after == before - evicted
    && (WithinBudget(after) || IdleKeys(after) == {})
    && EvictedSoFar(before, evicted)
  }

  /** What `ready` may leave behind. */
  ghost predicate Readied(before: Entries, key: SessionKey, id: nat, bytes: nat, now: int, after: Entries) {
    if bytes > MAX_CONTEXT_BYTES && Owns(before, key, id) then after == before - {key}
    else Evicts(Released(before, key, id, bytes, now), after)
  }

  function WithoutIdle(entries: Entries, key: SessionKey, id: nat): Entries {
    if Owns(entries, key, id) && !entries[key].busy then entries - {key} else entries
  }

  function WithoutOwn(entries: Entries, key: SessionKey, id: nat): Entries {
    if Owns(entries, key, id) then entries - {key} else entries
  }

  datatype Acquisition = SessionBusy | Reused(id: nat) | Spawned(id: nat)

  /** A key's idle actor is reused and a busy one refuses; a new key, and every keyless request, gets a new actor. */
  function Acquiring(entries: Entries, nextId: nat, key: Option<SessionKey>): Acquisition {
    if key.None? || key.value !in entries then Spawned(nextId)
    else if entries[key.value].busy then SessionBusy
    else Reused(entries[key.value].id)
  }

  function AfterAcquiring(entries: Entries, key: Option<SessionKey>, acquisition: Acquisition, now: int): Entries {
    match (key, acquisition)
    case (Some(k), Spawned(id)) => entries[k := Entry(id, true, now, 0)]
    case (Some(k), Reused(id)) => if k in entries then entries[k := entries[k].(busy := true)] else entries
    case _ => entries
  }

  class Cache {
    var entries: Entries
    var nextId: nat

    constructor ()
      ensures entries == map[] && nextId == 0
    {
      entries, nextId := map[], 0;
    }

    method Acquire(key: Option<SessionKey>, now: int) returns (r: Acquisition)
      modifies this
      ensures r == Acquiring(old(entries), old(nextId), key)
      ensures entries == AfterAcquiring(old(entries), key, r, now)
      ensures nextId == if r.Spawned? then old(nextId) + 1 else old(nextId)
      ensures if key.Some? && key.value in old(entries) then
          var entry := old(entries)[key.value];
          && (entry.busy ==> r == SessionBusy && entries == old(entries))
          && (!entry.busy ==> r == Reused(entry.id) && entries == old(entries)[key.value := entry.(busy := true)])
        else
          && r == Spawned(old(nextId))
          && (key.None? ==> entries == old(entries))
          && (key.Some? ==> entries == old(entries)[key.value := Entry(old(nextId), true, now, 0)])
    {
      if key.Some? && key.value in entries {
        var entry := entries[key.value];
        if entry.busy { return SessionBusy; }
        entries := entries[key.value := entry.(busy := true)];
        return Reused(entry.id);
      }
      var id := nextId;
      nextId := nextId + 1;
      if key.Some? { entries := entries[key.value := Entry(id, true, now, 0)]; }
      r := Spawned(id);
    }

    method SumBytes() returns (sum: nat)
      ensures sum == TotalBytes(entries)
    {
      sum := 0;
      var rest := entries;
      while rest != map[]
        invariant sum + TotalBytes(rest) == TotalBytes(entries)
        decreases |rest|
      {
        var key :| key in rest;
        BytesWithout(rest, key);
        sum := sum + rest[key].bytes;
        rest := rest - {key};
      }
    }

    method OldestIdle() returns (r: Option<SessionKey>)
      ensures r.None? <==> IdleKeys(entries) == {}
      ensures r.Some? ==> r.value in IdleKeys(entries) && forall k | k in IdleKeys(entries) ::
        entries[r.value].lastUsed <= entries[k].lastUsed
    {
      var rest := IdleKeys(entries);
      if rest == {} { return None; }
      var oldest :| oldest in rest;
      while rest != {}
        invariant rest <= IdleKeys(entries) && oldest in IdleKeys(entries)
        invariant forall k | k in IdleKeys(entries) - rest :: entries[oldest].lastUsed <= entries[k].lastUsed
      {
        var key :| key in rest;
        if entries[key].lastUsed < entries[oldest].lastUsed { oldest := key; }
        rest := rest - {key};
      }
      r := Some(oldest);
    }

    /** A finished turn frees its entry, or removes it when its history is too large; then idle entries make room. */
    method Ready(key: SessionKey, id: nat, bytes: nat, now: int)
      modifies this
      ensures nextId == old(nextId)
      ensures Readied(old(entries), key, id, bytes, now, entries)
    {
      hide Evicts;
      if bytes > MAX_CONTEXT_BYTES && key in entries && entries[key].id == id {
        entries := entries - {key};
        return;
      }
      if key in entries && entries[key].id == id {
        entries := entries[key := Entry(id, false, now, bytes)];
      }
      MakeRoom();
    }

    /** Active turns cannot be evicted: idle entries go, the least recently used first, until the budget is met. */
    method MakeRoom()
      modifies this
      ensures nextId == old(nextId)
      ensures Evicts(old(entries), entries)
    {
      hide TotalBytes, EvictedSoFar, Evicts;
      ghost var before := entries;
      ghost var evicted: set<SessionKey> := {};
      EvictedNone(before);
      while true
        invariant nextId == old(nextId)
        invariant entries == before - evicted && EvictedSoFar(before, evicted)
        decreases |entries|
      {
        var idle := |IdleKeys(entries)|;
        var total := SumBytes();
        if idle <= MAX_IDLE_SESSIONS && total <= MAX_CONTEXT_BYTES { break; }
        var oldest := OldestIdle();
        if oldest.None? { break; }
        EvictOneMore(before, evicted, oldest.value);
        assert |entries - {oldest.value}| < |entries|;
        entries := entries - {oldest.value};
        evicted := evicted + {oldest.value};
      }
      EvictionEnds(before, evicted);
    }

    /** Whether the expired actor may stop: not while its own entry is busy. */
    method RemoveIdle(key: SessionKey, id: nat) returns (stop: bool)
      modifies this
      ensures nextId == old(nextId)
      ensures entries == WithoutIdle(old(entries), key, id)
      ensures stop <==> !(Owns(old(entries), key, id) && old(entries)[key].busy)
    {
      if key in entries && entries[key].id == id {
        if entries[key].busy { return false; }
        entries := entries - {key};
      }
      stop := true;
    }

    /** A stopping actor takes its own entry with it and never a replacement's. */
    method Leave(key: SessionKey, id: nat)
      modifies this
      ensures nextId == old(nextId)
      ensures entries == WithoutOwn(old(entries), key, id)
    {
      if key in entries && entries[key].id == id { entries := entries - {key}; }
    }
  }

  lemma EvictedNone(before: Entries)
    ensures EvictedSoFar(before, {}) && before - {} == before
  {
  }

  lemma EvictOneMore(before: Entries, evicted: set<SessionKey>, oldest: SessionKey)
    requires EvictedSoFar(before, evicted) && !WithinBudget(before - evicted)
    requires oldest in IdleKeys(before - evicted)
    requires forall k | k in IdleKeys(before - evicted) ::
      (before - evicted)[oldest].lastUsed <= (before - evicted)[k].lastUsed
    ensures EvictedSoFar(before, evicted + {oldest})
    ensures before - (evicted + {oldest}) == (before - evicted) - {oldest}
  {
    hide WithinBudget;
    var more := evicted + {oldest};
    assert IdleKeys(before - evicted) == IdleKeys(before) - evicted;
    assert more - {oldest} == evicted;
    var left := before - evicted;
    assert forall k | k in left :: left[k] == before[k];
    assert OldestFirst(before, more);
    assert LastWasNeeded(before, more, oldest);
  }

  lemma EvictionEnds(before: Entries, evicted: set<SessionKey>)
    requires EvictedSoFar(before, evicted) && (WithinBudget(before - evicted) || IdleKeys(before - evicted) == {})
    ensures Evicts(before, before - evicted)
  {
    hide WithinBudget;
    assert before.Keys - (before - evicted).Keys == evicted;
  }

  lemma ReadyHasAResult(before: Entries, key: SessionKey, id: nat, bytes: nat, now: int) returns (after: Entries)
    ensures Readied(before, key, id, bytes, now, after)
  {
    hide Evicts, EvictedSoFar;
    if bytes > MAX_CONTEXT_BYTES && Owns(before, key, id) {
      after := before - {key};
    } else {
      var released := Released(before, key, id, bytes, now);
      EvictedNone(released);
      after := EvictTheRest(released, {});
    }
  }

  lemma EvictTheRest(before: Entries, evicted: set<SessionKey>) returns (after: Entries)
    requires EvictedSoFar(before, evicted)
    ensures Evicts(before, after)
    decreases |before - evicted|
  {
    hide WithinBudget, Evicts, EvictedSoFar;
    var left := before - evicted;
    if WithinBudget(left) || IdleKeys(left) == {} {
      EvictionEnds(before, evicted);
      return left;
    }
    var oldest := OldestOf(left, IdleKeys(left));
    EvictOneMore(before, evicted, oldest);
    assert |left - {oldest}| < |left|;
    after := EvictTheRest(before, evicted + {oldest});
  }

  lemma OldestOf(entries: Entries, keys: set<SessionKey>) returns (oldest: SessionKey)
    requires keys != {} && keys <= entries.Keys
    ensures oldest in keys && forall k | k in keys :: entries[oldest].lastUsed <= entries[k].lastUsed
    decreases |keys|
  {
    oldest :| oldest in keys;
    if keys != {oldest} {
      var rest := OldestOf(entries, keys - {oldest});
      if entries[rest].lastUsed < entries[oldest].lastUsed { oldest := rest; }
    }
  }

  // ----- budgets -----

  lemma {:induction false} BytesWithout(entries: Entries, key: SessionKey)
    requires key in entries
    ensures TotalBytes(entries) == entries[key].bytes + TotalBytes(entries - {key})
    decreases |entries|
  {
    var first :| first in entries && TotalBytes(entries) == entries[first].bytes + TotalBytes(entries - {first});
    if first != key {
      assert |entries - {first}| < |entries|;
      BytesWithout(entries - {first}, key);
      assert (entries - {first}) - {key} == (entries - {key}) - {first};
      assert |entries - {key}| < |entries|;
      BytesWithout(entries - {key}, first);
    }
  }

  lemma {:induction false} FewerEntriesFewerBytes(entries: Entries, gone: set<SessionKey>)
    ensures TotalBytes(entries - gone) <= TotalBytes(entries)
    ensures |IdleKeys(entries - gone)| <= |IdleKeys(entries)|
    decreases |gone|
  {
    if gone == {} {
      assert entries - gone == entries;
    } else {
      var key :| key in gone;
      FewerEntriesFewerBytes(entries, gone - {key});
      var more := entries - (gone - {key});
      assert entries - gone == more - {key};
      if key in more {
        BytesWithout(more, key);
      } else {
        assert more - {key} == more;
      }
      assert IdleKeys(entries - gone) <= IdleKeys(entries);
      SubsetSize(IdleKeys(entries - gone), IdleKeys(entries));
    }
  }

  lemma SubsetSize(a: set<SessionKey>, b: set<SessionKey>)
    requires a <= b
    ensures |a| <= |b|
  {
    assert b == a + (b - a);
  }

  lemma {:induction false} BytesUpdated(entries: Entries, key: SessionKey, entry: Entry)
    ensures TotalBytes(entries[key := entry]) == TotalBytes(entries - {key}) + entry.bytes
  {
    BytesWithout(entries[key := entry], key);
    assert entries[key := entry] - {key} == entries - {key};
  }

  /**
   * With every idle entry gone, only bytes that were in budget before are left: eviction never gives up over
   * budget.
   */
  lemma ReadyKeepsBudget(before: Entries, key: SessionKey, id: nat, bytes: nat, now: int, after: Entries)
    requires WithinBudget(before) && Readied(before, key, id, bytes, now, after)
    ensures WithinBudget(after)
  {
    if bytes > MAX_CONTEXT_BYTES && Owns(before, key, id) {
      FewerEntriesFewerBytes(before, {key});
    } else if !WithinBudget(after) {
      var released := Released(before, key, id, bytes, now);
      var evicted := released.Keys - after.Keys;
      if Owns(before, key, id) {
        assert key in after ==> key in IdleKeys(after);
        assert after == before - (evicted + {key});
        FewerEntriesFewerBytes(before, evicted + {key});
      } else {
        FewerEntriesFewerBytes(before, evicted);
      }
    }
  }

  lemma OthersKeepBudget(before: Entries, key: SessionKey, id: nat)
    requires WithinBudget(before)
    ensures WithinBudget(WithoutIdle(before, key, id)) && WithinBudget(WithoutOwn(before, key, id))
  {
    FewerEntriesFewerBytes(before, {key});
  }

  lemma AcquiringKeepsBudget(before: Entries, nextId: nat, key: Option<SessionKey>, now: int)
    requires WithinBudget(before)
    ensures WithinBudget(AfterAcquiring(before, key, Acquiring(before, nextId, key), now))
  {
    if key.Some? {
      var k := key.value;
      if k in before {
        var marked := before[k := before[k].(busy := true)];
        BytesUpdated(before, k, before[k].(busy := true));
        BytesWithout(before, k);
        assert IdleKeys(marked) == IdleKeys(before) - {k};
      } else {
        BytesUpdated(before, k, Entry(nextId, true, now, 0));
        assert before - {k} == before;
        assert IdleKeys(before[k := Entry(nextId, true, now, 0)]) == IdleKeys(before);
      }
    }
  }

  /** A stale actor, whose key now belongs to another, changes nothing whatever it calls. */
  lemma StaleActorIsHarmless(before: Entries, key: SessionKey, id: nat, bytes: nat, now: int, after: Entries)
    requires WithinBudget(before) && !Owns(before, key, id)
    ensures Readied(before, key, id, bytes, now, after) ==> after == before
    ensures WithoutIdle(before, key, id) == before == WithoutOwn(before, key, id)
  {
    if Readied(before, key, id, bytes, now, after) {
      var evicted := before.Keys - after.Keys;
      if evicted != {} {
        var last :| LastWasNeeded(before, evicted, last);
        FewerEntriesFewerBytes(before, evicted - {last});
      }
      assert before - {} == before;
    }
  }

  /** A busy entry other than the one released survives `ready` unchanged. */
  lemma BusyEntriesSurvive(before: Entries, key: SessionKey, id: nat, bytes: nat, now: int, after: Entries,
      other: SessionKey)
    requires Readied(before, key, id, bytes, now, after) && other in before && before[other].busy
      && !(other == key && before[key].id == id)
    ensures other in after && after[other] == before[other]
  {
    if !(bytes > MAX_CONTEXT_BYTES && Owns(before, key, id)) {
      assert other !in IdleKeys(Released(before, key, id, bytes, now));
    }
  }

  /** With distinct times of last use, what is evicted is determined. */
  lemma EvictionIsDetermined(before: Entries, a: Entries, b: Entries)
    requires Evicts(before, a) && Evicts(before, b)
    requires forall k, l | k in IdleKeys(before) && l in IdleKeys(before)
      && k != l :: before[k].lastUsed != before[l].lastUsed
    ensures a == b
  {
    EvictsNoMore(before, a, b);
    EvictsNoMore(before, b, a);
  }

  lemma EvictsNoMore(before: Entries, a: Entries, b: Entries)
    requires Evicts(before, a) && Evicts(before, b)
    requires forall k, l | k in IdleKeys(before) && l in IdleKeys(before)
      && k != l :: before[k].lastUsed != before[l].lastUsed
    ensures before.Keys - b.Keys <= before.Keys - a.Keys
  {
    hide WithinBudget, TotalBytes;
    var x, y := before.Keys - a.Keys, before.Keys - b.Keys;
    if extra :| extra in y && extra !in x {
      var last :| LastWasNeeded(before, y, last);
      YoungestStays(before, x, y, last, extra);
      assert extra in IdleKeys(a);
      var gone := (y - {last}) - x;
      assert before - (y - {last}) == a - gone;
      FewerIsWithin(a, gone);
    }
  }

  lemma FewerIsWithin(entries: Entries, gone: set<SessionKey>)
    requires WithinBudget(entries)
    ensures WithinBudget(entries - gone)
  {
    FewerEntriesFewerBytes(entries, gone);
  }

  lemma YoungestStays(before: Entries, x: set<SessionKey>, y: set<SessionKey>, last: SessionKey, extra: SessionKey)
    requires OldestFirst(before, x) && OldestFirst(before, y) && LastWasNeeded(before, y, last) && extra in y - x
    requires forall k, l | k in IdleKeys(before) && l in IdleKeys(before)
      && k != l :: before[k].lastUsed != before[l].lastUsed
    ensures x <= y - {last}
  {
    hide WithinBudget;
    forall e | e in x ensures e in y - {last} {
      assert before[e].lastUsed <= before[extra].lastUsed;
      assert before[extra].lastUsed <= before[last].lastUsed;
      assert e != extra;
    }
  }
}
