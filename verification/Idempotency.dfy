/**
  The idempotency map of the HTTP server: task ids remembered per key for a fixed time,
  with expired entries dropped on lookup and on store rather than by a sweeper.
 */
module Idempotency {
  import opened Prelude

  datatype Entry = Entry(taskId: string, expires: int)

  type Entries = map<string, Entry>

  /** Ten minutes, in nanoseconds. */
  const TTL := 600_000_000_000

  // ---- The full history, which nothing is ever dropped from ----

  datatype Remembered = Remembered(key: string, taskId: string, at: int)

  /** The latest store for the key, if it is not older than the retention time. */
  function Answer(log: seq<Remembered>, key: string, now: int): Option<string> {
    if log == [] then None
    else
      var last := log[|log| - 1];
      if last.key == key then (if now - last.at <= 10 * 60 * 1_000_000_000 then Some(last.taskId) else None)
      else Answer(log[..|log| - 1], key, now)
  }

  // ---- The map ----

  function Found(m: Entries, key: string, now: int): Option<string> {
    if key in m && now <= m[key].expires then Some(m[key].taskId) else None
  }

  function Looked(m: Entries, key: string, now: int): Entries {
    if key in m && now > m[key].expires then m - {key} else m
  }

  function Purged(m: Entries, now: int): Entries {
    map k | k in m && now <= m[k].expires :: m[k]
  }

  function StoredIn(m: Entries, key: string, taskId: string, now: int): Entries {
    Purged(m, now)[key := Entry(taskId, now + TTL)]
  }

  /** From `now` on the map answers every lookup as the history does. */
  ghost predicate Refines(m: Entries, log: seq<Remembered>, now: int) {
    forall key, t :: t >= now ==> Found(m, key, t) == Answer(log, key, t)
  }

  lemma LookupRefines(m: Entries, log: seq<Remembered>, from: int, key: string, now: int)
    requires Refines(m, log, from) && from <= now
    ensures Found(m, key, now) == Answer(log, key, now)
    ensures Refines(Looked(m, key, now), log, now)
  {
    var m' := Looked(m, key, now);
    forall k, t | t >= now ensures Found(m', k, t) == Answer(log, k, t) {
      assert Found(m, k, t) == Answer(log, k, t);
    }
  }

  lemma StoreRefines(m: Entries, log: seq<Remembered>, from: int, key: string, taskId: string, now: int)
    requires Refines(m, log, from) && from <= now
    ensures Refines(StoredIn(m, key, taskId, now), log + [Remembered(key, taskId, now)], now)
  {
    var m' := StoredIn(m, key, taskId, now);
    var log' := log + [Remembered(key, taskId, now)];
    assert log'[..|log'| - 1] == log;
    forall k, t | t >= now ensures Found(m', k, t) == Answer(log', k, t) {
      assert Found(m, k, t) == Answer(log, k, t);
    }
  }

  // ---- Any sequence of calls ----

  datatype Call = Lookup(key: string, at: int) | Store(key: string, taskId: string, at: int)

  predicate Monotone(calls: seq<Call>) {
    forall i, j :: 0 <= i < j < |calls| ==> calls[i].at <= calls[j].at
  }

  function MapAfter(calls: seq<Call>): Entries {
    if calls == [] then map[]
    else
      var m := MapAfter(calls[..|calls| - 1]);
      match calls[|calls| - 1]
      case Lookup(key, at) => Looked(m, key, at)
      case Store(key, taskId, at) => StoredIn(m, key, taskId, at)
  }

  function LogAfter(calls: seq<Call>): seq<Remembered> {
    if calls == [] then []
    else
      var l := LogAfter(calls[..|calls| - 1]);
      match calls[|calls| - 1]
      case Lookup(_, _) => l
      case Store(key, taskId, at) => l + [Remembered(key, taskId, at)]
  }

  lemma {:induction false} RunRefines(calls: seq<Call>, now: int)
    requires Monotone(calls) && (calls != [] ==> calls[|calls| - 1].at <= now)
    ensures Refines(MapAfter(calls), LogAfter(calls), now)
  {
    if calls != [] {
      var init, last := calls[..|calls| - 1], calls[|calls| - 1];
      RunRefines(init, last.at);
      match last
      case Lookup(key, at) => LookupRefines(MapAfter(init), LogAfter(init), last.at, key, at);
      case Store(key, taskId, at) => StoreRefines(MapAfter(init), LogAfter(init), last.at, key, taskId, at);
    }
  }

  /** After any sequence of stores and lookups under a clock that does not go back, a lookup
      answers as the full history would: no eviction ever changes an answer. */
  lemma {:induction false} LookupAnswersHistory(calls: seq<Call>, key: string, now: int)
    requires Monotone(calls) && (calls != [] ==> calls[|calls| - 1].at <= now)
    ensures Found(MapAfter(calls), key, now) == Answer(LogAfter(calls), key, now)
  {
    RunRefines(calls, now);
  }

  // ---- The map as a mutable object ----

  class IdempotencyStore {
    var entries: Entries
    /** Every store since creation, and the time of the last call. */
    ghost var log: seq<Remembered>
    ghost var clock: int

    ghost predicate Valid()
      reads this
    {
      Refines(entries, log, clock)
    }

    constructor ()
      ensures Valid() && log == [] && entries == map[]
    {
      entries, log, clock := map[], [], 0;
    }

    method LookupKey(key: string, now: int) returns (found: Option<string>)
      requires Valid() && clock <= now
      modifies this
      ensures Valid() && log == old(log) && clock == now
      ensures found == Answer(log, key, now)
      ensures entries == Looked(old(entries), key, now)
    {
      LookupRefines(entries, log, clock, key, now);
      clock := now;
      if key !in entries {
        return None;
      }
      if now > entries[key].expires {
        entries := entries - {key};
        return None;
      }
      found := Some(entries[key].taskId);
    }

    method StoreKey(key: string, taskId: string, now: int)
      requires Valid() && clock <= now
      modifies this
      ensures Valid() && clock == now
      ensures log == old(log) + [Remembered(key, taskId, now)]
      ensures entries == StoredIn(old(entries), key, taskId, now)
    {
      StoreRefines(entries, log, clock, key, taskId, now);
      var todo := entries.Keys;
      while todo != {}
        invariant todo <= entries.Keys
        invariant forall k :: k in entries ==> k in old(entries) && entries[k] == old(entries)[k]
        invariant forall k :: k in old(entries) ==>
                    (k in entries <==> k in todo || now <= old(entries)[k].expires)
        invariant log == old(log) && clock == old(clock)
        decreases todo
      {
        var k :| k in todo;
        if now > entries[k].expires {
          entries := entries - {k};
        }
        todo := todo - {k};
      }
      assert entries == Purged(old(entries), now);
      entries := entries[key := Entry(taskId, now + TTL)];
      log := log + [Remembered(key, taskId, now)];
      clock := now;
    }
  }
}
