/**
 * The process-wide TTL cache of lib/cache.ts. The store is an object whose
 * `entries` map is replaced by every write, delete and clear; the clock
 * (`Date.now()`) and the host's time-zone offset are parameters.
 */
module Cache {
  import opened Wrappers

  const MsPerMinute: int := 60 * 1000
  const MsPerDay: int := 24 * 60 * MsPerMinute

  /** The policy's reference zone, UTC-6, as a `getTimezoneOffset`-style offset in minutes. */
  const CstOffsetMinutes: int := -6 * 60

  const Sunday: int := 0
  const Friday: int := 5
  const Saturday: int := 6

  const SaturdayTtl: int := 5 * 60 * 1000
  const WeekendEdgeTtl: int := 30 * 60 * 1000
  const DefaultTtl: int := 24 * 60 * 60 * 1000

  /** `Date.prototype.getUTCDay`: 0 is Sunday; 1 January 1970 was a Thursday. */
  function UtcWeekday(t: int): (d: int)
    ensures 0 <= d < 7
  {
    (t / MsPerDay + 4) % 7
  }

  /**
   * `getDay()` on a host whose `getTimezoneOffset()` is `localOffset` minutes
   * (positive west of Greenwich): the weekday of the local wall-clock time.
   */
  function LocalWeekday(t: int, localOffset: int): int {
    UtcWeekday(t - localOffset * MsPerMinute)
  }

  /**
   * The weekday `getCacheTTL` computes: it shifts the instant by the host offset
   * plus the UTC-6 offset and reads the local weekday of the shifted instant.
   * The host offset cancels, leaving the weekday of the instant in UTC-6.
   */
  function PolicyWeekday(now: int, localOffset: int): (d: int)
    ensures 0 <= d < 7
    ensures d == UtcWeekday(now + CstOffsetMinutes * MsPerMinute)
  {
    var cstTime := now + (localOffset + CstOffsetMinutes) * MsPerMinute;
    LocalWeekday(cstTime, localOffset)
  }

  /** The lifetime, in milliseconds, for a weekday of the reference zone. */
  function TtlForWeekday(day: int): (ms: int)
    requires 0 <= day < 7
    ensures day == Saturday ==> ms == 300000
    ensures (day == Friday || day == Sunday) ==> ms == 1800000
    ensures day != Saturday && day != Friday && day != Sunday ==> ms == 86400000
  {
    if day == Saturday then SaturdayTtl
    else if day == Sunday || day == Friday then WeekendEdgeTtl
    else DefaultTtl
  }

  /** `getCacheTTL()` at instant `now` on a host with offset `localOffset`. */
  function CacheTtl(now: int, localOffset: int): (ms: int)
    ensures ms == SaturdayTtl || ms == WeekendEdgeTtl || ms == DefaultTtl
    ensures ms > 0
  {
    TtlForWeekday(PolicyWeekday(now, localOffset))
  }

  /** Every lifetime is positive, and Saturday < Friday/Sunday < any other day. */
  lemma TtlOrdering(day: int)
    requires 0 <= day < 7
    ensures TtlForWeekday(day) > 0
    ensures TtlForWeekday(Saturday) < TtlForWeekday(Friday) == TtlForWeekday(Sunday)
    ensures day != Saturday && day != Friday && day != Sunday ==> TtlForWeekday(Sunday) < TtlForWeekday(day)
  {
  }

  /** The lifetime does not depend on the time zone the server runs in. */
  lemma CacheTtlIgnoresHostZone(now: int, offsetA: int, offsetB: int)
    ensures CacheTtl(now, offsetA) == CacheTtl(now, offsetB)
  {
  }

  datatype Entry<T> = Entry(data: T, timestamp: int, expiresAt: int)

  /** One row of `getCacheStats().entries`. */
  datatype StatRow = StatRow(key: string, age: int, expiresIn: int)

  // ---- The store's transitions as functions of its contents ----

  /** What `getFromCache(key)` returns at time `now`. */
  function Read<T>(entries: map<string, Entry<T>>, key: string, now: int): (r: Option<T>)
    ensures r.Some? <==> key in entries && now <= entries[key].expiresAt
    ensures r.Some? ==> r.value == entries[key].data
  {
    if key !in entries then None
    else if now > entries[key].expiresAt then None
    else Some(entries[key].data)
  }

  /** The contents after `getFromCache(key)` at `now`: an expired entry for `key` is dropped. */
  function AfterRead<T>(entries: map<string, Entry<T>>, key: string, now: int): (m: map<string, Entry<T>>)
    ensures key in entries && now > entries[key].expiresAt ==> m == entries - {key}
    ensures !(key in entries && now > entries[key].expiresAt) ==> m == entries
  {
    if key in entries && now > entries[key].expiresAt then entries - {key} else entries
  }

  /** The contents after `setInCache(key, data)` at `now`. */
  function Put<T>(entries: map<string, Entry<T>>, key: string, data: T, now: int, localOffset: int)
    : (m: map<string, Entry<T>>)
    ensures key in m && m[key].data == data && m[key].timestamp == now
    ensures m[key].expiresAt == now + CacheTtl(now, localOffset) > now
    ensures m.Keys == entries.Keys + {key}
    ensures forall k :: k in entries && k != key ==> m[k] == entries[k]
  {
    entries[key := Entry(data, now, now + CacheTtl(now, localOffset))]
  }

  /** A read returns exactly what was stored, up to and including the expiry instant. */
  lemma ReadAfterPut<T>(entries: map<string, Entry<T>>, key: string, data: T, t: int, localOffset: int, t': int)
    requires t' <= t + CacheTtl(t, localOffset)
    ensures Read(Put(entries, key, data, t, localOffset), key, t') == Some(data)
    ensures AfterRead(Put(entries, key, data, t, localOffset), key, t') == Put(entries, key, data, t, localOffset)
  {
  }

  /** After its lifetime the entry reads as absent and is dropped, other keys untouched. */
  lemma ReadAfterExpiry<T>(entries: map<string, Entry<T>>, key: string, data: T, t: int, localOffset: int, t': int)
    requires t' > t + CacheTtl(t, localOffset)
    ensures Read(Put(entries, key, data, t, localOffset), key, t') == None
    ensures AfterRead(Put(entries, key, data, t, localOffset), key, t') == entries - {key}
  {
    var m := Put(entries, key, data, t, localOffset);
    assert m - {key} == entries - {key};
  }

  /** Key order with `key` removed (`Map.prototype.delete`). */
  function Without(order: seq<string>, key: string): (r: seq<string>)
    ensures forall k :: k in r <==> k in order && k != key
    ensures |r| <= |order|
  {
    if order == [] then []
    else if order[0] == key then Without(order[1..], key)
    else [order[0]] + Without(order[1..], key)
  }

  ghost predicate Distinct(s: seq<string>) {
    forall i, j :: 0 <= i < j < |s| ==> s[i] != s[j]
  }

  lemma {:induction false} WithoutDistinct(order: seq<string>, key: string)
    requires Distinct(order)
    ensures Distinct(Without(order, key))
  {
    if order != [] {
      WithoutDistinct(order[1..], key);
      if order[0] != key {
        assert order[0] !in order[1..];
      }
    }
  }

  /**
   * The cache store: `entries` is the contents of the `Map`, `order` its key
   * iteration order (insertion order; overwriting a key keeps its place).
   */
  class CacheStore<T> {
    var entries: map<string, Entry<T>>
    var order: seq<string>

    ghost predicate Valid()
      reads this
    {
      Distinct(order) && (forall k :: k in entries <==> k in order)
    }

    constructor ()
      ensures Valid() && entries == map[] && order == []
    {
      entries := map[];
      order := [];
    }

    /** `getFromCache(key)` at time `now`. */
    method Get(key: string, now: int) returns (r: Option<T>)
      requires Valid()
      modifies this
      ensures Valid()
      ensures r == Read(old(entries), key, now)
      ensures entries == AfterRead(old(entries), key, now)
      ensures order == if entries == old(entries) then old(order) else Without(old(order), key)
    {
      if key !in entries {
        return None;
      }
      var entry := entries[key];
      if now > entry.expiresAt {
        WithoutDistinct(order, key);
        entries := entries - {key};
        order := Without(order, key);
        return None;
      }
      return Some(entry.data);
    }

    /** `setInCache(key, data)` at time `now` on a host with offset `localOffset`. */
    method Set(key: string, data: T, now: int, localOffset: int)
      requires Valid()
      modifies this
      ensures Valid()
      ensures entries == Put(old(entries), key, data, now, localOffset)
      ensures order == if key in old(entries) then old(order) else old(order) + [key]
    {
      var ttl := CacheTtl(now, localOffset);
      if key !in entries {
        order := order + [key];
      }
      entries := entries[key := Entry(data, now, now + ttl)];
    }

    /** `clearCache()`. */
    method Clear()
      requires Valid()
      modifies this
      ensures Valid() && entries == map[] && order == []
    {
      entries := map[];
      order := [];
    }

    /** `getCacheStats()` at time `now`: the size and one row per key, in key order. */
    function Stats(now: int): (r: (int, seq<StatRow>))
      reads this
      requires Valid()
      ensures r.0 == |entries| == |r.1| && |r.1| == |order|
      ensures forall i :: 0 <= i < |r.1| ==>
        var k := order[i];
        r.1[i] == StatRow(k, now - entries[k].timestamp, entries[k].expiresAt - now)
    {
      KeysCount(order, entries.Keys);
      var ks, es := order, entries;
      (|es|, seq(|ks|, i requires 0 <= i < |ks| && ks[i] in es =>
                   StatRow(ks[i], now - es[ks[i]].timestamp, es[ks[i]].expiresAt - now)))
    }
  }

  /** A list of distinct keys that covers a set exactly has the set's size. */
  lemma {:induction false} KeysCount(order: seq<string>, keys: set<string>)
    requires Distinct(order)
    requires forall k :: k in keys <==> k in order
    ensures |keys| == |order|
  {
    if order != [] {
      var rest := order[1..];
      assert Distinct(rest);
      assert forall k :: k in keys - {order[0]} <==> k in rest;
      KeysCount(rest, keys - {order[0]});
    } else {
      assert keys == {};
    }
  }

  /** After `clearCache()`, `getCacheStats()` reports size 0 and no rows. */
  method ClearThenStats<T>(store: CacheStore<T>, now: int) returns (size: int, rows: seq<StatRow>)
    requires store.Valid()
    modifies store
    ensures size == 0 && rows == []
  {
    store.Clear();
    var r := store.Stats(now);
    size, rows := r.0, r.1;
  }
}
