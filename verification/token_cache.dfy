/**
 * The shared cache store the client keeps access tokens in: keys map to a
 * stored value and an absolute expiry. An entry is live while the clock is
 * before its expiry; an expired entry reads exactly like a missing one. A
 * put whose expiry is not after the current time stores nothing and forgets
 * the key, as the cache repository does for a non-positive time to live.
 */
module Caching {
  import opened PhpValues

  datatype CacheEntry = CacheEntry(value: Json, expiresAt: int)

  /** Whether `key` holds an entry that has not expired at `now`. */
  predicate IsLive(entries: map<string, CacheEntry>, key: string, now: int) {
    key in entries && now < entries[key].expiresAt
  }

  /** A read with default null: the live value, or null. */
  function ValueAt(entries: map<string, CacheEntry>, key: string, now: int): (v: Json)
    ensures IsLive(entries, key, now) ==> v == entries[key].value
    ensures !IsLive(entries, key, now) ==> v == JNull
  {
    if IsLive(entries, key, now) then entries[key].value else JNull
  }

  /** The entries after storing `value` under `key` until `expiresAt`. */
  function AfterPut(entries: map<string, CacheEntry>, key: string, value: Json, expiresAt: int, now: int)
    : (r: map<string, CacheEntry>)
    ensures forall k :: k != key ==> (k in r <==> k in entries)
    ensures forall k :: k != key && k in r ==> r[k] == entries[k]
    ensures expiresAt > now ==> key in r && r[key] == CacheEntry(value, expiresAt)
    ensures expiresAt <= now ==> key !in r
  {
    if expiresAt <= now then entries - {key} else entries[key := CacheEntry(value, expiresAt)]
  }

  /** Reading back before the expiry gives the value just stored. */
  lemma ReadAfterPut(entries: map<string, CacheEntry>, key: string, value: Json, expiresAt: int, now: int, later: int)
    requires now <= later < expiresAt
    ensures ValueAt(AfterPut(entries, key, value, expiresAt, now), key, later) == value
  {
  }

  /** From its expiry on, a stored value reads as null. */
  lemma ExpiredReadsAsNull(entries: map<string, CacheEntry>, key: string, value: Json, expiresAt: int, now: int, later: int)
    requires expiresAt <= later
    ensures ValueAt(AfterPut(entries, key, value, expiresAt, now), key, later) == JNull
  {
  }

  /** A put under one key leaves every other key's reads unchanged. */
  lemma PutLeavesOtherKeys(entries: map<string, CacheEntry>, key: string, value: Json, expiresAt: int, now: int,
                           other: string, at: int)
    requires other != key
    ensures ValueAt(AfterPut(entries, key, value, expiresAt, now), other, at) == ValueAt(entries, other, at)
  {
  }

  /** The store itself, shared by every client that uses it. */
  class TokenCache {
    var entries: map<string, CacheEntry>

    constructor ()
      ensures entries == map[]
    {
      entries := map[];
    }

    /** Reads `key` at time `now`; nothing changes. */
    method Get(key: string, now: int) returns (v: Json)
      ensures v == ValueAt(entries, key, now)
      ensures v != JNull ==> key in entries && now < entries[key].expiresAt
    {
      if key in entries && now < entries[key].expiresAt {
        v := entries[key].value;
      } else {
        v := JNull;
      }
    }

    /** Stores `value` under `key` until `expiresAt`, replacing any earlier entry. */
    method Put(key: string, value: Json, expiresAt: int, now: int)
      modifies this
      ensures entries == AfterPut(old(entries), key, value, expiresAt, now)
    {
      if expiresAt <= now {
        entries := entries - {key};
      } else {
        entries := entries[key := CacheEntry(value, expiresAt)];
      }
    }
  }
}
