/**
 * The revocation store behind `RedisClient` (redisClient.ts): a finite map
 * from key to value with an optional absolute expiry in milliseconds.
 * An entry whose expiry has passed is treated as absent by every
 * operation, as the server does, whether or not it has been evicted yet.
 * The server clock is the explicit parameter `now`.
 */
module RevocationStore {
  import opened Wrappers

  datatype Entry = Entry(value: string, expiresAt: Option<nat>)

  type Store = map<string, Entry>

  /** The entry has not expired at time `now`: the server expires a key only once its clock is past the expiry. */
  predicate Live(e: Entry, now: nat) {
    e.expiresAt.None? || now <= e.expiresAt.value
  }

  /**
   * set(key, value, expiresInSeconds): create or overwrite. The TTL is applied
   * only when it is truthy, so an absent TTL and a TTL of 0 both store the
   * key with no expiry.
   */
  function Set(store: Store, key: string, value: string, expiresInSeconds: Option<nat>, now: nat): (r: Store)
    ensures key in r && r[key].value == value
    ensures r - {key} == store - {key}
  {
    var expiresAt := if expiresInSeconds.Some? && expiresInSeconds.value != 0
      then Some(now + expiresInSeconds.value * 1000) else None;
    store[key := Entry(value, expiresAt)]
  }

  /** get(key): the value of a present, unexpired key, otherwise null. */
  function Get(store: Store, key: string, now: nat): (r: Option<string>)
    ensures r.Some? <==> key in store && Live(store[key], now)
    ensures r.Some? ==> r.value == store[key].value
  {
    if key in store && Live(store[key], now) then Some(store[key].value) else None
  }

  /** The store after del(key) and the number of keys it removed. */
  datatype Deleted = Deleted(store: Store, removed: nat)

  /** del(key): remove the key; report 1 if it was there, 0 if not (which is not an error). */
  function Del(store: Store, key: string, now: nat): (r: Deleted)
    ensures key !in r.store
    ensures r.store == store - {key}
    ensures r.removed == (if Get(store, key, now).Some? then 1 else 0)
  {
    var removed := if key in store && Live(store[key], now) then 1 else 0;
    Deleted(store - {key}, removed)
  }

  /** exists(key): 1 if the key is present and unexpired, 0 otherwise; the store is not touched. */
  function Exists(store: Store, key: string, now: nat): (n: nat)
    ensures n <= 1
    ensures n == 1 <==> Get(store, key, now).Some?
  {
    if key in store && Live(store[key], now) then 1 else 0
  }

  /** A key set with a positive TTL reads back its value up to the expiry millisecond, and nothing after it. */
  lemma SetWithTtlThenGet(store: Store, key: string, value: string, ttl: nat, now: nat, t: nat)
    requires ttl > 0
    ensures t <= now + ttl * 1000 ==> Get(Set(store, key, value, Some(ttl), now), key, t) == Some(value)
    ensures t > now + ttl * 1000 ==> Get(Set(store, key, value, Some(ttl), now), key, t) == None
  {
  }

  /** A key set with no TTL, or with a TTL of 0, never expires. */
  lemma SetWithoutTtlThenGet(store: Store, key: string, value: string, ttl: Option<nat>, now: nat, t: nat)
    requires ttl.None? || ttl == Some(0)
    ensures Get(Set(store, key, value, ttl, now), key, t) == Some(value)
  {
  }

  /** set overwrites: the previous value of the key is gone. */
  lemma SetOverwrites(store: Store, key: string, v1: string, v2: string, ttl1: Option<nat>, ttl2: Option<nat>, now: nat)
    ensures Set(Set(store, key, v1, ttl1, now), key, v2, ttl2, now) == Set(store, key, v2, ttl2, now)
  {
  }

  /** set and del leave every other key as it was. */
  lemma OtherKeysUnchanged(store: Store, key: string, other: string, value: string, ttl: Option<nat>, now: nat, t: nat)
    requires other != key
    ensures Get(Set(store, key, value, ttl, now), other, t) == Get(store, other, t)
    ensures Get(Del(store, key, now).store, other, t) == Get(store, other, t)
  {
  }

  /** After del the key reads as absent at every time, and a second del removes nothing. */
  lemma DelThenGet(store: Store, key: string, now: nat, t: nat)
    ensures Get(Del(store, key, now).store, key, t).None?
    ensures Del(Del(store, key, now).store, key, t).removed == 0
    ensures Exists(Del(store, key, now).store, key, t) == 0
  {
  }
}
