/**
 * The expiring cache that backs the cached resolver, reduced to what the
 * resolver observes: a map from name to (value, insertion time). Entries
 * expire a fixed time after insertion, whatever their use; there is no
 * capacity bound, so nothing is ever evicted for size. Time is a parameter,
 * in nanoseconds like Go's `time.Duration`.
 */
module TtlCache {
  import opened Models

  const Hour: nat := 3_600_000_000_000

  /** The time-to-live of every resolver cache: 12 hours. */
  const TTL: nat := 12 * Hour

  datatype Entry<V> = Entry(value: V, insertedAt: nat)

  type Cache<V> = map<string, Entry<V>>

  /** An entry is served until its expiry instant and not after it (Go's `now.After(expiresAt)` is strict). */
  predicate Fresh<V>(c: Cache<V>, key: string, now: nat)
  {
    key in c && now <= c[key].insertedAt + TTL
  }

  /** `Get`: the cached value when the key is present and unexpired. */
  function Get<V>(c: Cache<V>, key: string, now: nat): Option<V>
  {
    if Fresh(c, key, now) then Some(c[key].value) else None
  }

  /** `Add`: store a value, restarting the key's time-to-live at `now`. */
  function Add<V>(c: Cache<V>, key: string, value: V, now: nat): Cache<V>
  {
    c[key := Entry(value, now)]
  }

  /** A value added at time t is served at every time up to t + TTL and at none after. */
  lemma GetAfterAdd<V>(c: Cache<V>, key: string, value: V, t: nat, now: nat)
    ensures Get(Add(c, key, value, t), key, now) == if now <= t + TTL then Some(value) else None
  {
  }

  /** Adding under one key leaves every other key's answer as it was: no entry is evicted for size. */
  lemma AddKeepsOtherKeys<V>(c: Cache<V>, key: string, value: V, t: nat, other: string, now: nat)
    requires other != key
    ensures Get(Add(c, key, value, t), other, now) == Get(c, other, now)
  {
  }

  /** Staleness is bounded: a served value was inserted no more than TTL before `now`. */
  lemma HitIsWithinTtl<V>(c: Cache<V>, key: string, now: nat)
    requires Get(c, key, now).Some?
    ensures key in c && now - TTL <= c[key].insertedAt
    ensures Get(c, key, now).value == c[key].value
  {
  }
}
