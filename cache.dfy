/**
 * The plugin's single-entry secret cache (`secretCache`): one value, the
 * instant of its last write and a fixed time-to-live.
 *
 * Time is an integer clock in nanoseconds (the unit of Go's `time.Duration`);
 * the clock is passed in explicitly instead of being read from the system.
 */
module SecretCache {

  /** When the cache was last written: never (Go's zero `time.Time`), or at an instant. */
  datatype Stamp = Never | At(time: int)

  /** The abstract state of a cache. `ttl` is in nanoseconds and may be zero or negative. */
  datatype Entry = Entry(value: string, lastFetch: Stamp, ttl: int)

  /** A read at `now` is a hit when the cache was written and no more than `ttl` has elapsed since. */
  predicate Fresh(e: Entry, now: int)
    ensures Fresh(e, now) <==> e.lastFetch.At? && now <= e.lastFetch.time + e.ttl
  {
    e.lastFetch.At? && now - e.lastFetch.time <= e.ttl
  }

  /** What `get` answers at `now`: the value and true on a hit, the empty string and false on a miss. */
  function Lookup(e: Entry, now: int): (r: (string, bool))
    ensures r.1 <==> e.lastFetch.At? && now - e.lastFetch.time <= e.ttl
    ensures r.0 == (if r.1 then e.value else "")
  {
    if Fresh(e, now) then (e.value, true) else ("", false)
  }

  /** The cache after `set(v)` at `now`: new value, new stamp, same TTL. */
  function Record(e: Entry, v: string, now: int): (w: Entry)
    ensures w.value == v && w.lastFetch == At(now)
    ensures w.ttl == e.ttl
  {
    e.(value := v, lastFetch := At(now))
  }

  /** A cache that was never written misses at every instant. */
  lemma NeverWrittenMisses(e: Entry, now: int)
    requires e.lastFetch == Never
    ensures Lookup(e, now) == ("", false)
  {
  }

  /** After `set(v)` at `t`, a read at `now` (no earlier than `t`) returns `v` exactly while `now <= t + ttl`. */
  lemma LookupAfterRecord(e: Entry, v: string, t: int, now: int)
    requires t <= now
    ensures Lookup(Record(e, v, t), now).1 <==> now <= t + e.ttl
    ensures Lookup(Record(e, v, t), now).1 ==> Lookup(Record(e, v, t), now).0 == v
    ensures Record(e, v, t).ttl == e.ttl
  {
  }

  /** A read at the very instant of a write hits whenever the TTL is not negative, including a TTL of zero. */
  lemma RecordThenLookup(e: Entry, v: string, now: int)
    requires e.ttl >= 0
    ensures Lookup(Record(e, v, now), now) == (v, true)
  {
  }

  /** With a zero or negative TTL every read strictly after the last write misses. */
  lemma NonPositiveTtlExpires(e: Entry, now: int)
    requires e.ttl <= 0
    requires e.lastFetch.At? && e.lastFetch.time < now
    ensures Lookup(e, now) == ("", false)
  {
  }

  /** With a negative TTL no read on a clock that does not go backwards ever hits. */
  lemma NegativeTtlNeverHits(e: Entry, now: int)
    requires e.ttl < 0
    requires e.lastFetch.At? ==> e.lastFetch.time <= now
    ensures Lookup(e, now) == ("", false)
  {
  }

  /** Expiry is permanent until the next write: a miss at `now` stays a miss at every later instant. */
  lemma ExpiryIsPermanent(e: Entry, now: int, later: int)
    requires now <= later
    requires !Lookup(e, now).1
    ensures Lookup(e, later) == ("", false)
  {
  }

  /** The cache object. `get` and `set` in the source take a lock; here they run sequentially. */
  class Cache {
    var value: string
    var lastFetch: Stamp
    const ttl: int

    /** The abstract state of this cache. */
    ghost function State(): Entry
      reads this
    {
      Entry(value, lastFetch, ttl)
    }

    /** A cache as `New` builds it: empty and never written. */
    constructor (ttl: int)
      ensures State() == Entry("", Never, ttl)
    {
      value := "";
      lastFetch := Never;
      this.ttl := ttl;
    }

    /** `get`: reads only (no modifies clause) and answers as `Lookup` on the current state. */
    method Get(now: int) returns (v: string, ok: bool)
      ensures (v, ok) == Lookup(State(), now)
    {
      if lastFetch.Never? || now - lastFetch.time > ttl {
        return "", false;
      }
      return value, true;
    }

    /** `set`: overwrites the value and stamps the instant `now` at which it runs; the TTL is fixed. */
    method Set(v: string, now: int)
      modifies this
      ensures value == v && lastFetch == At(now)
      ensures State() == Record(old(State()), v, now)
    {
      value := v;
      lastFetch := At(now);
    }
  }
}
