/**
 The limiter as the objects that are updated in place: a bucket per key, the
 shared overflow bucket and the map that holds the buckets. The clock is a
 parameter; the mutex makes every call atomic.
 */
module LimiterObjects {
  import opened Finite
  import opened RateLimit

  /** A token bucket together with the time its key was last seen. */
  class Bucket {
    const cfg: Config
    var credit: int
    var last: int
    var lastSeen: int

    constructor (cfg: Config, now: int)
      ensures View() == Entry(Tokens(cfg.Cap(), now), now) && this.cfg == cfg
    {
      this.cfg, credit, last, lastSeen := cfg, cfg.Cap(), now, now;
    }

    function View(): Entry
      reads this
    {
      Entry(Tokens(credit, last), lastSeen)
    }

    method ReserveN(now: int) returns (delay: int)
      modifies this`credit, this`last
      ensures (View().tokens, delay) == Reserve(cfg, old(View().tokens), now)
    {
      credit, last := CreditAt(cfg, View().tokens, now) - cfg.every, now;
      delay := if credit < 0 then -credit else 0;
    }

    method Cancel(now: int)
      modifies this`credit, this`last
      ensures View().tokens == CancelAt(cfg, old(View().tokens), now)
    {
      credit, last := Min(cfg.Cap(), CreditAt(cfg, View().tokens, now) + cfg.every), now;
    }

    /** Pays for a request now, or gives the payment back and says how long
        to wait. */
    method TryNow(now: int) returns (allowed: bool, retryAfter: int)
      modifies this`credit, this`last
      ensures View().tokens == Try(cfg, old(View().tokens), now).0
      ensures Try(cfg, old(View().tokens), now).1 == if allowed then Allowed else Denied(retryAfter)
      ensures allowed ==> retryAfter == 0
    {
      var delay := ReserveN(now);
      if delay == 0 {
        return true, 0;
      }
      Cancel(now);
      return false, RetryAfter(delay);
    }
  }

  class Limiter {
    const cfg: Config
    const overflow: Bucket
    var buckets: map<Key, Bucket>
    var lastSweep: int

    /** No bucket serves two keys, or a key and the overflow. */
    ghost predicate Separate()
      reads this
    {
      && overflow.cfg == cfg
      && (forall k :: k in buckets ==> buckets[k] != overflow && buckets[k].cfg == cfg)
      && (forall k, k' :: k in buckets && k' in buckets && k != k' ==> buckets[k] != buckets[k'])
    }

    /** The objects show the abstract state s. */
    ghost predicate Shows(s: State)
      reads this, buckets.Values, overflow
    {
      && ShowsAll(buckets, s.buckets)
      && s.overflow == overflow.View().tokens
      && s.lastSweep == lastSweep
    }

    static ghost predicate ShowsAll(bs: map<Key, Bucket>, entries: map<Key, Entry>)
      reads bs.Values
    {
      bs.Keys == entries.Keys && forall k :: k in bs ==> bs[k].View() == entries[k]
    }

    constructor (cfg: Config)
      ensures this.cfg == cfg && fresh(overflow) && Separate() && Shows(Initial(cfg))
    {
      this.cfg := cfg;
      overflow := new Bucket(cfg, 0);
      buckets, lastSweep := map[], 0;
    }

    lemma SameSize(s: State)
      requires Shows(s)
      ensures |s.buckets| == |buckets|
    {
      assert |s.buckets| == |s.buckets.Keys| && |buckets| == |buckets.Keys|;
    }

    /** Drops every bucket idle long enough to have refilled. */
    method Sweep(now: int)
      modifies this
      ensures lastSweep == now
      ensures buckets.Keys <= old(buckets).Keys
      ensures forall k :: k in buckets ==> buckets[k] == old(buckets)[k]
      ensures forall k :: k in old(buckets) ==>
        (k in buckets <==> now - old(buckets)[k].lastSeen < cfg.IdleTtl())
    {
      var all := buckets;
      var keys := buckets.Keys;
      while keys != {}
        invariant keys <= buckets.Keys <= all.Keys
        invariant forall k :: k in buckets ==> buckets[k] == all[k]
        invariant forall k :: k in buckets && k !in keys ==> now - all[k].lastSeen < cfg.IdleTtl()
        invariant forall k :: k in all && k !in buckets ==> now - all[k].lastSeen >= cfg.IdleTtl()
        decreases keys
      {
        var key :| key in keys;
        keys := keys - {key};
        if now - buckets[key].lastSeen >= cfg.IdleTtl() {
          buckets := buckets - {key};
        }
      }
      lastSweep := now;
    }

    lemma SweptShows(all: map<Key, Bucket>, s: State, now: int)
      requires ShowsAll(all, s.buckets)
      requires buckets.Keys <= all.Keys && forall k :: k in buckets ==> buckets[k] == all[k]
      requires forall k :: k in all ==> (k in buckets <==> now - all[k].lastSeen < cfg.IdleTtl())
      ensures ShowsAll(buckets, RateLimit.Sweep(cfg, s, now).buckets)
    {
      var swept := RateLimit.Sweep(cfg, s, now).buckets;
      forall k ensures k in swept <==> k in buckets {
        if k in all { assert all[k].View() == s.buckets[k]; }
      }
      forall k | k in buckets ensures buckets[k].View() == swept[k] {
        assert all[k].View() == s.buckets[k];
      }
    }

    method SweepIfDue(now: int, interval: int, ghost s: State)
      requires Separate() && Shows(s)
      modifies this
      ensures Separate() && Shows(RateLimit.SweepIfDue(cfg, s, now, interval))
      ensures buckets.Values <= old(buckets.Values)
    {
      if now - lastSweep >= interval {
        Sweep(now);
        SweptShows(old(buckets), s, now);
      }
    }

    /** Notes that the key's bucket was seen. */
    method Touch(key: Key, now: int, ghost s: State) returns (b: Bucket)
      requires Separate() && Shows(s) && key in buckets
      modifies buckets[key]
      ensures Separate() && b == buckets[key]
      ensures Shows(s.(buckets := s.buckets[key := s.buckets[key].(lastSeen := now)]))
    {
      b := buckets[key];
      b.lastSeen := now;
    }

    /** Adds a full bucket for a new key. */
    method Add(key: Key, now: int, ghost s: State) returns (b: Bucket)
      requires Separate() && Shows(s) && key !in buckets
      modifies this
      ensures Separate() && fresh(b) && buckets == old(buckets)[key := b]
      ensures Shows(s.(buckets := s.buckets[key := Entry(Tokens(cfg.Cap(), now), now)]))
    {
      b := new Bucket(cfg, now);
      buckets := buckets[key := b];
    }

    /** The key's own bucket, made if there is room, or the overflow bucket. */
    method BucketFor(key: Key, now: int, ghost s: State) returns (b: Bucket)
      requires Separate() && Shows(s)
      modifies this, buckets.Values
      ensures Separate() && Shows(RateLimit.BucketFor(cfg, s, key, now))
      ensures b == if key in buckets then buckets[key] else overflow
      ensures b == overflow || b in old(buckets.Values) || fresh(b)
    {
      if key in buckets {
        b := Touch(key, now, s);
        return;
      }
      ghost var s' := s;
      SameSize(s);
      if |buckets| >= cfg.maxKeys {
        SweepIfDue(now, SECOND, s);
        s' := RateLimit.SweepIfDue(cfg, s, now, SECOND);
        SameSize(s');
        if |buckets| >= cfg.maxKeys {
          return overflow;
        }
      }
      b := Add(key, now, s');
    }

    /** The bucket that answers the request, tried. */
    method Spend(b: Bucket, key: Key, now: int, ghost s: State) returns (allowed: bool, retryAfter: int)
      requires Separate() && Shows(s)
      requires b == if key in buckets then buckets[key] else overflow
      modifies b
      ensures Separate() && Shows(RateLimit.Spend(cfg, s, key, now).0)
      ensures RateLimit.Spend(cfg, s, key, now).1.verdict == if allowed then Allowed else Denied(retryAfter)
      ensures allowed ==> retryAfter == 0
    {
      allowed, retryAfter := b.TryNow(now);
    }

    method Allow(key: Key, now: int, ghost s: State) returns (allowed: bool, retryAfter: int)
      requires Separate() && Shows(s)
      modifies this, buckets.Values, overflow
      ensures Separate() && Shows(RateLimit.Allow(cfg, s, key, now).0)
      ensures RateLimit.Allow(cfg, s, key, now).1.verdict == if allowed then Allowed else Denied(retryAfter)
      ensures allowed ==> retryAfter == 0
    {
      SweepIfDue(now, SWEEP_INTERVAL, s);
      ghost var s1 := RateLimit.SweepIfDue(cfg, s, now, SWEEP_INTERVAL);
      var b := BucketFor(key, now, s1);
      allowed, retryAfter := Spend(b, key, now, RateLimit.BucketFor(cfg, s1, key, now));
    }
  }
}
