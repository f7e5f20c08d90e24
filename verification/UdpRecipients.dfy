/** The recipient cache of the UDP server sender, changed in place. */
module UdpRecipients {
  import opened RecipientSteps
  import opened RecipientClaims

  class UdpServerSender {
    const max: nat
    const ttl: real
    var cache: seq<Entry>
    ghost var past: seq<Op>

    ghost predicate Valid()
      reads this
    {
      cache == Run(past, max, ttl)
    }

    constructor (max: nat, ttl: real)
      ensures Valid() && this.max == max && this.ttl == ttl && past == []
    {
      this.max, this.ttl := max, ttl;
      cache, past := [], [];
    }

    method RegisterSender(addr: string, now: real)
      requires Valid()
      modifies this
      ensures Valid() && past == old(past) + [Register(addr, now)]
      ensures cache == Newest(Sighted(old(cache), addr, now), max)
    {
      cache := Without(cache, addr) + [Entry(addr, now)];
      Evict();
      RunMore(past, Register(addr, now), max, ttl);
      past := past + [Register(addr, now)];
    }

    /** Take out the oldest entries down to the size. */
    method Evict()
      modifies this`cache
      ensures cache == Newest(old(cache), max)
    {
      ghost var k := 0;
      while |cache| > max
        invariant k <= |old(cache)| && cache == old(cache)[k..]
        invariant |cache| >= max || k == 0
      {
        DropOne(old(cache), k);
        cache := cache[1..];
        k := k + 1;
      }
    }

    /** Collect the expired recipients, then take each out; the clock is monotonic. */
    method CleanupExpired(now: real)
      requires Valid() && Timely(past, now)
      modifies this
      ensures Valid() && past == old(past) + [Cleanup(now)]
      ensures cache == Unexpired(old(cache), now, ttl)
    {
      CacheRecent(past, max, ttl, now);
      ghost var k := ExpiredAreOldest(cache, now, ttl);
      var expired := ExpiredRecipients(now, k);
      TakeOut(expired);
      RunMore(past, Cleanup(now), max, ttl);
      past := past + [Cleanup(now)];
    }

    method ExpiredRecipients(now: real, ghost k: nat) returns (expired: seq<string>)
      requires ExpiredUpTo(cache, k, now, ttl)
      ensures |expired| == k && forall j | 0 <= j < k :: expired[j] == cache[j].addr
    {
      expired := [];
      for i := 0 to |cache|
        invariant |expired| == if i < k then i else k
        invariant forall j | 0 <= j < |expired| :: expired[j] == cache[j].addr
      {
        if now - cache[i].at > ttl {
          expired := expired + [cache[i].addr];
        }
      }
    }

    method TakeOut(addrs: seq<string>)
      requires Recent(cache) && |addrs| <= |cache|
      requires forall j | 0 <= j < |addrs| :: addrs[j] == cache[j].addr
      modifies this`cache
      ensures cache == old(cache)[|addrs|..]
    {
      for i := 0 to |addrs|
        invariant cache == old(cache)[i..] && Recent(cache)
      {
        WithoutOldest(cache);
        assert [cache[0]] + cache[1..] == cache;
        RecentParts([cache[0]], cache[1..]);
        cache := Without(cache, addrs[i]);
      }
    }
  }
}
