/** The cache against the list of all sightings. */
module RecipientClaims {
  import opened Splitting
  import opened Framing
  import opened RecipientSteps

  /** Every sender ever seen, in the order of the last sightings. */
  function Recency(ops: seq<Op>): seq<Entry> {
    if ops == [] then []
    else
      var n := |ops| - 1;
      if ops[n].Register? then Sighted(Recency(ops[..n]), ops[n].addr, ops[n].now) else Recency(ops[..n])
  }

  /** The clock does not go back, and has not passed `now`. */
  ghost predicate Timely(ops: seq<Op>, now: real) {
    ops != [] ==> var n := |ops| - 1; ops[n].now <= now && Timely(ops[..n], ops[n].now)
  }

  lemma {:induction false} RecencyRecent(ops: seq<Op>, now: real)
    requires Timely(ops, now)
    ensures Recent(Recency(ops)) && NotAfter(Recency(ops), now)
  {
    if ops != [] {
      var n := |ops| - 1;
      RecencyRecent(ops[..n], ops[n].now);
      if ops[n].Register? {
        SightedRecent(Recency(ops[..n]), ops[n].addr, ops[n].now);
      }
    }
  }

  /**
   The cache is the newest part of the recency list and within its size; where it is shorter
   than it might be, everything older than it has expired.
   */
  ghost predicate Agrees(recency: seq<Entry>, lost: seq<Entry>, cache: seq<Entry>, max: nat, ttl: real, now: real) {
    recency == lost + cache && |cache| <= max &&
    (|cache| < max ==> forall e | e in lost :: Expired(e, now, ttl))
  }

  lemma AgreesLater(recency: seq<Entry>, lost: seq<Entry>, cache: seq<Entry>, max: nat, ttl: real, now: real, later: real)
    requires Agrees(recency, lost, cache, max, ttl, now) && now <= later
    ensures Agrees(recency, lost, cache, max, ttl, later)
  {
  }

  lemma {:induction false} RecentParts(a: seq<Entry>, b: seq<Entry>)
    requires Recent(a + b)
    ensures Recent(b) && (b != [] ==> NotAfter(a, b[0].at))
  {
    if b != [] {
      var n := |b| - 1;
      assert (a + b)[..|a + b| - 1] == a + b[..n];
      RecentParts(a, b[..n]);
      forall e | e in a || e in b[..n] ensures e.at <= b[n].at {
        assert e in a + b[..n];
      }
    }
  }

  lemma AgreesRegister(recency: seq<Entry>, lost: seq<Entry>, cache: seq<Entry>, max: nat, ttl: real, addr: string, now: real)
      returns (lost': seq<Entry>)
    requires Agrees(recency, lost, cache, max, ttl, now) && Recent(recency) && NotAfter(recency, now)
    ensures Agrees(Sighted(recency, addr, now), lost', Newest(Sighted(cache, addr, now), max), max, ttl, now)
  {
    var seen, gone := Sighted(cache, addr, now), Without(lost, addr);
    SightedLength(lost, cache, addr, now);
    SightedSplit(lost, cache, addr, now);
    if |cache| < max {
      StillExpired(lost, addr, now, ttl);
    }
    lost' := AgreesNewest(gone, seen, max, ttl, now);
  }

  /** Evicting the oldest entries down to the size. */
  lemma AgreesNewest(gone: seq<Entry>, seen: seq<Entry>, max: nat, ttl: real, now: real) returns (lost: seq<Entry>)
    requires |seen| < max ==> forall e | e in gone :: Expired(e, now, ttl)
    ensures Agrees(gone + seen, lost, Newest(seen, max), max, ttl, now)
  {
    if |seen| > max {
      var k := |seen| - max;
      lost := gone + seen[..k];
      SplitLater(gone, seen, k);
    } else {
      lost := gone;
    }
  }

  /** A sighting makes the cache longer only if the address is new to it. */
  lemma SightedLength(lost: seq<Entry>, cache: seq<Entry>, addr: string, now: real)
    requires Recent(lost + cache) && NotAfter(lost + cache, now)
    ensures |cache| <= |Sighted(cache, addr, now)|
  {
    RecentParts(lost, cache);
    forall e | e in cache ensures e.at <= now {
      assert e in lost + cache;
    }
    SightedRecent(cache, addr, now);
  }

  lemma StillExpired(lost: seq<Entry>, addr: string, now: real, ttl: real)
    requires forall e | e in lost :: Expired(e, now, ttl)
    ensures forall e | e in Without(lost, addr) :: Expired(e, now, ttl)
  {
    WithoutIs(lost, addr);
  }

  lemma SightedSplit(lost: seq<Entry>, cache: seq<Entry>, addr: string, now: real)
    ensures Sighted(lost + cache, addr, now) == Without(lost, addr) + Sighted(cache, addr, now)
  {
    WithoutAppend(lost, cache, addr);
    Associative(Without(lost, addr), Without(cache, addr), [Entry(addr, now)]);
  }

  /** What is cut off the front of the second part goes to the first one. */
  lemma SplitLater<T>(a: seq<T>, b: seq<T>, k: nat)
    requires k <= |b|
    ensures a + b == (a + b[..k]) + b[k..]
  {
  }

  /** Exactly the `k` oldest entries have expired. */
  ghost predicate ExpiredUpTo(entries: seq<Entry>, k: nat, now: real, ttl: real) {
    k <= |entries| && forall i | 0 <= i < |entries| :: Expired(entries[i], now, ttl) <==> i < k
  }

  lemma NewestExpired(entries: seq<Entry>, now: real, ttl: real)
    requires Recent(entries) && entries != [] && Expired(entries[|entries| - 1], now, ttl)
    ensures ExpiredUpTo(entries, |entries|, now, ttl)
  {
    var n := |entries| - 1;
    forall i | 0 <= i < n ensures Expired(entries[i], now, ttl) {
      assert entries[..n][i] in entries[..n];
    }
  }

  /** The expired entries are the oldest ones, without a gap. */
  lemma {:induction false} ExpiredAreOldest(entries: seq<Entry>, now: real, ttl: real) returns (k: nat)
    requires Recent(entries)
    ensures ExpiredUpTo(entries, k, now, ttl) && Unexpired(entries, now, ttl) == entries[k..]
  {
    if entries == [] {
      k := 0;
    } else if Expired(entries[|entries| - 1], now, ttl) {
      k := |entries|;
      NewestExpired(entries, now, ttl);
      AllExpired(entries, now, ttl);
    } else {
      var n := |entries| - 1;
      k := ExpiredAreOldest(entries[..n], now, ttl);
      assert entries[..n][k..] + [entries[n]] == entries[k..];
    }
  }

  lemma PrefixOfBoth<T>(a: seq<T>, b: seq<T>, n: nat)
    requires n < |b|
    ensures (a + b)[..|a| + n] == a + b[..n] && (a + b)[|a| + n] == b[n]
  {
  }

  lemma {:induction false} UnexpiredAppend(a: seq<Entry>, b: seq<Entry>, now: real, ttl: real)
    ensures Unexpired(a + b, now, ttl) == Unexpired(a, now, ttl) + Unexpired(b, now, ttl)
  {
    if b == [] {
      assert a + b == a;
    } else {
      var n := |b| - 1;
      UnexpiredAppend(a, b[..n], now, ttl);
      PrefixOfBoth(a, b, n);
      Associative(Unexpired(a, now, ttl), Unexpired(b[..n], now, ttl), if Expired(b[n], now, ttl) then [] else [b[n]]);
    }
  }

  lemma {:induction false} AllExpired(entries: seq<Entry>, now: real, ttl: real)
    requires forall e | e in entries :: Expired(e, now, ttl)
    ensures Unexpired(entries, now, ttl) == []
  {
    if entries != [] {
      AllExpired(entries[..|entries| - 1], now, ttl);
    }
  }

  lemma AgreesCleanup(recency: seq<Entry>, lost: seq<Entry>, cache: seq<Entry>, max: nat, ttl: real, now: real)
      returns (lost': seq<Entry>)
    requires Agrees(recency, lost, cache, max, ttl, now) && Recent(recency)
    ensures Agrees(recency, lost', Unexpired(cache, now, ttl), max, ttl, now)
  {
    RecentParts(lost, cache);
    var k := ExpiredAreOldest(cache, now, ttl);
    lost' := lost + cache[..k];
    SplitLater(lost, cache, k);
  }

  /** After any run the cache agrees with the history of sightings. */
  lemma {:induction false} CacheAgrees(ops: seq<Op>, max: nat, ttl: real, now: real) returns (lost: seq<Entry>)
    requires Timely(ops, now)
    ensures Recent(Recency(ops)) && Agrees(Recency(ops), lost, Run(ops, max, ttl), max, ttl, now)
  {
    RecencyRecent(ops, now);
    if ops == [] {
      lost := [];
    } else {
      var n := |ops| - 1;
      var at := ops[n].now;
      lost := CacheAgrees(ops[..n], max, ttl, at);
      RecencyRecent(ops[..n], at);
      if ops[n].Register? {
        lost := AgreesRegister(Recency(ops[..n]), lost, Run(ops[..n], max, ttl), max, ttl, ops[n].addr, at);
      } else {
        lost := AgreesCleanup(Recency(ops[..n]), lost, Run(ops[..n], max, ttl), max, ttl, at);
      }
      AgreesLater(Recency(ops), lost, Run(ops, max, ttl), max, ttl, at, now);
    }
  }

  lemma CacheRecent(ops: seq<Op>, max: nat, ttl: real, now: real)
    requires Timely(ops, now)
    ensures Recent(Run(ops, max, ttl))
  {
    var lost := CacheAgrees(ops, max, ttl, now);
    RecentParts(lost, Run(ops, max, ttl));
  }

  lemma RunMore(ops: seq<Op>, op: Op, max: nat, ttl: real)
    ensures Run(ops + [op], max, ttl) == Next(Run(ops, max, ttl), op, max, ttl)
  {
    assert (ops + [op])[..|ops|] == ops;
  }

  lemma NewestOf(lost: seq<Entry>, cache: seq<Entry>, max: nat, ttl: real, now: real)
    requires |cache| <= max && (|cache| < max ==> forall e | e in lost :: Expired(e, now, ttl))
    ensures Unexpired(Newest(lost + cache, max), now, ttl) == Unexpired(cache, now, ttl)
  {
    var all := lost + cache;
    var k := if |all| > max then |all| - max else 0;
    assert Newest(all, max) == lost[k..] + cache;
    UnexpiredAppend(lost[k..], cache, now, ttl);
    AllExpired(if |cache| < max then lost[k..] else [], now, ttl);
    assert [] + Unexpired(cache, now, ttl) == Unexpired(cache, now, ttl);
  }

  /** A cleanup leaves exactly those of the `max` last seen senders that were seen within the time to live. */
  lemma CleanupExact(ops: seq<Op>, max: nat, ttl: real, now: real)
    requires Timely(ops, now)
    ensures Run(ops + [Cleanup(now)], max, ttl) == Unexpired(Newest(Recency(ops), max), now, ttl)
  {
    var lost := CacheAgrees(ops, max, ttl, now);
    NewestOf(lost, Run(ops, max, ttl), max, ttl, now);
    RunMore(ops, Cleanup(now), max, ttl);
  }

  // ----- In terms of the sightings ---------------------------------------

  /** When an address was seen last. */
  function LastSeen(ops: seq<Op>, addr: string): Option<real> {
    if ops == [] then None
    else
      var n := |ops| - 1;
      if ops[n].Register? && ops[n].addr == addr then Some(ops[n].now) else LastSeen(ops[..n], addr)
  }

  /** The recency list holds every address ever seen, with the time it was seen last. */
  lemma {:induction false} RecencyIs(ops: seq<Op>, e: Entry)
    ensures e in Recency(ops) <==> LastSeen(ops, e.addr) == Some(e.at)
  {
    if ops != [] {
      var n := |ops| - 1;
      RecencyIs(ops[..n], e);
      if ops[n].Register? {
        WithoutIs(Recency(ops[..n]), ops[n].addr);
      }
    }
  }

  lemma {:induction false} UnexpiredIs(entries: seq<Entry>, now: real, ttl: real, e: Entry)
    ensures e in Unexpired(entries, now, ttl) <==> e in entries && now - e.at <= ttl
  {
    if entries != [] {
      var n := |entries| - 1;
      assert entries == entries[..n] + [entries[n]];
      UnexpiredIs(entries[..n], now, ttl, e);
    }
  }

  /** After a cleanup a sender is known exactly if it is among the last seen ones and was seen within the time to live. */
  lemma CleanupKeeps(ops: seq<Op>, max: nat, ttl: real, now: real, e: Entry)
    requires Timely(ops, now)
    ensures e in Run(ops + [Cleanup(now)], max, ttl) <==>
              e in Newest(Recency(ops), max) && now - e.at <= ttl
    ensures e in Run(ops + [Cleanup(now)], max, ttl) ==> LastSeen(ops, e.addr) == Some(e.at)
  {
    CleanupExact(ops, max, ttl, now);
    UnexpiredIs(Newest(Recency(ops), max), now, ttl, e);
    RecencyIs(ops, e);
  }
}
