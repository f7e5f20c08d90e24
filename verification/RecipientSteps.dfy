/** The recipient cache of the UDP server sender (transport/udp_server_sender.py), oldest entry first. */
module RecipientSteps {
  import opened Splitting

  datatype Entry = Entry(addr: string, at: real)

  /** Without the entries of one address. */
  function Without(entries: seq<Entry>, addr: string): seq<Entry> {
    if entries == [] then []
    else
      var n := |entries| - 1;
      Without(entries[..n], addr) + if entries[n].addr == addr then [] else [entries[n]]
  }

  /** The newest `max` entries. */
  function Newest(entries: seq<Entry>, max: nat): seq<Entry> {
    if |entries| > max then entries[|entries| - max..] else entries
  }

  predicate Expired(e: Entry, now: real, ttl: real) {
    now - e.at > ttl
  }

  function Unexpired(entries: seq<Entry>, now: real, ttl: real): seq<Entry> {
    if entries == [] then []
    else
      var n := |entries| - 1;
      Unexpired(entries[..n], now, ttl) + if Expired(entries[n], now, ttl) then [] else [entries[n]]
  }

  /** Seen last. */
  function Sighted(entries: seq<Entry>, addr: string, now: real): seq<Entry> {
    Without(entries, addr) + [Entry(addr, now)]
  }

  datatype Op = Register(addr: string, now: real) | Cleanup(now: real)

  function Next(cache: seq<Entry>, op: Op, max: nat, ttl: real): seq<Entry> {
    match op
    case Register(addr, now) => Newest(Sighted(cache, addr, now), max)
    case Cleanup(now) => Unexpired(cache, now, ttl)
  }

  function Run(ops: seq<Op>, max: nat, ttl: real): seq<Entry> {
    if ops == [] then [] else Next(Run(ops[..|ops| - 1], max, ttl), ops[|ops| - 1], max, ttl)
  }

  // ----- Filters ---------------------------------------------------------

  lemma {:induction false} WithoutAppend(a: seq<Entry>, b: seq<Entry>, addr: string)
    ensures Without(a + b, addr) == Without(a, addr) + Without(b, addr)
  {
    if b == [] {
      assert a + b == a;
    } else {
      var n := |b| - 1;
      WithoutAppend(a, b[..n], addr);
      assert (a + b)[..|a| + n] == a + b[..n];
      Associative(Without(a, addr), Without(b[..n], addr), if b[n].addr == addr then [] else [b[n]]);
    }
  }

  predicate Knows(entries: seq<Entry>, addr: string) {
    exists e :: e in entries && e.addr == addr
  }

  lemma {:induction false} WithoutIs(entries: seq<Entry>, addr: string)
    ensures forall e :: e in Without(entries, addr) <==> e in entries && e.addr != addr
    ensures !Knows(entries, addr) ==> Without(entries, addr) == entries
  {
    if entries != [] {
      var n := |entries| - 1;
      assert entries == entries[..n] + [entries[n]];
      WithoutIs(entries[..n], addr);
      assert entries[n] in entries;
      assert Knows(entries[..n], addr) ==> Knows(entries, addr) by {
        if Knows(entries[..n], addr) {
          var e :| e in entries[..n] && e.addr == addr;
          assert e in entries;
        }
      }
    }
  }

  ghost predicate NotAfter(entries: seq<Entry>, now: real) {
    forall e | e in entries :: e.at <= now
  }

  /** No address twice, and in the order of the sightings. */
  ghost predicate Recent(entries: seq<Entry>) {
    entries != [] ==>
      var n := |entries| - 1;
      Recent(entries[..n]) && !Knows(entries[..n], entries[n].addr) && NotAfter(entries[..n], entries[n].at)
  }

  lemma KnowsSplit(entries: seq<Entry>, addr: string)
    requires entries != []
    ensures var n := |entries| - 1;
            Knows(entries, addr) <==> Knows(entries[..n], addr) || entries[n].addr == addr
  {
    var n := |entries| - 1;
    assert entries == entries[..n] + [entries[n]];
    if entries[n].addr == addr {
      assert entries[n] in entries;
    } else if Knows(entries, addr) {
      var e :| e in entries && e.addr == addr;
      assert e in entries[..n];
    }
  }

  lemma WithoutKnows(entries: seq<Entry>, addr: string, other: string)
    ensures Knows(Without(entries, addr), other) ==> Knows(entries, other) && other != addr
  {
    WithoutIs(entries, addr);
  }

  lemma RecentMore(entries: seq<Entry>, e: Entry)
    requires Recent(entries) && !Knows(entries, e.addr) && NotAfter(entries, e.at)
    ensures Recent(entries + [e])
  {
    assert (entries + [e])[..|entries|] == entries;
  }

  lemma {:induction false} WithoutRecent(entries: seq<Entry>, addr: string)
    requires Recent(entries)
    ensures Recent(Without(entries, addr))
  {
    if entries != [] {
      var n := |entries| - 1;
      var rest, last := Without(entries[..n], addr), entries[n];
      WithoutRecent(entries[..n], addr);
      WithoutIs(entries[..n], addr);
      WithoutKnows(entries[..n], addr, last.addr);
      RecentMore(rest, last);
      assert rest + [] == rest;
    }
  }

  lemma {:induction false} WithoutLength(entries: seq<Entry>, addr: string)
    requires Recent(entries)
    ensures |Without(entries, addr)| == if Knows(entries, addr) then |entries| - 1 else |entries|
  {
    if entries != [] {
      WithoutLength(entries[..|entries| - 1], addr);
      KnowsSplit(entries, addr);
    }
  }

  lemma {:induction false} OldestOnce(entries: seq<Entry>)
    requires Recent(entries) && entries != []
    ensures !Knows(entries[1..], entries[0].addr)
  {
    var n := |entries| - 1;
    if n > 0 {
      OldestOnce(entries[..n]);
      assert entries[0] in entries[..n];
      assert entries[1..] == entries[..n][1..] + [entries[n]];
    }
  }

  lemma WithoutOldest(entries: seq<Entry>)
    requires Recent(entries) && entries != []
    ensures Without(entries, entries[0].addr) == entries[1..]
  {
    var oldest := [entries[0]];
    assert entries == oldest + entries[1..];
    WithoutAppend(oldest, entries[1..], entries[0].addr);
    OldestOnce(entries);
    WithoutIs(entries[1..], entries[0].addr);
    assert oldest[..0] == [];
    assert Without(oldest, entries[0].addr) == [];
  }

  lemma SightedRecent(entries: seq<Entry>, addr: string, now: real)
    requires Recent(entries) && NotAfter(entries, now)
    ensures Recent(Sighted(entries, addr, now)) && NotAfter(Sighted(entries, addr, now), now)
    ensures |Sighted(entries, addr, now)| == if Knows(entries, addr) then |entries| else |entries| + 1
  {
    WithoutRecent(entries, addr);
    WithoutLength(entries, addr);
    WithoutIs(entries, addr);
    WithoutKnows(entries, addr, addr);
    RecentMore(Without(entries, addr), Entry(addr, now));
  }

  lemma DropOne(entries: seq<Entry>, k: nat)
    requires k < |entries|
    ensures entries[k..][1..] == entries[k + 1..]
  {
  }
}
