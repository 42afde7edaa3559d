// What the two per-address limiters share: lists of instants by address, pruned to a
// window, with the least recently active address evicted when the table is full.
module SlidingWindow {
  import opened Wrappers

  // Addresses and instants; instants come from a monotonic clock.
  type Ip = nat
  type Instant = nat
  type Table = map<Ip, seq<Instant>>

  const MAX_TRACKED_IPS: nat := 10000

  // The order in which a hash map with these keys is iterated.
  type Order = set<Ip> -> seq<Ip>

  ghost predicate Lists(order: Order) {
    forall s, x :: x in order(s) <==> x in s
  }

  function TimesOf(t: Table, ip: Ip): seq<Instant> {
    if ip in t then t[ip] else []
  }

  // The instants less than `window` before `now`; an instant after `now` counts as now.
  function Recent(times: seq<Instant>, now: Instant, window: nat): seq<Instant> {
    if times == [] then []
    else
      var last := times[|times| - 1];
      Recent(times[..|times| - 1], now, window) + if now - last < window then [last] else []
  }

  // `a` has been active less recently than `b`; lists that are empty have no last instant.
  predicate Staler(t: Table, a: Ip, b: Ip) {
    a in t && b in t && t[a] != [] && t[b] != [] && t[a][|t[a]| - 1] < t[b][|t[b]| - 1]
  }

  // The first address, in iteration order, with the smallest last instant.
  function Oldest(keys: seq<Ip>, t: Table): Option<Ip> {
    if keys == [] then None
    else
      var k, best := keys[|keys| - 1], Oldest(keys[..|keys| - 1], t);
      if k !in t || t[k] == [] then best
      else if best.None? || Staler(t, k, best.value) then Some(k)
      else best
  }

  // Room for a new address, if the table is full and someone can be evicted.
  function MakeRoom(t: Table, ip: Ip, order: Order): Table {
    if |t| >= MAX_TRACKED_IPS && ip !in t then
      var oldest := Oldest(order(t.Keys), t);
      if oldest.Some? then t - {oldest.value} else t
    else t
  }

  function Sweep(t: Table, now: Instant, window: nat): Table {
    map ip | ip in t && Recent(t[ip], now, window) != [] :: Recent(t[ip], now, window)
  }

  // ----- facts about windows -----

  lemma {:induction false} RecentOfRecent(times: seq<Instant>, past: Instant, now: Instant, window: nat)
    requires past <= now
    ensures Recent(Recent(times, past, window), now, window) == Recent(times, now, window)
  {
    if times != [] {
      var before, last := times[..|times| - 1], times[|times| - 1];
      RecentOfRecent(before, past, now, window);
      var r := Recent(before, past, window);
      if past - last < window {
        assert (r + [last])[..|r|] == r;
      } else {
        assert r + [] == r;
      }
    }
  }

  lemma RecentMore(times: seq<Instant>, t: Instant, now: Instant, window: nat)
    ensures Recent(times + [t], now, window) == Recent(times, now, window) + if now - t < window then [t] else []
  {
    assert (times + [t])[..|times|] == times;
  }

  lemma {:induction false} RecentIsShorter(times: seq<Instant>, now: Instant, window: nat)
    ensures |Recent(times, now, window)| <= |times|
  {
    if times != [] {
      RecentIsShorter(times[..|times| - 1], now, window);
    }
  }

  // ----- facts about eviction -----

  lemma {:induction false} OldestIsTracked(keys: seq<Ip>, t: Table)
    ensures Oldest(keys, t).Some? ==> Oldest(keys, t).value in t && t[Oldest(keys, t).value] != []
    ensures (exists k :: k in keys && k in t && t[k] != []) ==> Oldest(keys, t).Some?
    ensures Oldest(keys, t).Some? ==> forall k :: k in keys ==> !Staler(t, k, Oldest(keys, t).value)
  {
    if keys != [] {
      var before, k := keys[..|keys| - 1], keys[|keys| - 1];
      OldestIsTracked(before, t);
      assert forall x :: x in keys <==> x in before || x == k;
    }
  }

  predicate NoneEmpty(t: Table) {
    forall ip :: ip in t ==> t[ip] != []
  }

  // With no empty list in a full table, eviction makes room, and it evicts an address that
  // has been inactive the longest.
  lemma MakesRoom(t: Table, ip: Ip, order: Order)
    requires Lists(order) && NoneEmpty(t) && |t| <= MAX_TRACKED_IPS
    ensures var r := MakeRoom(t, ip, order);
            && NoneEmpty(r) && r.Keys <= t.Keys
            && (ip in r || |r| < MAX_TRACKED_IPS) && |r| <= MAX_TRACKED_IPS
            && (forall a :: a in t && a !in r ==> a != ip && forall b :: b in t ==> !Staler(t, b, a))
  {
    if |t| >= MAX_TRACKED_IPS && ip !in t {
      OldestIsTracked(order(t.Keys), t);
      var k := SomeKey(t);
      assert k in order(t.Keys);
      var oldest := Oldest(order(t.Keys), t).value;
      assert |(t - {oldest}).Keys| == |t.Keys - {oldest}|;
      assert (t - {oldest}).Keys == t.Keys - {oldest};
    }
  }

  lemma SomeKey(t: Table) returns (k: Ip)
    requires |t| > 0
    ensures k in t
  {
    assert t.Keys != {};
    k :| k in t.Keys;
  }

  // Eviction removes at most one address and touches no other.
  lemma MakeRoomKeeps(t: Table, ip: Ip, order: Order)
    ensures var r := MakeRoom(t, ip, order);
            && r.Keys <= t.Keys && (forall a :: a in r ==> r[a] == t[a])
            && (ip in t ==> r == t)
            && (|t| < MAX_TRACKED_IPS ==> r == t)
  {
  }

  lemma {:induction false} Smaller(a: set<Ip>, b: set<Ip>)
    requires a <= b
    ensures |a| <= |b|
  {
    assert b == a + (b - a);
  }

  // ----- one visit to the table, as a later reader sees it -----

  function Seen(t: Instant, later: Instant, window: nat): seq<Instant> {
    if later - t < window then [t] else []
  }

  // Pruning an address's list, and adding `now` to it or not.
  lemma RecentAfterVisit(room: Table, ip: Ip, now: Instant, window: nat, push: bool, a: Ip, later: Instant)
    requires now <= later
    ensures var times := Recent(TimesOf(room, ip), now, window);
            var after := room[ip := if push then times + [now] else times];
            Recent(TimesOf(after, a), later, window) ==
            Recent(TimesOf(room, a), later, window) + if a == ip && push then Seen(now, later, window) else []
  {
    var times := Recent(TimesOf(room, ip), now, window);
    RecentOfRecent(TimesOf(room, ip), now, later, window);
    RecentMore(times, now, later, window);
    hide Recent;
  }

  lemma RecentAfterSweep(t: Table, now: Instant, window: nat, a: Ip, later: Instant)
    requires now <= later
    ensures Recent(TimesOf(Sweep(t, now, window), a), later, window) == Recent(TimesOf(t, a), later, window)
  {
    RecentOfRecent(TimesOf(t, a), now, later, window);
  }

  lemma EvictionForgets(t: Table, ip: Ip, order: Order, a: Ip, now: Instant, window: nat)
    ensures |Recent(TimesOf(MakeRoom(t, ip, order), a), now, window)| <= |Recent(TimesOf(t, a), now, window)|
  {
    MakeRoomKeeps(t, ip, order);
    hide MakeRoom;
  }

  // ----- whom eviction forgets -----

  // The last instant is the latest.
  predicate Peaks(times: seq<Instant>) {
    times != [] && forall x :: x in times ==> x <= times[|times| - 1]
  }

  // Each list ends with its latest instant, which has passed; or no list records anything.
  ghost predicate Tended(t: Table, from: Instant, hollow: bool) {
    forall a :: a in t ==> if hollow then t[a] == [] else Peaks(t[a]) && t[a][|t[a]| - 1] <= from
  }

  // Within its capacity, and without empty lists.
  predicate Small(t: Table) {
    NoneEmpty(t) && |t| <= MAX_TRACKED_IPS
  }

  // No list is longer than `max`.
  predicate Short(t: Table, max: nat) {
    forall ip :: ip in t ==> |t[ip]| <= max
  }

  // Pruning and evicting never make a list longer.
  lemma StaysShort(t: Table, max: nat, ip: Ip, order: Order, now: Instant, window: nat)
    requires Short(t, max)
    ensures Short(Sweep(t, now, window), max) && Short(MakeRoom(t, ip, order), max)
    ensures |Recent(TimesOf(MakeRoom(t, ip, order), ip), now, window)| <= max
  {
    forall a | a in t
      ensures |Recent(t[a], now, window)| <= max
    {
      RecentIsShorter(t[a], now, window);
    }
    MakeRoomKeeps(t, ip, order);
    NothingRecent(now, window);
    hide Recent, MakeRoom;
  }

  lemma SmallSweep(t: Table, now: Instant, window: nat)
    requires Small(t)
    ensures Small(Sweep(t, now, window))
  {
    var r := Sweep(t, now, window);
    Smaller(r.Keys, t.Keys);
    assert |r| == |r.Keys| && |t| == |t.Keys|;
  }

  lemma SmallWithout(t: Table, ip: Ip)
    requires Small(t)
    ensures Small(t - {ip})
  {
    Smaller((t - {ip}).Keys, t.Keys);
    assert |t - {ip}| == |(t - {ip}).Keys| && |t| == |t.Keys|;
  }

  lemma SmallVisit(t: Table, ip: Ip, order: Order, times: seq<Instant>)
    requires Small(t) && Lists(order) && times != []
    ensures Small(MakeRoom(t, ip, order)[ip := times])
  {
    hide MakeRoom, Lists;
    MakesRoom(t, ip, order);
    Stored(MakeRoom(t, ip, order), ip, times);
  }

  lemma Stored(room: Table, ip: Ip, times: seq<Instant>)
    requires |room| <= MAX_TRACKED_IPS && (ip in room || |room| < MAX_TRACKED_IPS)
    ensures |room[ip := times]| <= MAX_TRACKED_IPS
  {
    var r := room[ip := times];
    assert r.Keys == room.Keys + {ip};
    assert |r| == |r.Keys| && |room| == |room.Keys|;
  }

  lemma {:induction false} RecentAreTimes(times: seq<Instant>, now: Instant, window: nat)
    ensures forall x :: x in Recent(times, now, window) ==> x in times && now - x < window
  {
    if times != [] {
      RecentAreTimes(times[..|times| - 1], now, window);
    }
  }

  // When something is left of a list, so is its last instant.
  lemma RecentPeaks(times: seq<Instant>, now: Instant, window: nat)
    requires Peaks(times)
    ensures var r := Recent(times, now, window);
            if now - times[|times| - 1] < window then Peaks(r) && r[|r| - 1] == times[|times| - 1] else r == []
  {
    RecentAreTimes(times, now, window);
    var r, last := Recent(times, now, window), times[|times| - 1];
    assert r == [] || r[0] in r;
    if now - last < window {
      assert r == Recent(times[..|times| - 1], now, window) + [last];
    }
  }

  lemma TendedSweep(t: Table, from: Instant, hollow: bool, now: Instant, window: nat)
    requires Tended(t, from, hollow) && from <= now
    ensures Tended(Sweep(t, now, window), now, hollow)
  {
    var r := Sweep(t, now, window);
    forall a | a in r
      ensures !hollow && Peaks(r[a]) && r[a][|r[a]| - 1] <= now
    {
      assert t[a] != [];
      RecentPeaks(t[a], now, window);
    }
    hide Recent, Peaks;
  }

  // An address's list, pruned, and `now` added to it or not.
  lemma TendedList(times: seq<Instant>, from: Instant, now: Instant, window: nat, push: bool)
    requires (times == [] || (Peaks(times) && times[|times| - 1] <= from)) && from <= now
    requires push || Recent(times, now, window) != []
    ensures var r := Recent(times, now, window);
            var kept := if push then r + [now] else r;
            Peaks(kept) && kept[|kept| - 1] <= now
  {
    RecentAreTimes(times, now, window);
    if times != [] {
      RecentPeaks(times, now, window);
    }
    var r := Recent(times, now, window);
    assert forall x :: x in r ==> x <= now;
  }

  lemma NothingRecent(now: Instant, window: nat)
    ensures Recent([], now, window) == []
  {
  }

  lemma TendedVisit(t: Table, from: Instant, hollow: bool, ip: Ip, order: Order, now: Instant, window: nat, push: bool)
    requires Tended(t, from, hollow) && from <= now
    requires var times := Recent(TimesOf(MakeRoom(t, ip, order), ip), now, window);
             if hollow then !push else push || times != []
    ensures var room := MakeRoom(t, ip, order);
            var times := Recent(TimesOf(room, ip), now, window);
            Tended(room[ip := if push then times + [now] else times], now, hollow)
  {
    var room := MakeRoom(t, ip, order);
    MakeRoomKeeps(t, ip, order);
    if hollow {
      NothingRecent(now, window);
      hide Recent, MakeRoom;
    } else {
      TendedList(TimesOf(room, ip), from, now, window, push);
      hide Recent, MakeRoom, Peaks;
    }
  }

  // What a later reader sees of a table is the same.
  ghost predicate ReadsSame(t: Table, room: Table, when: Instant, window: nat) {
    forall a, later :: when <= later ==> Recent(TimesOf(room, a), later, window) == Recent(TimesOf(t, a), later, window)
  }

  // Everybody in the table still has an instant that counts.
  ghost predicate AllCount(t: Table, when: Instant, window: nat) {
    forall a :: a in t ==> Recent(t[a], when, window) != []
  }

  // The stalest address takes along nothing that still counts, unless everybody in a full
  // table still counts.
  lemma RoomIsFree(t: Table, from: Instant, hollow: bool, ip: Ip, order: Order, when: Instant, window: nat)
    requires Tended(t, from, hollow) && from <= when && Lists(order)
    ensures var room := MakeRoom(t, ip, order);
            || ReadsSame(t, room, when, window)
            || (ip !in t && |t| >= MAX_TRACKED_IPS && !hollow && when - from < window && AllCount(t, when, window))
  {
    var room := MakeRoom(t, ip, order);
    if room != t {
      var k := Evicted(t, ip, order);
      if when - t[k][|t[k]| - 1] < window {
        forall a | a in t ensures Recent(t[a], when, window) != [] {
          RecentPeaks(t[a], when, window);
        }
      } else {
        DeadShowsNot(t, k, when, window);
      }
    }
  }

  lemma DeadShowsNot(t: Table, k: Ip, when: Instant, window: nat)
    requires k in t && Peaks(t[k]) && when - t[k][|t[k]| - 1] >= window
    ensures ReadsSame(t, t - {k}, when, window)
  {
    forall a, later | when <= later
      ensures Recent(TimesOf(t - {k}, a), later, window) == Recent(TimesOf(t, a), later, window)
    {
      if a == k {
        RecentPeaks(t[k], later, window);
        NothingRecent(later, window);
      }
    }
  }

  lemma Evicted(t: Table, ip: Ip, order: Order) returns (k: Ip)
    requires MakeRoom(t, ip, order) != t && Lists(order)
    ensures k in t && t[k] != [] && MakeRoom(t, ip, order) == t - {k}
    ensures ip !in t && |t| >= MAX_TRACKED_IPS && forall b :: b in t ==> !Staler(t, b, k)
  {
    OldestIsTracked(order(t.Keys), t);
    k := Oldest(order(t.Keys), t).value;
  }
}
