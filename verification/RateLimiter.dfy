// The per-address request limiter, as a state machine on its table and as the object the
// middleware calls.
module RateLimiter {
  import opened Wrappers
  import opened Machine
  import opened SlidingWindow

  // What happens to the limiter: a request, or the periodic cleanup. Each reads the clock
  // while it holds the table's lock.
  datatype Action = Check(ip: Ip, now: Instant, order: Order) | Cleanup(now: Instant)

  datatype Decision = Decision(ip: Ip, now: Instant, allowed: bool)

  datatype Limits = Limits(maxRequests: nat, window: nat)

  function OnCheck(l: Limits, t: Table, ip: Ip, now: Instant, order: Order): (Table, bool) {
    var room := MakeRoom(t, ip, order);
    var times := Recent(TimesOf(room, ip), now, l.window);
    if |times| >= l.maxRequests then (room[ip := times], false)
    else (room[ip := times + [now]], true)
  }

  function OnAction(l: Limits, t: Table, a: Action): Step<Table, Decision> {
    match a
    case Cleanup(now) => Step(Sweep(t, now, l.window), [])
    case Check(ip, now, order) =>
      var (after, allowed) := OnCheck(l, t, ip, now, order);
      Step(after, [Decision(ip, now, allowed)])
  }

  function ActionStep(l: Limits): (Table, Action) -> Step<Table, Decision> {
    (t: Table, a: Action) => OnAction(l, t, a)
  }

  class RequestLimiter {
    const limits: Limits
    var requests: Table

    constructor (limits: Limits)
      ensures this.limits == limits && requests == map[]
    {
      this.limits := limits;
      requests := map[];
    }

    method FindOldest(order: Order) returns (oldest: Option<Ip>)
      ensures oldest == Oldest(order(requests.Keys), requests)
    {
      var keys := order(requests.Keys);
      oldest := None;
      assert keys[..0] == [];
      for i := 0 to |keys|
        invariant oldest == Oldest(keys[..i], requests)
      {
        var k := keys[i];
        assert keys[..i + 1][..i] == keys[..i];
        if k in requests && requests[k] != [] {
          if oldest.None? || Staler(requests, k, oldest.value) {
            oldest := Some(k);
          }
        }
      }
      assert keys[..|keys|] == keys;
    }

    // The 429 refusal is `!allowed`.
    method CheckRateLimit(ip: Ip, now: Instant, order: Order) returns (allowed: bool)
      modifies this
      ensures (requests, allowed) == OnCheck(limits, old(requests), ip, now, order)
    {
      if |requests| >= MAX_TRACKED_IPS && ip !in requests {
        var oldest := FindOldest(order);
        if oldest.Some? {
          requests := requests - {oldest.value};
        }
      }
      assert requests == MakeRoom(old(requests), ip, order);
      hide MakeRoom;
      var entry := if ip in requests then requests[ip] else [];
      var kept := [];
      assert entry[..0] == [];
      for i := 0 to |entry|
        invariant kept == Recent(entry[..i], now, limits.window)
      {
        assert entry[..i + 1][..i] == entry[..i];
        if now - entry[i] < limits.window {
          kept := kept + [entry[i]];
        }
      }
      assert entry[..|entry|] == entry;
      if |kept| >= limits.maxRequests {
        requests := requests[ip := kept];
        return false;
      }
      requests := requests[ip := kept + [now]];
      return true;
    }

    method CleanupExpired(now: Instant)
      modifies this
      ensures requests == Sweep(old(requests), now, limits.window)
    {
      var pruned := map ip | ip in requests :: Recent(requests[ip], now, limits.window);
      requests := map ip | ip in pruned && pruned[ip] != [] :: pruned[ip];
    }
  }

  // ----- the full history -----

  // The instants at which an address was let through.
  function Accepted(log: seq<Decision>, ip: Ip): seq<Instant> {
    if log == [] then []
    else
      var last := log[|log| - 1];
      Accepted(log[..|log| - 1], ip) + if last.ip == ip && last.allowed then [last.now] else []
  }

  // How many of them are later than `since`.
  function AcceptedAfter(log: seq<Decision>, ip: Ip, since: int): nat {
    if log == [] then 0
    else
      var last := log[|log| - 1];
      AcceptedAfter(log[..|log| - 1], ip, since) + if last.ip == ip && last.allowed && last.now > since then 1 else 0
  }

  // Fewer than the maximum of acceptances in the last window, on the full history.
  predicate Allows(l: Limits, log: seq<Decision>, ip: Ip, now: Instant) {
    AcceptedAfter(log, ip, now - l.window) < l.maxRequests
  }

  lemma {:induction false} RecentIsCounted(log: seq<Decision>, ip: Ip, now: Instant, window: nat)
    ensures |Recent(Accepted(log, ip), now, window)| == AcceptedAfter(log, ip, now - window)
  {
    if log != [] {
      var before, d := log[..|log| - 1], log[|log| - 1];
      RecentIsCounted(before, ip, now, window);
      if d.ip == ip && d.allowed {
        RecentMore(Accepted(before, ip), d.now, now, window);
      } else {
        assert Accepted(before, ip) + [] == Accepted(before, ip);
      }
    }
  }

  predicate Monotone(actions: seq<Action>) {
    forall i, j :: 0 <= i < j < |actions| ==> actions[i].now <= actions[j].now
  }

  ghost predicate Orderly(actions: seq<Action>) {
    forall a :: a in actions && a.Check? ==> Lists(a.order)
  }

  // ----- one action, against the history -----

  lemma RecentAfterCheck(l: Limits, t: Table, ip: Ip, now: Instant, order: Order, a: Ip, later: Instant)
    requires now <= later
    ensures var (after, allowed) := OnCheck(l, t, ip, now, order);
            var room := MakeRoom(t, ip, order);
            Recent(TimesOf(after, a), later, l.window) ==
            Recent(TimesOf(room, a), later, l.window) + if a == ip && allowed then Seen(now, later, l.window) else []
  {
    hide MakeRoom, Recent;
    RecentAfterVisit(MakeRoom(t, ip, order), ip, now, l.window, OnCheck(l, t, ip, now, order).1, a, later);
  }

  lemma AcceptedMore(log: seq<Decision>, d: Decision, a: Ip)
    ensures Accepted(log + [d], a) == Accepted(log, a) + if d.ip == a && d.allowed then [d.now] else []
  {
    assert (log + [d])[..|log|] == log;
  }

  lemma HistoryMore(l: Limits, log: seq<Decision>, d: Decision, a: Ip, later: Instant)
    ensures Recent(Accepted(log + [d], a), later, l.window) ==
            Recent(Accepted(log, a), later, l.window) + if d.ip == a && d.allowed then Seen(d.now, later, l.window) else []
  {
    AcceptedMore(log, d, a);
    if d.ip == a && d.allowed {
      RecentMore(Accepted(log, a), d.now, later, l.window);
    } else {
      assert Accepted(log, a) + [] == Accepted(log, a);
    }
  }

  // ----- on every run, rejections are justified -----

  // The table never remembers more than the history, as seen from `from` on.
  ghost predicate NeverMore(l: Limits, t: Table, log: seq<Decision>, from: Instant) {
    forall a, now :: from <= now ==> |Recent(TimesOf(t, a), now, l.window)| <= |Recent(Accepted(log, a), now, l.window)|
  }

  lemma ActionNeverMore(l: Limits, t: Table, log: seq<Decision>, from: Instant, a: Action)
    requires NeverMore(l, t, log, from) && from <= a.now
    ensures var s := OnAction(l, t, a);
            && NeverMore(l, s.state, log + s.events, a.now)
            && (forall d :: d in s.events && !d.allowed ==> !Allows(l, log, d.ip, d.now))
  {
    hide MakeRoom, Recent, Accepted, Sweep, TimesOf;
    var s := OnAction(l, t, a);
    forall x, later | a.now <= later
      ensures |Recent(TimesOf(s.state, x), later, l.window)| <= |Recent(Accepted(log + s.events, x), later, l.window)|
    {
      match a
      case Cleanup(now) =>
        RecentAfterSweep(t, now, l.window, x, later);
        assert log + [] == log;
      case Check(ip, now, order) =>
        RecentAfterCheck(l, t, ip, now, order, x, later);
        HistoryMore(l, log, s.events[0], x, later);
        EvictionForgets(t, ip, order, x, later, l.window);
    }
    if a.Check? {
      EvictionForgets(t, a.ip, a.order, a.ip, a.now, l.window);
      RecentIsCounted(log, a.ip, a.now, l.window);
    }
  }

  // A log in which every rejection is what the full history demands.
  predicate Justified(l: Limits, log: seq<Decision>) {
    forall i :: 0 <= i < |log| && !log[i].allowed ==> !Allows(l, log[..i], log[i].ip, log[i].now)
  }

  function LastTime(actions: seq<Action>): Instant {
    if actions == [] then 0 else actions[|actions| - 1].now
  }

  lemma JustifiedMore(l: Limits, log: seq<Decision>, more: seq<Decision>)
    requires Justified(l, log) && |more| <= 1
    requires forall d :: d in more && !d.allowed ==> !Allows(l, log, d.ip, d.now)
    ensures Justified(l, log + more)
  {
    hide Allows;
    var all := log + more;
    forall i | 0 <= i < |all| && !all[i].allowed
      ensures !Allows(l, all[..i], all[i].ip, all[i].now)
    {
      if i < |log| {
        assert all[..i] == log[..i];
      } else {
        assert all[..i] == log && all[i] in more;
      }
    }
  }

  lemma {:induction false} RejectionsAreJustified(l: Limits, actions: seq<Action>)
    requires Monotone(actions)
    ensures var t := Run(ActionStep(l), map[], actions);
            NeverMore(l, t.state, t.events, LastTime(actions)) && Justified(l, t.events)
  {
    hide OnAction, NeverMore, Justified, Allows, AcceptedAfter;
    NothingYet(l);
    if actions != [] {
      var before, a := actions[..|actions| - 1], actions[|actions| - 1];
      RejectionsAreJustified(l, before);
      var t := Run(ActionStep(l), map[], before);
      ActionNeverMore(l, t.state, t.events, LastTime(before), a);
      OneDecision(l, t.state, a);
      JustifiedMore(l, t.events, OnAction(l, t.state, a).events);
    }
  }

  lemma NothingYet(l: Limits)
    ensures NeverMore(l, map[], [], 0) && Justified(l, [])
  {
  }

  lemma OneDecision(l: Limits, t: Table, a: Action)
    ensures |OnAction(l, t, a).events| <= 1
  {
  }

  // ----- the table against the full history -----

  // From now on, the table answers as the full history would.
  ghost predicate Same(l: Limits, t: Table, log: seq<Decision>, from: Instant) {
    forall a, now :: from <= now ==> Recent(TimesOf(t, a), now, l.window) == Recent(Accepted(log, a), now, l.window)
  }

  // Evicting somebody for the next visitor shows in no later window.
  ghost predicate FreeRoom(l: Limits, t: Table, a: Action) {
    a.Check? ==> ReadsSame(t, MakeRoom(t, a.ip, a.order), a.now, l.window)
  }

  lemma ActionKeepsSame(l: Limits, t: Table, log: seq<Decision>, from: Instant, a: Action)
    requires Same(l, t, log, from) && from <= a.now && FreeRoom(l, t, a)
    ensures var s := OnAction(l, t, a);
            Same(l, s.state, log + s.events, a.now)
  {
    hide MakeRoom, Recent, Accepted, Sweep, TimesOf;
    var s := OnAction(l, t, a);
    forall x, later | a.now <= later
      ensures Recent(TimesOf(s.state, x), later, l.window) == Recent(Accepted(log + s.events, x), later, l.window)
    {
      match a
      case Cleanup(now) =>
        RecentAfterSweep(t, now, l.window, x, later);
        assert log + [] == log;
      case Check(ip, now, order) =>
        RecentAfterCheck(l, t, ip, now, order, x, later);
        HistoryMore(l, log, s.events[0], x, later);
    }
  }

  // The addresses with an acceptance in the window that ends at `now`.
  ghost function Live(l: Limits, log: seq<Decision>, now: Instant): set<Ip> {
    set d | d in log && AcceptedAfter(log, d.ip, now - l.window) > 0 :: d.ip
  }

  lemma {:induction false} AcceptedIsLogged(log: seq<Decision>, ip: Ip)
    ensures Accepted(log, ip) != [] ==> exists d :: d in log && d.ip == ip
  {
    if log != [] {
      var before, d := log[..|log| - 1], log[|log| - 1];
      AcceptedIsLogged(before, ip);
      assert d in log && forall x :: x in before ==> x in log;
    }
  }

  lemma LiveMeans(l: Limits, log: seq<Decision>, now: Instant, ip: Ip)
    ensures ip in Live(l, log, now) <==> Recent(Accepted(log, ip), now, l.window) != []
  {
    AcceptedIsLogged(log, ip);
    NothingRecent(now, l.window);
    forall a ensures |Recent(Accepted(log, a), now, l.window)| == AcceptedAfter(log, a, now - l.window) {
      RecentIsCounted(log, a, now, l.window);
    }
    hide Recent, Accepted, AcceptedAfter;
  }

  lemma ActionTends(l: Limits, t: Table, from: Instant, a: Action)
    requires Tended(t, from, l.maxRequests == 0) && from <= a.now
    ensures Tended(OnAction(l, t, a).state, a.now, l.maxRequests == 0)
  {
    hide MakeRoom, Recent, Sweep, Tended, TimesOf;
    match a
    case Cleanup(now) => TendedSweep(t, from, l.maxRequests == 0, now, l.window);
    case Check(ip, now, order) =>
      TendedVisit(t, from, l.maxRequests == 0, ip, order, now, l.window, OnCheck(l, t, ip, now, order).1);
  }

  // A table that answers as the history holds everybody who is live.
  lemma SameHoldsLive(l: Limits, t: Table, log: seq<Decision>, from: Instant)
    requires Same(l, t, log, from) && Tended(t, from, l.maxRequests == 0) && (l.maxRequests > 0 ==> Small(t))
    ensures |Live(l, log, from)| <= MAX_TRACKED_IPS
  {
    var live := Live(l, log, from);
    forall ip | ip in live
      ensures ip in t && t[ip] != []
    {
      LiveMeans(l, log, from, ip);
      NothingRecent(from, l.window);
    }
    hide Recent, Live;
    if l.maxRequests == 0 {
      assert live == {};
    } else {
      Smaller(live, t.Keys);
      assert |t| == |t.Keys|;
    }
  }

  lemma LiveAfter(l: Limits, t: Table, log: seq<Decision>, from: Instant, d: Decision, a: Ip)
    requires Same(l, t, log, from) && from <= d.now && d.allowed && d.now - from < l.window
    requires a == d.ip || (a in t && Recent(t[a], d.now, l.window) != [])
    ensures a in Live(l, log + [d], d.now)
  {
    hide Recent, Accepted;
    LiveMeans(l, log + [d], d.now, a);
    HistoryMore(l, log, d, a, d.now);
  }

  // Somebody who is let in while everybody in a full table counts is one too many.
  lemma CrowdIsTooMany(l: Limits, t: Table, log: seq<Decision>, from: Instant, d: Decision)
    requires Same(l, t, log, from) && from <= d.now && d.allowed && d.now - from < l.window
    requires d.ip !in t && |t| >= MAX_TRACKED_IPS && AllCount(t, d.now, l.window)
    ensures |Live(l, log + [d], d.now)| > MAX_TRACKED_IPS
  {
    hide Recent, Accepted, Live, Same;
    var live := Live(l, log + [d], d.now);
    forall a | a in t || a == d.ip
      ensures a in live
    {
      LiveAfter(l, t, log, from, d, a);
    }
    Smaller(t.Keys + {d.ip}, live);
    assert |t.Keys + {d.ip}| == |t| + 1;
  }

  lemma NewcomerIsAllowed(l: Limits, t: Table, ip: Ip, now: Instant, order: Order)
    requires ip !in t && l.maxRequests > 0
    ensures OnCheck(l, t, ip, now, order).1
  {
    MakeRoomKeeps(t, ip, order);
    NothingRecent(now, l.window);
    hide MakeRoom, Recent;
  }

  lemma ChecksDecide(l: Limits, t: Table, log: seq<Decision>, from: Instant, a: Action)
    requires Same(l, t, log, from) && from <= a.now
    ensures forall d :: d in OnAction(l, t, a).events ==> d.allowed == Allows(l, log, d.ip, d.now)
  {
    hide MakeRoom, Recent, Accepted, AcceptedAfter;
    if a.Check? {
      MakeRoomKeeps(t, a.ip, a.order);
      NothingRecent(a.now, l.window);
      RecentIsCounted(log, a.ip, a.now, l.window);
    }
  }

  // One action more: the table still answers as the history if and only if the history has
  // no more live addresses than the table has room for.
  lemma StaysSame(l: Limits, t: Table, log: seq<Decision>, from: Instant, a: Action)
    requires Same(l, t, log, from) && Tended(t, from, l.maxRequests == 0) && from <= a.now
    requires l.maxRequests > 0 ==> Small(OnAction(l, t, a).state)
    requires a.Check? ==> Lists(a.order)
    ensures var s := OnAction(l, t, a);
            Same(l, s.state, log + s.events, a.now) <==> |Live(l, log + s.events, a.now)| <= MAX_TRACKED_IPS
  {
    hide Same, OnCheck, Live, Lists, Tended, Small, AllCount, ReadsSame, Sweep, MakeRoom;
    var s := OnAction(l, t, a);
    ActionTends(l, t, from, a);
    if Same(l, s.state, log + s.events, a.now) {
      SameHoldsLive(l, s.state, log + s.events, a.now);
    }
    if a.Check? {
      RoomIsFree(t, from, l.maxRequests == 0, a.ip, a.order, a.now, l.window);
    }
    if FreeRoom(l, t, a) {
      ActionKeepsSame(l, t, log, from, a);
    } else {
      NewcomerIsAllowed(l, t, a.ip, a.now, a.order);
      CrowdIsTooMany(l, t, log, from, Decision(a.ip, a.now, true));
    }
  }

  // A log that decides exactly as the full history does.
  predicate Exact(l: Limits, log: seq<Decision>) {
    forall i :: 0 <= i < |log| ==> log[i].allowed == Allows(l, log[..i], log[i].ip, log[i].now)
  }

  lemma ExactMore(l: Limits, log: seq<Decision>, more: seq<Decision>)
    requires Exact(l, log) && |more| <= 1
    requires forall d :: d in more ==> d.allowed == Allows(l, log, d.ip, d.now)
    ensures Exact(l, log + more)
  {
    hide Allows;
    var all := log + more;
    forall i | 0 <= i < |all|
      ensures all[i].allowed == Allows(l, all[..i], all[i].ip, all[i].now)
    {
      if i < |log| {
        assert all[..i] == log[..i];
      } else {
        assert all[..i] == log && all[i] in more;
      }
    }
  }

  lemma {:induction false} AlwaysTended(l: Limits, actions: seq<Action>)
    requires Monotone(actions)
    ensures Tended(Run(ActionStep(l), map[], actions).state, LastTime(actions), l.maxRequests == 0)
  {
    hide OnAction;
    if actions != [] {
      var before, a := actions[..|actions| - 1], actions[|actions| - 1];
      AlwaysTended(l, before);
      ActionTends(l, Run(ActionStep(l), map[], before).state, LastTime(before), a);
    }
  }

  // With a positive maximum no stored list is ever empty, so a full table can always evict.
  lemma {:induction false} TableStaysSmall(l: Limits, actions: seq<Action>)
    requires l.maxRequests > 0 && Orderly(actions)
    ensures var t := Run(ActionStep(l), map[], actions).state;
            NoneEmpty(t) && |t| <= 10000
  {
    hide OnAction, Lists;
    if actions != [] {
      var before, a := actions[..|actions| - 1], actions[|actions| - 1];
      assert a in actions && forall x :: x in before ==> x in actions;
      TableStaysSmall(l, before);
      ActionKeepsSmall(l, Run(ActionStep(l), map[], before).state, a);
    }
  }

  lemma ActionKeepsSmall(l: Limits, t: Table, a: Action)
    requires l.maxRequests > 0 && Small(t) && (a.Check? ==> Lists(a.order))
    ensures Small(OnAction(l, t, a).state)
  {
    hide MakeRoom, Lists, Small, Sweep;
    match a
    case Cleanup(now) => SmallSweep(t, now, l.window);
    case Check(ip, now, order) =>
      var times := Recent(TimesOf(MakeRoom(t, ip, order), ip), now, l.window);
      SmallVisit(t, ip, order, if |times| >= l.maxRequests then times else times + [now]);
  }

  // No list is longer than the maximum: old instants do not pile up.
  lemma {:induction false} ListsStayShort(l: Limits, actions: seq<Action>)
    ensures Short(Run(ActionStep(l), map[], actions).state, l.maxRequests)
  {
    hide OnAction;
    if actions != [] {
      var before, a := actions[..|actions| - 1], actions[|actions| - 1];
      ListsStayShort(l, before);
      ActionKeepsShort(l, Run(ActionStep(l), map[], before).state, a);
    }
  }

  lemma ActionKeepsShort(l: Limits, t: Table, a: Action)
    requires Short(t, l.maxRequests)
    ensures Short(OnAction(l, t, a).state, l.maxRequests)
  {
    hide MakeRoom, Recent, Sweep;
    StaysShort(t, l.maxRequests, if a.Check? then a.ip else 0, if a.Check? then a.order else _ => [], a.now, l.window);
  }

  // After the first `n` actions, the table answers as the full history.
  ghost predicate AgreesAfter(l: Limits, actions: seq<Action>, n: nat)
    requires n <= |actions|
  {
    var t := Run(ActionStep(l), map[], actions[..n]);
    Same(l, t.state, t.events, LastTime(actions[..n]))
  }

  // After the first `n` actions, no more addresses are live than fit the table.
  ghost predicate FitsAfter(l: Limits, actions: seq<Action>, n: nat)
    requires n <= |actions|
  {
    |Live(l, Run(ActionStep(l), map[], actions[..n]).events, LastTime(actions[..n]))| <= 10000
  }

  ghost predicate Agrees(l: Limits, actions: seq<Action>) {
    forall n :: 0 <= n <= |actions| ==> AgreesAfter(l, actions, n)
  }

  ghost predicate Fits(l: Limits, actions: seq<Action>) {
    forall n :: 0 <= n <= |actions| ==> FitsAfter(l, actions, n)
  }

  lemma OneActionMore(l: Limits, actions: seq<Action>)
    requires actions != []
    ensures var before := actions[..|actions| - 1];
            && (Agrees(l, actions) <==> Agrees(l, before) && AgreesAfter(l, actions, |actions|))
            && (Fits(l, actions) <==> Fits(l, before) && FitsAfter(l, actions, |actions|))
  {
    hide Run, Live, Same, LastTime;
    var before := actions[..|actions| - 1];
    assert forall n :: 0 <= n <= |before| ==> actions[..n] == before[..n];
    assert forall n :: 0 <= n <= |before| ==> AgreesAfter(l, actions, n) == AgreesAfter(l, before, n);
    assert forall n :: 0 <= n <= |before| ==> FitsAfter(l, actions, n) == FitsAfter(l, before, n);
  }

  lemma LastAgrees(l: Limits, actions: seq<Action>)
    requires Monotone(actions) && Orderly(actions) && actions != [] && Agrees(l, actions[..|actions| - 1])
    ensures AgreesAfter(l, actions, |actions|) <==> FitsAfter(l, actions, |actions|)
  {
    hide OnAction, Same, Live, Lists, Tended, NoneEmpty, AgreesAfter, FitsAfter;
    var before, a := actions[..|actions| - 1], actions[|actions| - 1];
    assert a in actions && forall x :: x in before ==> x in actions;
    assert AgreesAfter(l, before, |before|);
    AgreesMeans(l, before);
    AgreesMeans(l, actions);
    AlwaysTended(l, before);
    if l.maxRequests > 0 {
      TableStaysSmall(l, actions);
    }
    var t := Run(ActionStep(l), map[], before);
    StaysSame(l, t.state, t.events, LastTime(before), a);
  }

  lemma AgreesMeans(l: Limits, actions: seq<Action>)
    ensures var t := Run(ActionStep(l), map[], actions);
            && AgreesAfter(l, actions, |actions|) == Same(l, t.state, t.events, LastTime(actions))
            && FitsAfter(l, actions, |actions|) == (|Live(l, t.events, LastTime(actions))| <= 10000)
  {
    assert actions[..|actions|] == actions;
    hide Run, Same, Live;
  }

  // On all runs: eviction, pruning and cleanup never show if and only if never more than
  // 10,000 addresses have an acceptance in the current window.
  lemma {:induction false} AgreesWhenItFits(l: Limits, actions: seq<Action>)
    requires Monotone(actions) && Orderly(actions)
    ensures Agrees(l, actions) <==> Fits(l, actions)
  {
    hide AgreesAfter, FitsAfter, Lists;
    if actions == [] {
      NothingAgrees(l);
    } else {
      assert forall x :: x in actions[..|actions| - 1] ==> x in actions;
      AgreesWhenItFits(l, actions[..|actions| - 1]);
      OneActionMore(l, actions);
      if Agrees(l, actions[..|actions| - 1]) {
        LastAgrees(l, actions);
      }
    }
  }

  lemma NothingAgrees(l: Limits)
    ensures AgreesAfter(l, [], 0) && FitsAfter(l, [], 0)
  {
    assert Live(l, [], 0) == {};
  }

  // In particular every decision is then the one the full history demands.
  lemma {:induction false} DecidesAsTheHistory(l: Limits, actions: seq<Action>)
    requires Monotone(actions) && Orderly(actions) && Fits(l, actions)
    ensures Exact(l, Run(ActionStep(l), map[], actions).events)
  {
    hide OnAction, Same, Exact, Allows, Lists, Fits, Agrees;
    NothingYetSame(l);
    if actions != [] {
      var before, a := actions[..|actions| - 1], actions[|actions| - 1];
      assert a in actions && forall x :: x in before ==> x in actions;
      OneActionMore(l, actions);
      DecidesAsTheHistory(l, before);
      AgreesWhenItFits(l, before);
      AgreesThen(l, before);
      AgreesMeans(l, before);
      var t := Run(ActionStep(l), map[], before);
      ChecksDecide(l, t.state, t.events, LastTime(before), a);
      OneDecision(l, t.state, a);
      ExactMore(l, t.events, OnAction(l, t.state, a).events);
    }
  }

  lemma AgreesThen(l: Limits, actions: seq<Action>)
    requires Agrees(l, actions)
    ensures AgreesAfter(l, actions, |actions|)
  {
  }

  // A cleanup then leaves exactly the live addresses.
  lemma CleanupLeavesLive(l: Limits, actions: seq<Action>, now: Instant)
    requires Monotone(actions) && Orderly(actions) && Fits(l, actions) && LastTime(actions) <= now
    ensures var t := Run(ActionStep(l), map[], actions);
            OnAction(l, t.state, Cleanup(now)).state.Keys == Live(l, t.events, now)
  {
    hide OnAction, AgreesAfter, FitsAfter, Agrees, Fits, Lists, Live, Recent, Same;
    AgreesWhenItFits(l, actions);
    AgreesThen(l, actions);
    AgreesMeans(l, actions);
    var t := Run(ActionStep(l), map[], actions);
    forall ip ensures ip in OnAction(l, t.state, Cleanup(now)).state <==> ip in Live(l, t.events, now) {
      LiveMeans(l, t.events, now, ip);
      SweptIsLive(l, t.state, t.events, LastTime(actions), now, ip);
    }
  }

  lemma SweptIsLive(l: Limits, t: Table, log: seq<Decision>, from: Instant, now: Instant, ip: Ip)
    requires Same(l, t, log, from) && from <= now
    ensures ip in OnAction(l, t, Cleanup(now)).state <==> Recent(Accepted(log, ip), now, l.window) != []
  {
    NothingRecent(now, l.window);
    hide Recent, Accepted;
  }

  // Only who asked within the window can be live in it.
  lemma LiveHaveAsked(l: Limits, log: seq<Decision>, now: Instant, ip: Ip)
    requires ip in Live(l, log, now)
    ensures exists d :: d in log && d.ip == ip && now - d.now < l.window
  {
    LiveMeans(l, log, now, ip);
    RecentAreTimes(Accepted(log, ip), now, l.window);
    var x := Recent(Accepted(log, ip), now, l.window)[0];
    assert x in Recent(Accepted(log, ip), now, l.window);
    hide Recent;
    AcceptedAreAsked(log, ip, x);
  }

  lemma {:induction false} AcceptedAreAsked(log: seq<Decision>, ip: Ip, x: Instant)
    requires x in Accepted(log, ip)
    ensures exists d :: d in log && d.ip == ip && d.now == x
  {
    var before, d := log[..|log| - 1], log[|log| - 1];
    assert d in log && forall y :: y in before ==> y in log;
    if x in Accepted(before, ip) {
      AcceptedAreAsked(before, ip, x);
    }
  }

  lemma NothingYetSame(l: Limits)
    ensures Same(l, map[], [], 0) && Exact(l, [])
  {
  }

  // ----- a maximum of zero -----

  // A table of these addresses, each with an empty list.
  ghost predicate Hollow(t: Table, ips: seq<Ip>) {
    |t| == |ips| && (forall ip :: ip in t <==> ip in ips) && forall ip :: ip in t ==> t[ip] == []
  }

  lemma ZeroCheck(l: Limits, t: Table, ips: seq<Ip>, ip: Ip, order: Order)
    requires l.maxRequests == 0 && Hollow(t, ips) && ip !in ips
    ensures Hollow(OnAction(l, t, Check(ip, 0, order)).state, ips + [ip])
  {
    NobodyToEvict(order(t.Keys), t);
    var r := OnCheck(l, t, ip, 0, order).0;
    assert MakeRoom(t, ip, order) == t && TimesOf(t, ip) == [];
    assert r == t[ip := []];
    hide MakeRoom, Recent, OnCheck;
    assert |r| == |t| + 1;
  }

  // A maximum of zero, which the config validator rejects, would lift the bound: every new
  // address is stored with an empty list that can never be evicted.
  lemma {:induction false} ZeroMaximumGrows(l: Limits, ips: seq<Ip>, order: Order)
    requires l.maxRequests == 0 && forall i, j :: 0 <= i < j < |ips| ==> ips[i] != ips[j]
    ensures Hollow(Run(ActionStep(l), map[], Arrivals(ips, order)).state, ips)
  {
    assert Hollow(map[], []);
    hide OnAction, Hollow;
    if ips == [] {
      assert Arrivals(ips, order) == [];
    } else {
      var before, ip := ips[..|ips| - 1], ips[|ips| - 1];
      assert ips == before + [ip] && ip !in before;
      ZeroMaximumGrows(l, before, order);
      assert Arrivals(ips, order)[..|before|] == Arrivals(before, order);
      ZeroCheck(l, Run(ActionStep(l), map[], Arrivals(before, order)).state, before, ip, order);
    }
  }

  function Arrivals(ips: seq<Ip>, order: Order): seq<Action> {
    seq(|ips|, i requires 0 <= i < |ips| => Check(ips[i], 0, order))
  }

  lemma {:induction false} NobodyToEvict(keys: seq<Ip>, t: Table)
    requires forall ip :: ip in t ==> t[ip] == []
    ensures Oldest(keys, t).None?
  {
    if keys != [] {
      NobodyToEvict(keys[..|keys| - 1], t);
    }
  }

  // ----- how many requests a decision log lets through -----

  // How many instants lie in [from, to).
  function CountIn(times: seq<Instant>, from: int, to: int): nat {
    if times == [] then 0
    else CountIn(times[..|times| - 1], from, to) + if from <= times[|times| - 1] < to then 1 else 0
  }

  // Every instant has fewer than the maximum before it in its window.
  predicate Spaced(l: Limits, times: seq<Instant>) {
    forall i :: 0 <= i < |times| ==> |Recent(times[..i], times[i], l.window)| < l.maxRequests
  }

  lemma {:induction false} ExactIsSpaced(l: Limits, log: seq<Decision>, ip: Ip)
    requires Exact(l, log)
    ensures Spaced(l, Accepted(log, ip))
  {
    if log != [] {
      var before, d := log[..|log| - 1], log[|log| - 1];
      forall i | 0 <= i < |before|
        ensures before[i].allowed == Allows(l, before[..i], before[i].ip, before[i].now)
      {
        assert before[..i] == log[..i] && before[i] == log[i];
      }
      ExactIsSpaced(l, before, ip);
      if d.ip == ip && d.allowed {
        RecentIsCounted(before, ip, d.now, l.window);
        SpacedMore(l, Accepted(before, ip), d.now);
      } else {
        assert Accepted(before, ip) + [] == Accepted(before, ip);
      }
    }
  }

  lemma SpacedMore(l: Limits, times: seq<Instant>, t: Instant)
    requires Spaced(l, times) && |Recent(times, t, l.window)| < l.maxRequests
    ensures Spaced(l, times + [t])
  {
    hide Recent;
    var all := times + [t];
    forall i | 0 <= i < |all|
      ensures |Recent(all[..i], all[i], l.window)| < l.maxRequests
    {
      if i < |times| {
        assert all[..i] == times[..i];
      } else {
        assert all[..i] == times;
      }
    }
  }

  lemma {:induction false} CountedAreRecent(times: seq<Instant>, from: int, window: nat, last: Instant)
    requires last < from + window
    ensures CountIn(times, from, from + window) <= |Recent(times, last, window)|
  {
    if times != [] {
      CountedAreRecent(times[..|times| - 1], from, window, last);
    }
  }

  // No window, wherever it starts, holds more than the maximum.
  lemma {:induction false} OneWindow(l: Limits, times: seq<Instant>, from: int)
    requires Spaced(l, times)
    ensures CountIn(times, from, from + l.window) <= l.maxRequests
  {
    if times != [] {
      var before, last := times[..|times| - 1], times[|times| - 1];
      forall i | 0 <= i < |before|
        ensures |Recent(before[..i], before[i], l.window)| < l.maxRequests
      {
        assert before[..i] == times[..i];
      }
      OneWindow(l, before, from);
      if from <= last < from + l.window {
        CountedAreRecent(before, from, l.window, last);
      }
    }
  }

  lemma {:induction false} CountSplits(times: seq<Instant>, from: int, mid: int, to: int)
    requires from <= mid <= to
    ensures CountIn(times, from, to) == CountIn(times, from, mid) + CountIn(times, mid, to)
  {
    if times != [] {
      CountSplits(times[..|times| - 1], from, mid, to);
    }
  }

  lemma {:induction false} ManyWindows(l: Limits, times: seq<Instant>, from: int, k: nat)
    requires Spaced(l, times)
    ensures CountIn(times, from, from + k * l.window) <= k * l.maxRequests
  {
    if k == 0 {
      NothingIn(times, from);
    } else {
      var mid := from + (k - 1) * l.window;
      ManyWindows(l, times, from, k - 1);
      OneWindow(l, times, mid);
      Windows(k, l.window, l.maxRequests);
      CountSplits(times, from, mid, mid + l.window);
    }
  }

  lemma Windows(k: nat, window: nat, max: nat)
    requires k > 0
    ensures (k - 1) * window + window == k * window && (k - 1) * max + max == k * max
    ensures 0 <= (k - 1) * window
  {
  }

  lemma {:induction false} NothingIn(times: seq<Instant>, from: int)
    ensures CountIn(times, from, from) == 0
  {
    if times != [] {
      NothingIn(times[..|times| - 1], from);
    }
  }

  // How the server sets the limiter up: `ticks` instants make a second.
  function Configured(rps: nat, burst: nat, ticks: nat): Limits {
    Limits(burst, WindowSecs(rps, burst) * ticks)
  }

  function WindowSecs(rps: nat, burst: nat): nat {
    var secs := burst / (if rps < 1 then 1 else rps);
    if secs < 1 then 1 else secs
  }

  // The window is as many whole seconds as the burst lasts at the configured rate, and at
  // least one; a rate of zero counts as one.
  lemma WindowIs(rps: nat, burst: nat)
    ensures var r, w := if rps == 0 then 1 else rps, WindowSecs(rps, burst);
            if burst < r then w == 1 else w >= 1 && r * w <= burst < r * (w + 1)
  {
    var r := if rps == 0 then 1 else rps;
    Divided(burst, r);
    if burst >= r {
      AtLeastOne(burst, r);
    }
  }

  lemma Divided(a: nat, b: nat)
    requires b >= 1
    ensures b * (a / b) <= a < b * (a / b + 1)
  {
  }

  lemma AtLeastOne(a: nat, b: nat)
    requires a >= b >= 1
    ensures a / b >= 1
  {
  }

  // While the table suffices, any k windows let at most k bursts through; when the burst is
  // at least a second's worth, that is less than twice the configured rate.
  lemma RateIsBounded(rps: nat, burst: nat, ticks: nat, actions: seq<Action>, ip: Ip, from: int, k: nat)
    requires Monotone(actions) && Orderly(actions) && Fits(Configured(rps, burst, ticks), actions)
    ensures var l := Configured(rps, burst, ticks);
            var times := Accepted(Run(ActionStep(l), map[], actions).events, ip);
            && CountIn(times, from, from + k * l.window) <= k * burst
            && (burst >= rps >= 1 && k >= 1 ==> CountIn(times, from, from + k * l.window) < 2 * rps * (k * WindowSecs(rps, burst)))
  {
    hide ActionStep, Exact, Spaced, Fits, WindowSecs;
    var l := Configured(rps, burst, ticks);
    DecidesAsTheHistory(l, actions);
    var log := Run(ActionStep(l), map[], actions).events;
    ExactIsSpaced(l, log, ip);
    ManyWindows(l, Accepted(log, ip), from, k);
    if burst >= rps >= 1 && k >= 1 {
      LessThanTwice(rps, burst, k);
    }
  }

  lemma LessThanTwice(rps: nat, burst: nat, k: nat)
    requires burst >= rps >= 1 && k >= 1
    ensures k * burst < 2 * rps * (k * WindowSecs(rps, burst))
  {
    var w := WindowSecs(rps, burst);
    assert w == burst / rps && w >= 1;
    hide WindowSecs;
    Below(burst, rps);
    Grow(w, rps);
    Scale(k, burst, 2 * w * rps);
    Regroup(k, w, rps);
  }

  lemma Below(burst: nat, rps: nat)
    requires rps >= 1
    ensures burst < (burst / rps + 1) * rps
  {
  }

  lemma Grow(w: nat, rps: nat)
    requires w >= 1
    ensures (w + 1) * rps <= 2 * w * rps
  {
    assert (w + 1) * rps == w * rps + rps;
    assert w * rps == (w - 1) * rps + rps;
  }

  lemma Scale(k: nat, a: nat, b: nat)
    requires k >= 1 && a < b
    ensures k * a < k * b
  {
  }

  lemma Regroup(k: nat, w: nat, rps: nat)
    ensures k * (2 * w * rps) == 2 * rps * (k * w)
  {
    calc {
      k * (2 * w * rps);
      (k * w) * (2 * rps);
      2 * rps * (k * w);
    }
  }
}
