// What the bans amount to over all runs of interleaved requests.
module BanRuns {
  import opened Wrappers
  import opened Machine
  import opened SlidingWindow
  import opened Auth

  // ----- the history of failures -----

  // The recorded failures of an address since its last success.
  function Recorded(log: seq<Note>, ip: Ip): seq<Instant> {
    if log == [] then []
    else
      var before, last := Recorded(log[..|log| - 1], ip), log[|log| - 1];
      if last.Cleared? && last.ip == ip then []
      else if last.Failed? && last.ip == ip && !last.refused then before + [last.now]
      else before
  }

  // How many of them are later than `since`.
  function FailedAfter(log: seq<Note>, ip: Ip, since: int): nat {
    if log == [] then 0
    else
      var before, last := FailedAfter(log[..|log| - 1], ip, since), log[|log| - 1];
      if last.Cleared? && last.ip == ip then 0
      else if last.Failed? && last.ip == ip && !last.refused && last.now > since then before + 1
      else before
  }

  // The recorded failures that a failure at `now` sees in its window.
  function InWindow(l: Limits, log: seq<Note>, ip: Ip, now: Instant): nat {
    FailedAfter(log, ip, now - l.window)
  }

  lemma {:induction false} RecordedAreCounted(log: seq<Note>, ip: Ip, now: Instant, window: nat)
    ensures |Recent(Recorded(log, ip), now, window)| == FailedAfter(log, ip, now - window)
  {
    if log != [] {
      var before, n := log[..|log| - 1], log[|log| - 1];
      RecordedAreCounted(before, ip, now, window);
      if n.Failed? && n.ip == ip && !n.refused {
        RecentMore(Recorded(before, ip), n.now, now, window);
      }
    }
  }

  lemma RecordedMore(log: seq<Note>, n: Note, ip: Ip)
    ensures Recorded(log + [n], ip) ==
            if n.Cleared? && n.ip == ip then []
            else if n.Failed? && n.ip == ip && !n.refused then Recorded(log, ip) + [n.now]
            else Recorded(log, ip)
  {
    assert (log + [n])[..|log|] == log;
  }

  lemma HistoryMore(l: Limits, log: seq<Note>, n: Note, a: Ip, later: Instant)
    ensures Recent(Recorded(log + [n], a), later, l.window) ==
            if n.Cleared? && n.ip == a then []
            else Recent(Recorded(log, a), later, l.window) +
                 if n.Failed? && n.ip == a && !n.refused then Seen(n.now, later, l.window) else []
  {
    RecordedMore(log, n, a);
    if n.Failed? && n.ip == a && !n.refused {
      RecentMore(Recorded(log, a), n.now, later, l.window);
    }
  }

  // ----- one action -----

  function After(from: Instant, a: Action): Instant {
    if a.Arrive? then from else EndTime(a)
  }

  // What the attempts table becomes: unchanged, swept, cleared for one address, or visited.
  lemma RecentAfterFailure(l: Limits, t: Tables, ip: Ip, now: Instant, later: Instant, order: Order, a: Ip, when: Instant)
    requires now <= when
    ensures var v := OnFailure(l, t, ip, now, later, order);
            Recent(TimesOf(v.tables.attempts, a), when, l.window) ==
            Recent(TimesOf(MakeRoom(t.attempts, ip, order), a), when, l.window) +
            if a == ip && !v.refused then Seen(now, when, l.window) else []
  {
    hide MakeRoom, Recent;
    var v := OnFailure(l, t, ip, now, later, order);
    RecentAfterVisit(MakeRoom(t.attempts, ip, order), ip, now, l.window, !v.refused, a, when);
  }

  // ----- bans are justified, on every run -----

  // The table never remembers more failures than the history.
  ghost predicate NeverMore(l: Limits, t: Table, log: seq<Note>, from: Instant) {
    forall a, now :: from <= now ==> |Recent(TimesOf(t, a), now, l.window)| <= |Recent(Recorded(log, a), now, l.window)|
  }

  // A ban is set only by a failure that makes the maximum, and a failure is refused only
  // when the maximum has been reached before it, all in one window since the last success.
  predicate Warranted(l: Limits, log: seq<Note>, n: Note) {
    n.Failed? ==>
      && (n.bans ==> InWindow(l, log, n.ip, n.now) + 1 >= l.maxAttempts)
      && (n.refused ==> InWindow(l, log, n.ip, n.now) >= l.maxAttempts)
  }

  lemma ActionNeverMore(l: Limits, w: World, log: seq<Note>, from: Instant, a: Action)
    requires NeverMore(l, w.tables.attempts, log, from) && (!a.Arrive? ==> from <= a.now <= EndTime(a))
    ensures var s := OnAction(l, w, a);
            && NeverMore(l, s.state.tables.attempts, log + s.events, After(from, a))
            && (forall n :: n in s.events ==> Warranted(l, log, n))
  {
    hide MakeRoom, Recent, Recorded, Sweep;
    var s, t := OnAction(l, w, a), w.tables;
    assert log + [] == log;
    forall x, when | After(from, a) <= when
      ensures |Recent(TimesOf(s.state.tables.attempts, x), when, l.window)| <= |Recent(Recorded(log + s.events, x), when, l.window)|
    {
      if s.events != [] {
        assert s.events == [s.events[0]];
        HistoryMore(l, log, s.events[0], x, when);
      }
      match a
      case Cleanup(now) => RecentAfterSweep(t.attempts, now, l.window, x, when);
      case Arrive(r, ip, now) =>
      case KeyPasses(r, now) => NothingRecent(when, l.window);
      case KeyFails(r, now, later, order) =>
        if r in w.passed {
          RecentAfterFailure(l, t, w.passed[r], now, later, order, x, when);
          EvictionForgets(t.attempts, w.passed[r], order, x, when, l.window);
        }
    }
    if a.KeyFails? && a.r in w.passed {
      EvictionForgets(t.attempts, w.passed[a.r], a.order, w.passed[a.r], a.now, l.window);
      RecordedAreCounted(log, w.passed[a.r], a.now, l.window);
    }
  }

  predicate AllWarranted(l: Limits, log: seq<Note>) {
    forall i :: 0 <= i < |log| ==> Warranted(l, log[..i], log[i])
  }

  lemma WarrantedMore(l: Limits, log: seq<Note>, more: seq<Note>)
    requires AllWarranted(l, log) && |more| <= 1 && forall n :: n in more ==> Warranted(l, log, n)
    ensures AllWarranted(l, log + more)
  {
    hide Warranted;
    var all := log + more;
    forall i | 0 <= i < |all|
      ensures Warranted(l, all[..i], all[i])
    {
      if i < |log| {
        assert all[..i] == log[..i];
      } else {
        assert all[..i] == log && all[i] in more;
      }
    }
  }

  // The last reading of the clock under the lock.
  function LastTime(actions: seq<Action>): Instant {
    if actions == [] then 0 else After(LastTime(actions[..|actions| - 1]), actions[|actions| - 1])
  }

  lemma OneNote(l: Limits, w: World, a: Action)
    ensures |OnAction(l, w, a).events| <= 1
  {
  }

  lemma MonotonePrefix(actions: seq<Action>)
    requires Monotone(actions) && actions != []
    ensures var before, a := actions[..|actions| - 1], actions[|actions| - 1];
            Monotone(before) && (!a.Arrive? ==> LastTime(before) <= a.now <= EndTime(a))
  {
    assert actions[|actions| - 1] in actions;
    assert forall x :: x in actions[..|actions| - 1] ==> x in actions;
    LastOfLocked(actions[..|actions| - 1]);
  }

  lemma {:induction false} LastOfLocked(actions: seq<Action>)
    ensures LastTime(actions) == 0 || exists i :: 0 <= i < |actions| && !actions[i].Arrive? && LastTime(actions) == EndTime(actions[i])
  {
    if actions != [] {
      var before, a := actions[..|actions| - 1], actions[|actions| - 1];
      LastOfLocked(before);
      assert !a.Arrive? ==> LastTime(actions) == EndTime(actions[|actions| - 1]);
      assert forall i :: 0 <= i < |before| ==> before[i] == actions[i];
    }
  }

  lemma {:induction false} BansAreWarranted(l: Limits, actions: seq<Action>)
    requires Monotone(actions)
    ensures var t := Run(ActionStep(l), QUIET, actions);
            NeverMore(l, t.state.tables.attempts, t.events, LastTime(actions)) && AllWarranted(l, t.events)
  {
    NothingYet(l);
    hide OnAction, NeverMore, AllWarranted, Warranted, Monotone;
    if actions != [] {
      var before, a := actions[..|actions| - 1], actions[|actions| - 1];
      MonotonePrefix(actions);
      BansAreWarranted(l, before);
      var t := Run(ActionStep(l), QUIET, before);
      ActionNeverMore(l, t.state, t.events, LastTime(before), a);
      OneNote(l, t.state, a);
      WarrantedMore(l, t.events, OnAction(l, t.state, a).events);
    }
  }

  lemma NothingYet(l: Limits)
    ensures NeverMore(l, map[], [], 0) && AllWarranted(l, [])
  {
  }

  // ----- the table against the full history -----

  // From now on, the table answers as the full history would.
  ghost predicate Same(l: Limits, t: Table, log: seq<Note>, from: Instant) {
    forall a, now :: from <= now ==> Recent(TimesOf(t, a), now, l.window) == Recent(Recorded(log, a), now, l.window)
  }

  // Evicting somebody for the next failure shows in no later window.
  ghost predicate FreeRoom(l: Limits, w: World, a: Action) {
    a.KeyFails? && a.r in w.passed ==>
      ReadsSame(w.tables.attempts, MakeRoom(w.tables.attempts, w.passed[a.r], a.order), a.later, l.window)
  }

  // A failure sets a ban exactly when it makes the maximum, and is refused exactly when the
  // maximum was reached before it.
  predicate Exact(l: Limits, log: seq<Note>, n: Note) {
    n.Failed? ==>
      && n.bans == (InWindow(l, log, n.ip, n.now) + 1 >= l.maxAttempts)
      && n.refused == (InWindow(l, log, n.ip, n.now) >= l.maxAttempts)
  }

  lemma ActionKeepsSame(l: Limits, w: World, log: seq<Note>, from: Instant, a: Action)
    requires Same(l, w.tables.attempts, log, from) && (!a.Arrive? ==> from <= a.now <= EndTime(a))
    requires FreeRoom(l, w, a)
    ensures var s := OnAction(l, w, a);
            Same(l, s.state.tables.attempts, log + s.events, After(from, a))
  {
    hide MakeRoom, Recent, Recorded, Sweep;
    var s, t := OnAction(l, w, a), w.tables;
    assert log + [] == log;
    forall x, when | After(from, a) <= when
      ensures Recent(TimesOf(s.state.tables.attempts, x), when, l.window) == Recent(Recorded(log + s.events, x), when, l.window)
    {
      if s.events != [] {
        assert s.events == [s.events[0]];
        HistoryMore(l, log, s.events[0], x, when);
      }
      match a
      case Cleanup(now) => RecentAfterSweep(t.attempts, now, l.window, x, when);
      case Arrive(r, ip, now) =>
      case KeyPasses(r, now) => NothingRecent(when, l.window);
      case KeyFails(r, now, later, order) =>
        if r in w.passed {
          RecentAfterFailure(l, t, w.passed[r], now, later, order, x, when);
        }
    }
  }

  // Eviction never touches the address that has just failed.
  lemma FailuresDecide(l: Limits, w: World, log: seq<Note>, from: Instant, a: Action)
    requires Same(l, w.tables.attempts, log, from) && (!a.Arrive? ==> from <= a.now)
    ensures forall n :: n in OnAction(l, w, a).events ==> Exact(l, log, n)
  {
    hide MakeRoom, Recent, Recorded, FailedAfter;
    if a.KeyFails? && a.r in w.passed {
      MakeRoomKeeps(w.tables.attempts, w.passed[a.r], a.order);
      NothingRecent(a.now, l.window);
      RecordedAreCounted(log, w.passed[a.r], a.now, l.window);
    }
  }

  predicate AllExact(l: Limits, log: seq<Note>) {
    forall i :: 0 <= i < |log| ==> Exact(l, log[..i], log[i])
  }

  lemma ExactMore(l: Limits, log: seq<Note>, more: seq<Note>)
    requires AllExact(l, log) && |more| <= 1 && forall n :: n in more ==> Exact(l, log, n)
    ensures AllExact(l, log + more)
  {
    hide Exact;
    var all := log + more;
    forall i | 0 <= i < |all|
      ensures Exact(l, all[..i], all[i])
    {
      if i < |log| {
        assert all[..i] == log[..i];
      } else {
        assert all[..i] == log && all[i] in more;
      }
    }
  }

  ghost predicate Orderly(actions: seq<Action>) {
    forall a :: a in actions && a.KeyFails? ==> Lists(a.order)
  }

  // The addresses with a recorded failure, since their last success, in the window that
  // ends at `now`.
  ghost function Live(l: Limits, log: seq<Note>, now: Instant): set<Ip> {
    set n | n in log && InWindow(l, log, n.ip, now) > 0 :: n.ip
  }

  lemma {:induction false} RecordedIsLogged(log: seq<Note>, ip: Ip)
    ensures Recorded(log, ip) != [] ==> exists n :: n in log && n.ip == ip
  {
    if log != [] {
      var before, n := log[..|log| - 1], log[|log| - 1];
      RecordedIsLogged(before, ip);
      assert n in log && forall x :: x in before ==> x in log;
    }
  }

  lemma LiveMeans(l: Limits, log: seq<Note>, now: Instant, ip: Ip)
    ensures ip in Live(l, log, now) <==> Recent(Recorded(log, ip), now, l.window) != []
  {
    RecordedIsLogged(log, ip);
    NothingRecent(now, l.window);
    forall a ensures |Recent(Recorded(log, a), now, l.window)| == InWindow(l, log, a, now) {
      RecordedAreCounted(log, a, now, l.window);
    }
    hide Recent, Recorded, InWindow;
  }

  lemma FailureTends(l: Limits, t: Tables, from: Instant, ip: Ip, now: Instant, later: Instant, order: Order)
    requires Tended(t.attempts, from, l.maxAttempts == 0) && from <= now
    ensures Tended(OnFailure(l, t, ip, now, later, order).tables.attempts, now, l.maxAttempts == 0)
  {
    hide MakeRoom, Recent, Tended, TimesOf;
    var push := !OnFailure(l, t, ip, now, later, order).refused;
    TendedVisit(t.attempts, from, l.maxAttempts == 0, ip, order, now, l.window, push);
  }

  lemma ActionTends(l: Limits, w: World, from: Instant, a: Action)
    requires Tended(w.tables.attempts, from, l.maxAttempts == 0) && (!a.Arrive? ==> from <= a.now <= EndTime(a))
    ensures Tended(OnAction(l, w, a).state.tables.attempts, After(from, a), l.maxAttempts == 0)
  {
    hide Recent, Sweep, OnFailure, Peaks;
    if a.Cleanup? {
      TendedSweep(w.tables.attempts, from, l.maxAttempts == 0, a.now, l.window);
    }
    if a.KeyFails? && a.r in w.passed {
      FailureTends(l, w.tables, from, w.passed[a.r], a.now, a.later, a.order);
    }
  }

  lemma {:induction false} AlwaysTended(l: Limits, actions: seq<Action>)
    requires Monotone(actions)
    ensures Tended(Run(ActionStep(l), QUIET, actions).state.tables.attempts, LastTime(actions), l.maxAttempts == 0)
  {
    hide OnAction, Monotone;
    if actions != [] {
      var before, a := actions[..|actions| - 1], actions[|actions| - 1];
      MonotonePrefix(actions);
      AlwaysTended(l, before);
      ActionTends(l, Run(ActionStep(l), QUIET, before).state, LastTime(before), a);
    }
  }

  lemma ActionKeepsSmall(l: Limits, w: World, a: Action)
    requires l.maxAttempts > 0 && Small(w.tables.attempts) && (a.KeyFails? ==> Lists(a.order))
    ensures Small(OnAction(l, w, a).state.tables.attempts)
  {
    hide MakeRoom, Lists, Small, Sweep;
    var t := w.tables.attempts;
    match a
    case Arrive(r, ip, now) =>
    case Cleanup(now) => SmallSweep(t, now, l.window);
    case KeyPasses(r, now) => if r in w.passed { SmallWithout(t, w.passed[r]); }
    case KeyFails(r, now, later, order) =>
      if r in w.passed {
        var times := Recent(TimesOf(MakeRoom(t, w.passed[r], order), w.passed[r]), now, l.window);
        SmallVisit(t, w.passed[r], order, if |times| >= l.maxAttempts then times else times + [now]);
      }
  }

  // With a positive maximum the attempts never outgrow the table's capacity, and no list in
  // it is empty, on any interleaved run.
  lemma {:induction false} AttemptsStaySmall(l: Limits, actions: seq<Action>)
    requires l.maxAttempts > 0 && Orderly(actions)
    ensures var t := Run(ActionStep(l), QUIET, actions).state.tables.attempts;
            NoneEmpty(t) && |t| <= 10000
  {
    hide OnAction, Lists;
    if actions != [] {
      var before, a := actions[..|actions| - 1], actions[|actions| - 1];
      assert a in actions && forall x :: x in before ==> x in actions;
      AttemptsStaySmall(l, before);
      ActionKeepsSmall(l, Run(ActionStep(l), QUIET, before).state, a);
    }
  }

  // No list of attempts is longer than the maximum.
  lemma {:induction false} AttemptsStayShort(l: Limits, actions: seq<Action>)
    ensures Short(Run(ActionStep(l), QUIET, actions).state.tables.attempts, l.maxAttempts)
  {
    hide OnAction;
    if actions != [] {
      var before, a := actions[..|actions| - 1], actions[|actions| - 1];
      AttemptsStayShort(l, before);
      ActionKeepsShort(l, Run(ActionStep(l), QUIET, before).state, a);
    }
  }

  lemma ActionKeepsShort(l: Limits, w: World, a: Action)
    requires Short(w.tables.attempts, l.maxAttempts)
    ensures Short(OnAction(l, w, a).state.tables.attempts, l.maxAttempts)
  {
    hide MakeRoom, Recent, Sweep;
    var ip := if a.KeyFails? && a.r in w.passed then w.passed[a.r] else 0;
    StaysShort(w.tables.attempts, l.maxAttempts, ip, if a.KeyFails? then a.order else _ => [], a.now, l.window);
  }

  // A table that answers as the history holds everybody who is live.
  lemma SameHoldsLive(l: Limits, t: Table, log: seq<Note>, from: Instant)
    requires Same(l, t, log, from) && Tended(t, from, l.maxAttempts == 0) && (l.maxAttempts > 0 ==> Small(t))
    ensures |Live(l, log, from)| <= MAX_TRACKED_IPS
  {
    var live := Live(l, log, from);
    forall ip | ip in live
      ensures ip in t && t[ip] != []
    {
      LiveMeans(l, log, from, ip);
      NothingRecent(from, l.window);
    }
    hide Recent, Live;
    if l.maxAttempts == 0 {
      assert live == {};
    } else {
      Smaller(live, t.Keys);
      assert |t| == |t.Keys|;
    }
  }

  // A failure from a new address while everybody in a full table counts is one too many.
  lemma CrowdIsTooMany(l: Limits, t: Table, log: seq<Note>, from: Instant, n: Note, when: Instant)
    requires Same(l, t, log, from) && n.Failed? && !n.refused && from <= n.now <= when
    requires n.ip !in t && |t| >= MAX_TRACKED_IPS && AllCount(t, when, l.window) && when - n.now < l.window
    ensures |Live(l, log + [n], when)| > MAX_TRACKED_IPS
  {
    var live := Live(l, log + [n], when);
    forall a | a in t || a == n.ip
      ensures a in live
    {
      LiveMeans(l, log + [n], when, a);
      HistoryMore(l, log, n, a, when);
    }
    hide Recent, Live, Recorded;
    Smaller(t.Keys + {n.ip}, live);
    assert |t.Keys + {n.ip}| == |t| + 1;
  }

  lemma FirstFailure(l: Limits, w: World, a: Action)
    requires a.KeyFails? && a.r in w.passed && w.passed[a.r] !in w.tables.attempts && l.maxAttempts > 0
    ensures var s := OnAction(l, w, a);
            |s.events| == 1 && s.events[0].Failed? && !s.events[0].refused && s.events[0].ip == w.passed[a.r] && s.events[0].now == a.now
  {
    MakeRoomKeeps(w.tables.attempts, w.passed[a.r], a.order);
    NothingRecent(a.now, l.window);
    hide MakeRoom, Recent;
  }

  // One action more: the attempts still answer as the history if and only if the history has
  // no more live addresses than the table has room for.
  lemma StaysSame(l: Limits, w: World, log: seq<Note>, from: Instant, a: Action)
    requires Same(l, w.tables.attempts, log, from) && Tended(w.tables.attempts, from, l.maxAttempts == 0)
    requires l.maxAttempts > 0 ==> Small(OnAction(l, w, a).state.tables.attempts)
    requires (!a.Arrive? ==> from <= a.now <= EndTime(a)) && (a.KeyFails? ==> Lists(a.order))
    ensures var s := OnAction(l, w, a);
            Same(l, s.state.tables.attempts, log + s.events, After(from, a)) <==>
            |Live(l, log + s.events, After(from, a))| <= MAX_TRACKED_IPS
  {
    hide Same, OnAction, Live, Lists, AllCount, ReadsSame, MakeRoom, Tended, Small;
    var s, t := OnAction(l, w, a), w.tables.attempts;
    ActionTends(l, w, from, a);
    if Same(l, s.state.tables.attempts, log + s.events, After(from, a)) {
      SameHoldsLive(l, s.state.tables.attempts, log + s.events, After(from, a));
    }
    if FreeRoom(l, w, a) {
      ActionKeepsSame(l, w, log, from, a);
    } else {
      RoomIsFree(t, from, l.maxAttempts == 0, w.passed[a.r], a.order, a.later, l.window);
      FirstFailure(l, w, a);
      assert s.events == [s.events[0]];
      CrowdIsTooMany(l, t, log, from, s.events[0], a.later);
    }
  }

  // After the first `n` actions, the attempts answer as the full history.
  ghost predicate AgreesAfter(l: Limits, actions: seq<Action>, n: nat)
    requires n <= |actions|
  {
    var t := Run(ActionStep(l), QUIET, actions[..n]);
    Same(l, t.state.tables.attempts, t.events, LastTime(actions[..n]))
  }

  // After the first `n` actions, no more addresses are live than fit the table.
  ghost predicate FitsAfter(l: Limits, actions: seq<Action>, n: nat)
    requires n <= |actions|
  {
    |Live(l, Run(ActionStep(l), QUIET, actions[..n]).events, LastTime(actions[..n]))| <= 10000
  }

  ghost predicate Agrees(l: Limits, actions: seq<Action>) {
    forall n :: 0 <= n <= |actions| ==> AgreesAfter(l, actions, n)
  }

  ghost predicate Fits(l: Limits, actions: seq<Action>) {
    forall n :: 0 <= n <= |actions| ==> FitsAfter(l, actions, n)
  }

  lemma OneActionMore(l: Limits, actions: seq<Action>)
    requires actions != []
    ensures var before := actions[..|actions| - 1];
            && (Agrees(l, actions) <==> Agrees(l, before) && AgreesAfter(l, actions, |actions|))
            && (Fits(l, actions) <==> Fits(l, before) && FitsAfter(l, actions, |actions|))
  {
    hide Run, Live, Same, LastTime;
    var before := actions[..|actions| - 1];
    assert forall n :: 0 <= n <= |before| ==> actions[..n] == before[..n];
    assert forall n :: 0 <= n <= |before| ==> AgreesAfter(l, actions, n) == AgreesAfter(l, before, n);
    assert forall n :: 0 <= n <= |before| ==> FitsAfter(l, actions, n) == FitsAfter(l, before, n);
  }

  lemma AgreesMeans(l: Limits, actions: seq<Action>)
    ensures var t := Run(ActionStep(l), QUIET, actions);
            && AgreesAfter(l, actions, |actions|) == Same(l, t.state.tables.attempts, t.events, LastTime(actions))
            && FitsAfter(l, actions, |actions|) == (|Live(l, t.events, LastTime(actions))| <= 10000)
  {
    assert actions[..|actions|] == actions;
    hide Run, Same, Live;
  }

  lemma LastAgrees(l: Limits, actions: seq<Action>)
    requires Monotone(actions) && Orderly(actions) && actions != [] && Agrees(l, actions[..|actions| - 1])
    ensures AgreesAfter(l, actions, |actions|) <==> FitsAfter(l, actions, |actions|)
  {
    hide OnAction, Same, Live, Lists, Tended, NoneEmpty, AgreesAfter, FitsAfter, Monotone;
    var before, a := actions[..|actions| - 1], actions[|actions| - 1];
    assert a in actions && forall x :: x in before ==> x in actions;
    assert AgreesAfter(l, before, |before|);
    MonotonePrefix(actions);
    AgreesMeans(l, before);
    AgreesMeans(l, actions);
    AlwaysTended(l, before);
    if l.maxAttempts > 0 {
      AttemptsStaySmall(l, actions);
    }
    var t := Run(ActionStep(l), QUIET, before);
    StaysSame(l, t.state, t.events, LastTime(before), a);
  }

  // On all interleaved runs: eviction, pruning and cleanup never show in the attempts if and
  // only if never more than 10,000 addresses have a recorded failure in the current window.
  lemma {:induction false} AgreesWhenItFits(l: Limits, actions: seq<Action>)
    requires Monotone(actions) && Orderly(actions)
    ensures Agrees(l, actions) <==> Fits(l, actions)
  {
    hide AgreesAfter, FitsAfter, Lists, Monotone;
    if actions == [] {
      NothingAgrees(l);
    } else {
      assert forall x :: x in actions[..|actions| - 1] ==> x in actions;
      MonotonePrefix(actions);
      AgreesWhenItFits(l, actions[..|actions| - 1]);
      OneActionMore(l, actions);
      if Agrees(l, actions[..|actions| - 1]) {
        LastAgrees(l, actions);
      }
    }
  }

  lemma NothingAgrees(l: Limits)
    ensures AgreesAfter(l, [], 0) && FitsAfter(l, [], 0)
  {
    assert Live(l, [], 0) == {};
  }

  lemma AgreesThen(l: Limits, actions: seq<Action>)
    requires Agrees(l, actions)
    ensures AgreesAfter(l, actions, |actions|)
  {
  }

  // In particular a failure then bans, or is refused, exactly when the full history says so.
  lemma {:induction false} BansAreExact(l: Limits, actions: seq<Action>)
    requires Monotone(actions) && Orderly(actions) && Fits(l, actions)
    ensures AllExact(l, Run(ActionStep(l), QUIET, actions).events)
  {
    NothingYetSame(l);
    hide OnAction, Same, AllExact, Exact, Monotone, Lists, Fits, Agrees;
    if actions != [] {
      var before, a := actions[..|actions| - 1], actions[|actions| - 1];
      assert a in actions && forall x :: x in before ==> x in actions;
      MonotonePrefix(actions);
      OneActionMore(l, actions);
      BansAreExact(l, before);
      AgreesWhenItFits(l, before);
      AgreesThen(l, before);
      AgreesMeans(l, before);
      var t := Run(ActionStep(l), QUIET, before);
      FailuresDecide(l, t.state, t.events, LastTime(before), a);
      OneNote(l, t.state, a);
      ExactMore(l, t.events, OnAction(l, t.state, a).events);
    }
  }

  // A cleanup then leaves the attempts of exactly the live addresses.
  lemma CleanupLeavesLive(l: Limits, actions: seq<Action>, now: Instant)
    requires Monotone(actions) && Orderly(actions) && Fits(l, actions) && LastTime(actions) <= now
    ensures var t := Run(ActionStep(l), QUIET, actions);
            OnAction(l, t.state, Cleanup(now)).state.tables.attempts.Keys == Live(l, t.events, now)
  {
    hide OnAction, AgreesAfter, FitsAfter, Agrees, Fits, Lists, Live, Recent, Same, Monotone;
    AgreesWhenItFits(l, actions);
    AgreesThen(l, actions);
    AgreesMeans(l, actions);
    var t := Run(ActionStep(l), QUIET, actions);
    forall ip ensures ip in OnAction(l, t.state, Cleanup(now)).state.tables.attempts <==> ip in Live(l, t.events, now) {
      LiveMeans(l, t.events, now, ip);
      SweptIsLive(l, t.state, t.events, LastTime(actions), now, ip);
    }
  }

  lemma SweptIsLive(l: Limits, w: World, log: seq<Note>, from: Instant, now: Instant, ip: Ip)
    requires Same(l, w.tables.attempts, log, from) && from <= now
    ensures ip in OnAction(l, w, Cleanup(now)).state.tables.attempts <==> Recent(Recorded(log, ip), now, l.window) != []
  {
    NothingRecent(now, l.window);
    hide Recent, Recorded;
  }

  lemma NothingYetSame(l: Limits)
    ensures Same(l, map[], [], 0) && AllExact(l, [])
  {
  }

  // A refused failure leaves no trace, so counting it as well would ban more: with a limit
  // of two in ten, failures at 0, 1, 5 and 12 do not ban at 12, though 5 and 12 are close.
  lemma RefusedFailureIsForgotten(order: Order)
    ensures var l := Limits(2, 10, 1);
            var a := OnFailure(l, Tables(map[7 := [0, 1]], map[]), 7, 5, 5, order);
            var b := OnFailure(l, a.tables, 7, 12, 12, order);
            a.refused && !b.refused && !b.bans
  {
    var l := Limits(2, 10, 1);
    BothRecent();
    NoneRecent();
    MakeRoomKeeps(map[7 := [0, 1]], 7, order);
    hide Recent, MakeRoom;
    var a := OnFailure(l, Tables(map[7 := [0, 1]], map[]), 7, 5, 5, order);
    assert a.tables.attempts == map[7 := [0, 1]];
    MakeRoomKeeps(a.tables.attempts, 7, order);
  }

  lemma BothRecent()
    ensures Recent([0, 1], 5, 10) == [0, 1]
  {
    RecentMore([], 0, 5, 10);
    RecentMore([0], 1, 5, 10);
    assert [] + [0] == [0] && [0] + [1] == [0, 1];
  }

  lemma NoneRecent()
    ensures Recent([0, 1], 12, 10) == []
  {
    RecentMore([], 0, 12, 10);
    RecentMore([0], 1, 12, 10);
    assert [] + [0] == [0] && [0] + [1] == [0, 1];
  }

  // ----- a ban lasts -----

  // No ban outlasts the clock by more than the ban duration.
  ghost predicate BansBounded(l: Limits, banned: map<Ip, Instant>, from: Instant) {
    forall ip :: ip in banned ==> banned[ip] <= from + l.ban
  }

  lemma {:induction false} BansAreBounded(l: Limits, actions: seq<Action>)
    requires Monotone(actions)
    ensures BansBounded(l, Run(ActionStep(l), QUIET, actions).state.tables.banned, LastTime(actions))
  {
    hide Monotone, MakeRoom, Recent, Sweep;
    if actions != [] {
      MonotonePrefix(actions);
      BansAreBounded(l, actions[..|actions| - 1]);
    }
  }

  predicate Completes(a: Action, r: Request) {
    (a.KeyFails? || a.KeyPasses?) && a.r == r
  }

  // `r` got past the ban check for `ip` before `start`, and its key is yet to be checked.
  ghost predicate Underway(start: World, ip: Ip, done: seq<Action>, r: Request) {
    r in start.passed && start.passed[r] == ip && forall a :: a in done ==> !Completes(a, r)
  }

  // The ban is in place, and just those requests are under way that were when it was found.
  ghost predicate Holding(w: World, start: World, ip: Ip, expiry: Instant, done: seq<Action>) {
    && ip in w.tables.banned && w.tables.banned[ip] >= expiry
    && forall r :: r in w.passed && w.passed[r] == ip <==> Underway(start, ip, done, r)
  }

  ghost predicate Clears(start: World, ip: Ip, done: seq<Action>, a: Action) {
    a.KeyPasses? && Underway(start, ip, done, a.r)
  }

  // Some request that got past the ban check before the ban turns out to carry a valid key.
  ghost predicate PassesEarly(start: World, ip: Ip, actions: seq<Action>) {
    exists i :: 0 <= i < |actions| && Clears(start, ip, actions[..i], actions[i])
  }

  lemma ActionHolds(l: Limits, w: World, start: World, ip: Ip, expiry: Instant, done: seq<Action>, a: Action)
    requires Holding(w, start, ip, expiry, done) && a.now < expiry
    requires !a.Arrive? ==> expiry <= a.now + l.ban && a.now <= EndTime(a)
    ensures var s := OnAction(l, w, a);
            && (if Clears(start, ip, done, a) then ip !in s.state.tables.banned
                else Holding(s.state, start, ip, expiry, done + [a]))
            && (forall n :: n in s.events ==> !(n.Admitted? && n.ip == ip))
            && (a.Arrive? && a.ip == ip && a.r !in w.passed ==> s.events == [TurnedAway(ip, a.now)])
  {
    hide MakeRoom, Recent, Sweep;
    assert forall r :: Underway(start, ip, done + [a], r) <==> Underway(start, ip, done, r) && !Completes(a, r);
  }

  lemma EarlierPasses(start: World, ip: Ip, actions: seq<Action>)
    requires actions != []
    ensures var before, a := actions[..|actions| - 1], actions[|actions| - 1];
            PassesEarly(start, ip, actions) <==> PassesEarly(start, ip, before) || Clears(start, ip, before, a)
  {
    hide Clears;
    var before := actions[..|actions| - 1];
    assert forall i :: 0 <= i < |before| ==> actions[..i] == before[..i] && actions[i] == before[i];
    if PassesEarly(start, ip, before) {
      var i :| 0 <= i < |before| && Clears(start, ip, before[..i], before[i]);
      assert Clears(start, ip, actions[..i], actions[i]);
    }
  }

  // The actions of a run after a ban on `ip` was found, up to its expiry.
  ghost predicate Until(l: Limits, past: seq<Action>, actions: seq<Action>, ip: Ip) {
    && Monotone(past + actions)
    && var banned := Run(ActionStep(l), QUIET, past).state.tables.banned;
       ip in banned && forall a :: a in actions ==> a.now < banned[ip]
  }

  lemma UntilBefore(l: Limits, past: seq<Action>, actions: seq<Action>, ip: Ip)
    requires Until(l, past, actions, ip) && actions != []
    ensures var before, a := actions[..|actions| - 1], actions[|actions| - 1];
            var banned := Run(ActionStep(l), QUIET, past).state.tables.banned;
            && Until(l, past, before, ip) && ip in banned
            && a.now < banned[ip]
            && (!a.Arrive? ==> banned[ip] <= a.now + l.ban && a.now <= EndTime(a))
  {
    hide Monotone, ActionStep;
    var before, a := actions[..|actions| - 1], actions[|actions| - 1];
    assert (past + actions)[..|past + actions| - 1] == past + before && a in actions;
    assert forall x :: x in before ==> x in actions;
    assert (past + actions)[|past + actions| - 1] == a;
    MonotonePrefix(past + actions);
    MonotoneStart(past, actions);
    BansAreBounded(l, past);
  }

  // Once an address is banned, whatever other addresses do, however tables are evicted and
  // cleaned, and even while further failures come in: until the ban expires every request
  // from the address that arrives is turned away, and the ban stays, unless a request whose
  // ban check came before the ban turns out to carry a valid key.
  lemma {:induction false} BanLasts(l: Limits, past: seq<Action>, actions: seq<Action>, ip: Ip)
    requires Until(l, past, actions, ip)
    requires !PassesEarly(Run(ActionStep(l), QUIET, past).state, ip, actions)
    ensures var start := Run(ActionStep(l), QUIET, past).state;
            var t := Run(ActionStep(l), start, actions);
            && Holding(t.state, start, ip, start.tables.banned[ip], actions)
            && (forall n :: n in t.events ==> !(n.Admitted? && n.ip == ip))
  {
    hide OnAction, Monotone, Clears, PassesEarly;
    if actions != [] {
      var before, a := actions[..|actions| - 1], actions[|actions| - 1];
      var start := Run(ActionStep(l), QUIET, past).state;
      UntilBefore(l, past, actions, ip);
      EarlierPasses(start, ip, actions);
      BanLasts(l, past, before, ip);
      ActionHolds(l, Run(ActionStep(l), start, before).state, start, ip, start.tables.banned[ip], before, a);
      assert actions == before + [a];
    }
  }

  // The ban is gone after the first `n` of the actions.
  ghost predicate GoneAfter(l: Limits, start: World, ip: Ip, actions: seq<Action>, n: nat)
    requires n <= |actions|
  {
    ip !in Run(ActionStep(l), start, actions[..n]).state.tables.banned
  }

  // Such a request does clear it: a ban is gone before its expiry if and only if there is one.
  lemma {:induction false} BanEndsEarly(l: Limits, past: seq<Action>, actions: seq<Action>, ip: Ip)
    requires Until(l, past, actions, ip)
    ensures var start := Run(ActionStep(l), QUIET, past).state;
            PassesEarly(start, ip, actions) <==> exists n :: 0 <= n <= |actions| && GoneAfter(l, start, ip, actions, n)
  {
    hide Clears, Until, PassesEarly, Run, Holding;
    var start := Run(ActionStep(l), QUIET, past).state;
    if !PassesEarly(start, ip, actions) {
      forall n | 0 <= n <= |actions| ensures !GoneAfter(l, start, ip, actions, n) {
        StillThere(l, past, actions, ip, n);
      }
    } else {
      var n := GoesWhenPassed(l, past, actions, ip);
    }
  }

  lemma {:induction false} StillThere(l: Limits, past: seq<Action>, actions: seq<Action>, ip: Ip, n: nat)
    requires Until(l, past, actions, ip) && n <= |actions|
    requires !PassesEarly(Run(ActionStep(l), QUIET, past).state, ip, actions)
    ensures !GoneAfter(l, Run(ActionStep(l), QUIET, past).state, ip, actions, n)
  {
    hide Clears, Until, PassesEarly, Run;
    var start := Run(ActionStep(l), QUIET, past).state;
    if n == |actions| {
      assert actions[..n] == actions;
      BanLasts(l, past, actions, ip);
    } else {
      UntilBefore(l, past, actions, ip);
      EarlierPasses(start, ip, actions);
      StillThere(l, past, actions[..|actions| - 1], ip, n);
      assert actions[..|actions| - 1][..n] == actions[..n];
    }
  }

  lemma {:induction false} GoesWhenPassed(l: Limits, past: seq<Action>, actions: seq<Action>, ip: Ip) returns (n: nat)
    requires Until(l, past, actions, ip)
    requires PassesEarly(Run(ActionStep(l), QUIET, past).state, ip, actions)
    ensures n <= |actions| && GoneAfter(l, Run(ActionStep(l), QUIET, past).state, ip, actions, n)
  {
    var start := Run(ActionStep(l), QUIET, past).state;
    assert actions != [];
    hide OnAction, Clears, Until, PassesEarly;
    var before, a := actions[..|actions| - 1], actions[|actions| - 1];
    UntilBefore(l, past, actions, ip);
    EarlierPasses(start, ip, actions);
    if PassesEarly(start, ip, before) {
      n := GoesWhenPassed(l, past, before, ip);
      assert before[..n] == actions[..n];
    } else {
      BanLasts(l, past, before, ip);
      ActionHolds(l, Run(ActionStep(l), start, before).state, start, ip, start.tables.banned[ip], before, a);
      n := |actions|;
      assert actions[..n] == actions;
    }
  }

  // A ban check that reads the clock (11) between the two readings of a failure (10 and 12)
  // still lets its request through, and the ban of that failure finds it under way.
  lemma ChecksMayRace(ip: Ip, order: Order)
    ensures var l := Limits(1, 10, 100);
            var actions := [Arrive(1, ip, 9), Arrive(2, ip, 11), KeyFails(1, 10, 12, order)];
            var w := Run(ActionStep(l), QUIET, actions).state;
            Monotone(actions) && w.tables.banned == map[ip := 112] && w.passed == map[2 := ip]
  {
    hide OnAction, Run;
    var l := Limits(1, 10, 100);
    var a, b, c := Arrive(1, ip, 9), Arrive(2, ip, 11), KeyFails(1, 10, 12, order);
    assert Monotone([a, b, c]);
    RunThree(ActionStep(l), QUIET, a, b, c);
    RaceSteps(l, ip, order);
  }

  lemma RaceSteps(l: Limits, ip: Ip, order: Order)
    requires l == Limits(1, 10, 100)
    ensures var w := OnAction(l, QUIET, Arrive(1, ip, 9)).state;
            var v := OnAction(l, w, Arrive(2, ip, 11)).state;
            var u := OnAction(l, v, KeyFails(1, 10, 12, order)).state;
            u.tables.banned == map[ip := 112] && u.passed == map[2 := ip]
  {
    hide OnFailure;
    FirstFailureBans(ip, order);
    assert map[1 := ip, 2 := ip] - {1} == map[2 := ip];
  }

  lemma FirstFailureBans(ip: Ip, order: Order)
    ensures OnFailure(Limits(1, 10, 100), Tables(map[], map[]), ip, 10, 12, order).tables.banned == map[ip := 112]
  {
    MakeRoomKeeps(map[], ip, order);
    NothingRecent(10, 10);
    hide MakeRoom, Recent;
  }

  lemma MonotoneStart(past: seq<Action>, actions: seq<Action>)
    requires Monotone(past + actions) && actions != []
    ensures Monotone(past) && (!actions[|actions| - 1].Arrive? ==> LastTime(past) <= actions[|actions| - 1].now)
  {
    var all := past + actions;
    assert forall i :: 0 <= i < |past| ==> all[i] == past[i];
    assert all[|all| - 1] == actions[|actions| - 1];
    assert forall x :: x in past ==> x in all;
    LastOfLocked(past);
  }

  // ----- bans as the log has them -----

  // When the last ban of an address ends: that of its last failure to set one, unless a
  // success came after it.
  function BanEnds(l: Limits, log: seq<Note>, ip: Ip): Option<Instant> {
    if log == [] then None
    else
      var before, last := BanEnds(l, log[..|log| - 1], ip), log[|log| - 1];
      if last.Cleared? && last.ip == ip then None
      else if last.Failed? && last.ip == ip && last.bans then Some(last.later + l.ban)
      else before
  }

  predicate BannedAt(l: Limits, log: seq<Note>, ip: Ip, now: Instant) {
    BanEnds(l, log, ip).Some? && now < BanEnds(l, log, ip).value
  }

  lemma BanEndsMore(l: Limits, log: seq<Note>, n: Note, ip: Ip)
    ensures BanEnds(l, log + [n], ip) ==
            if n.Cleared? && n.ip == ip then None
            else if n.Failed? && n.ip == ip && n.bans then Some(n.later + l.ban)
            else BanEnds(l, log, ip)
  {
    assert (log + [n])[..|log|] == log;
  }

  // A ban check sees what cleanups before it have done, so it reads the clock after them.
  ghost predicate SeesCleanups(actions: seq<Action>) {
    forall i, j :: 0 <= i < j < |actions| && actions[i].Cleanup? && actions[j].Arrive? ==> actions[i].now <= actions[j].now
  }

  // No ban has been cleaned up that ends after `when`, and no other is missing or differs.
  ghost predicate OnRecord(l: Limits, banned: map<Ip, Instant>, log: seq<Note>, ip: Ip, when: Instant) {
    var ban := BanEnds(l, log, ip);
    if ip in banned then ban == Some(banned[ip]) else ban.Some? ==> ban.value <= when
  }

  lemma ActionOnRecord(l: Limits, w: World, log: seq<Note>, a: Action, ip: Ip, when: Instant)
    requires OnRecord(l, w.tables.banned, log, ip, when) && (a.Cleanup? ==> a.now <= when)
    ensures var s := OnAction(l, w, a);
            OnRecord(l, s.state.tables.banned, log + s.events, ip, when)
  {
    hide MakeRoom, Recent, Sweep, BanEnds;
    var s := OnAction(l, w, a);
    if s.events == [] {
      assert log + [] == log;
    } else {
      assert s.events == [s.events[0]];
      BanEndsMore(l, log, s.events[0], ip);
    }
  }

  lemma {:induction false} BansAreOnRecord(l: Limits, actions: seq<Action>, ip: Ip, when: Instant)
    requires forall a :: a in actions && a.Cleanup? ==> a.now <= when
    ensures var t := Run(ActionStep(l), QUIET, actions);
            OnRecord(l, t.state.tables.banned, t.events, ip, when)
  {
    hide OnAction;
    if actions != [] {
      var before, a := actions[..|actions| - 1], actions[|actions| - 1];
      assert a in actions && forall x :: x in before ==> x in actions;
      BansAreOnRecord(l, before, ip, when);
      var t := Run(ActionStep(l), QUIET, before);
      ActionOnRecord(l, t.state, t.events, a, ip, when);
    }
  }

  // On all interleaved runs: a request that arrives is turned away if and only if its address
  // has failed with a ban, has not succeeded since, and the ban, counted from the failure's
  // second reading of the clock, has not expired.
  lemma TurnedAwayWhileBanned(l: Limits, actions: seq<Action>, r: Request, ip: Ip, now: Instant)
    requires SeesCleanups(actions + [Arrive(r, ip, now)])
    requires r !in Run(ActionStep(l), QUIET, actions).state.passed
    ensures var t := Run(ActionStep(l), QUIET, actions);
            OnAction(l, t.state, Arrive(r, ip, now)).events ==
            [if BannedAt(l, t.events, ip, now) then TurnedAway(ip, now) else Admitted(ip, now)]
  {
    hide BanEnds;
    var all := actions + [Arrive(r, ip, now)];
    forall a | a in actions && a.Cleanup?
      ensures a.now <= now
    {
      var i :| 0 <= i < |actions| && actions[i] == a;
      assert all[i] == a && all[|actions|] == Arrive(r, ip, now);
    }
    BansAreOnRecord(l, actions, ip, now);
  }

  // An address whose last ban has expired is let in, cleaned up or not.
  lemma ExpiredIsAdmitted(l: Limits, actions: seq<Action>, r: Request, ip: Ip, now: Instant)
    requires SeesCleanups(actions + [Arrive(r, ip, now)])
    requires var t := Run(ActionStep(l), QUIET, actions);
             r !in t.state.passed && BanEnds(l, t.events, ip).Some? && BanEnds(l, t.events, ip).value <= now
    ensures OnAction(l, Run(ActionStep(l), QUIET, actions).state, Arrive(r, ip, now)).events == [Admitted(ip, now)]
  {
    hide *;
    TurnedAwayWhileBanned(l, actions, r, ip, now);
    NotBanned(l, Run(ActionStep(l), QUIET, actions).events, ip, now);
  }

  lemma NotBanned(l: Limits, log: seq<Note>, ip: Ip, now: Instant)
    requires BanEnds(l, log, ip).Some? && BanEnds(l, log, ip).value <= now
    ensures !BannedAt(l, log, ip, now)
  {
  }

  // Right after a cleanup the bans on record are those the log has unexpired, no more and no
  // fewer.
  lemma CleanupLeavesUnexpired(l: Limits, actions: seq<Action>, now: Instant, ip: Ip)
    requires forall a :: a in actions && a.Cleanup? ==> a.now <= now
    ensures var t := Run(ActionStep(l), QUIET, actions);
            var banned := OnAction(l, t.state, Cleanup(now)).state.tables.banned;
            && (ip in banned <==> BannedAt(l, t.events, ip, now))
            && (ip in banned ==> banned[ip] == BanEnds(l, t.events, ip).value)
  {
    hide BanEnds, Sweep;
    BansAreOnRecord(l, actions, ip, now);
  }
}
