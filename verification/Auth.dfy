// Failed-login tracking and bans: the tables on their own, the object that holds them, and
// the middleware as requests whose steps interleave.
module Auth {
  import opened Wrappers
  import opened Machine
  import opened SlidingWindow

  datatype Limits = Limits(maxAttempts: nat, window: nat, ban: nat)

  datatype Tables = Tables(attempts: Table, banned: map<Ip, Instant>)

  predicate IsBanned(t: Tables, ip: Ip, now: Instant) {
    ip in t.banned && now < t.banned[ip]
  }

  // `refused`: answered with 429 and not recorded. `bans`: a ban was set or extended.
  datatype Verdict = Verdict(tables: Tables, refused: bool, bans: bool)

  // A failure at `now`; the clock is read again, as `later`, when a ban is set.
  function OnFailure(l: Limits, t: Tables, ip: Ip, now: Instant, later: Instant, order: Order): Verdict {
    var room := MakeRoom(t.attempts, ip, order);
    var times := Recent(TimesOf(room, ip), now, l.window);
    if |times| >= l.maxAttempts then
      Verdict(Tables(room[ip := times], t.banned[ip := later + l.ban]), true, true)
    else if |times| + 1 >= l.maxAttempts then
      Verdict(Tables(room[ip := times + [now]], t.banned[ip := later + l.ban]), false, true)
    else
      Verdict(Tables(room[ip := times + [now]], t.banned), false, false)
  }

  function OnSuccess(t: Tables, ip: Ip): Tables {
    Tables(t.attempts - {ip}, t.banned - {ip})
  }

  function OnCleanup(l: Limits, t: Tables, now: Instant): Tables {
    Tables(Sweep(t.attempts, now, l.window), map ip | ip in t.banned && t.banned[ip] > now :: t.banned[ip])
  }

  class AuthState {
    const limits: Limits
    var failedAttempts: Table
    var bannedUntil: map<Ip, Instant>

    constructor (limits: Limits)
      ensures this.limits == limits && Contents() == Tables(map[], map[])
    {
      this.limits := limits;
      failedAttempts, bannedUntil := map[], map[];
    }

    ghost function Contents(): Tables
      reads this
    {
      Tables(failedAttempts, bannedUntil)
    }

    method IsBannedNow(ip: Ip, now: Instant) returns (r: bool)
      ensures r == IsBanned(Contents(), ip, now)
    {
      r := ip in bannedUntil && now < bannedUntil[ip];
    }

    method EvictOldest(order: Order)
      modifies this
      ensures bannedUntil == old(bannedUntil)
      ensures var oldest := Oldest(order(old(failedAttempts).Keys), old(failedAttempts));
              failedAttempts == if oldest.Some? then old(failedAttempts) - {oldest.value} else old(failedAttempts)
    {
      var keys := order(failedAttempts.Keys);
      var oldest: Option<Ip> := None;
      assert keys[..0] == [];
      for i := 0 to |keys|
        invariant oldest == Oldest(keys[..i], failedAttempts)
      {
        var k := keys[i];
        assert keys[..i + 1][..i] == keys[..i];
        if k in failedAttempts && failedAttempts[k] != [] {
          if oldest.None? || Staler(failedAttempts, k, oldest.value) {
            oldest := Some(k);
          }
        }
      }
      assert keys[..|keys|] == keys;
      if oldest.Some? {
        failedAttempts := failedAttempts - {oldest.value};
      }
    }

    method RecordFailure(ip: Ip, now: Instant, later: Instant, order: Order) returns (refused: bool)
      modifies this
      ensures var v := OnFailure(limits, old(Contents()), ip, now, later, order);
              Contents() == v.tables && refused == v.refused
    {
      if |failedAttempts| >= MAX_TRACKED_IPS && ip !in failedAttempts {
        EvictOldest(order);
      }
      ghost var room := failedAttempts;
      assert room == MakeRoom(old(failedAttempts), ip, order);
      hide MakeRoom;
      var entry := if ip in failedAttempts then failedAttempts[ip] else [];
      var attemptTimes := [];
      assert entry[..0] == [];
      for i := 0 to |entry|
        invariant attemptTimes == Recent(entry[..i], now, limits.window)
      {
        assert entry[..i + 1][..i] == entry[..i];
        if now - entry[i] < limits.window {
          attemptTimes := attemptTimes + [entry[i]];
        }
      }
      assert entry[..|entry|] == entry;
      if |attemptTimes| >= limits.maxAttempts {
        failedAttempts := failedAttempts[ip := attemptTimes];
        bannedUntil := bannedUntil[ip := later + limits.ban];
        return true;
      }
      attemptTimes := attemptTimes + [now];
      failedAttempts := failedAttempts[ip := attemptTimes];
      if |attemptTimes| >= limits.maxAttempts {
        bannedUntil := bannedUntil[ip := later + limits.ban];
      }
      return false;
    }

    method RecordSuccess(ip: Ip)
      modifies this
      ensures Contents() == OnSuccess(old(Contents()), ip)
    {
      failedAttempts := failedAttempts - {ip};
      bannedUntil := bannedUntil - {ip};
    }

    method Cleanup(now: Instant)
      modifies this
      ensures Contents() == OnCleanup(limits, old(Contents()), now)
    {
      var pruned := map ip | ip in failedAttempts :: Recent(failedAttempts[ip], now, limits.window);
      failedAttempts := map ip | ip in pruned && pruned[ip] != [] :: pruned[ip];
      bannedUntil := map ip | ip in bannedUntil && bannedUntil[ip] > now :: bannedUntil[ip];
    }
  }

  // ----- the middleware: requests in several steps -----

  type Request = nat

  // A request first has its ban checked, then its key; other steps may come in between.
  datatype Action =
    | Arrive(r: Request, ip: Ip, now: Instant)
    | KeyFails(r: Request, now: Instant, later: Instant, order: Order)
    | KeyPasses(r: Request, now: Instant)
    | Cleanup(now: Instant)

  // `passed` are the requests whose ban check is behind and whose key check is ahead.
  datatype World = World(tables: Tables, passed: map<Request, Ip>)

  datatype Note =
    | Admitted(ip: Ip, now: Instant)
    | TurnedAway(ip: Ip, now: Instant)
    | Failed(ip: Ip, now: Instant, later: Instant, refused: bool, bans: bool)
    | Cleared(ip: Ip)

  const QUIET := World(Tables(map[], map[]), map[])

  function OnAction(l: Limits, w: World, a: Action): Step<World, Note> {
    match a
    case Arrive(r, ip, now) =>
      if r in w.passed then Step(w, [])
      else if IsBanned(w.tables, ip, now) then Step(w, [TurnedAway(ip, now)])
      else Step(w.(passed := w.passed[r := ip]), [Admitted(ip, now)])
    case KeyFails(r, now, later, order) =>
      if r !in w.passed then Step(w, [])
      else
        var ip := w.passed[r];
        var v := OnFailure(l, w.tables, ip, now, later, order);
        Step(World(v.tables, w.passed - {r}), [Failed(ip, now, later, v.refused, v.bans)])
    case KeyPasses(r, now) =>
      if r !in w.passed then Step(w, [])
      else Step(World(OnSuccess(w.tables, w.passed[r]), w.passed - {r}), [Cleared(w.passed[r])])
    case Cleanup(now) => Step(w.(tables := OnCleanup(l, w.tables, now)), [])
  }

  function ActionStep(l: Limits): (World, Action) -> Step<World, Note> {
    (w: World, a: Action) => OnAction(l, w, a)
  }

  function EndTime(a: Action): Instant {
    if a.KeyFails? then a.later else a.now
  }

  // The steps are listed as they take effect. All but the ban checks hold the lock on the
  // attempts while they read the clock, so their readings never go back. A ban check holds no
  // lock that orders its reading: it may come between the two readings of a failure whose
  // ban it does not see yet.
  ghost predicate Monotone(actions: seq<Action>) {
    && (forall a :: a in actions && a.KeyFails? ==> a.now <= a.later)
    && (forall i, j :: 0 <= i < j < |actions| && !actions[i].Arrive? && !actions[j].Arrive? ==>
          EndTime(actions[i]) <= actions[j].now)
  }
}
