// Sending upstream with retries on 429: how often it sends, what it returns and how long it
// waits. Delays are exact milliseconds; the rounding of f64 durations is not modelled.
module Retry {
  import opened Wrappers

  const TOO_MANY_REQUESTS: nat := 429
  const U64_MAX: nat := 0xFFFF_FFFF_FFFF_FFFF

  // What the retry loop reads from a response: the status, whether `x-ratelimit-remaining`
  // is 0, and a numeric Retry-After in seconds.
  datatype Response = Response(status: nat, quotaExhausted: bool, retryAfter: Option<nat>)

  datatype Attempt = Answered(response: Response) | SendFailed

  // The jitter from the clock's nanoseconds, or 1.0 without a clock.
  function RandFactor(nanos: Option<nat>): real {
    if nanos.Some? then 0.7 + ((nanos.value % 1000) as real / 1000.0) * 0.6 else 1.0
  }

  function Pow2(k: nat): nat {
    if k == 0 then 1 else 2 * Pow2(k - 1)
  }

  // Four base delays, in saturating 64-bit milliseconds.
  function Cap(base: nat): nat {
    if base * 4 > U64_MAX then U64_MAX else base * 4
  }

  function Delay(base: nat, attempt: nat, r: Response, nanos: Option<nat>): real {
    if r.retryAfter.Some? then
      if r.retryAfter.value * 1000 < Cap(base) then (r.retryAfter.value * 1000) as real else Cap(base) as real
    else Scaled(Backoff(attempt, nanos), base)
  }

  // The doubled delay, in base delays.
  function Doubled(attempt: nat): real {
    Pow2(attempt) as real
  }

  function Backoff(attempt: nat, nanos: Option<nat>): real {
    Times(RandFactor(nanos), Doubled(attempt))
  }

  function Times(factor: real, delay: real): real {
    factor * delay
  }

  // `Duration::mul_f64`
  function Scaled(factor: real, base: nat): real {
    factor * base as real
  }

  // The waits are the delays computed from the responses they follow.
  ghost predicate Waits(base: nat, script: nat -> Attempt, clock: nat -> Option<nat>, waits: seq<real>) {
    forall k :: 0 <= k < |waits| ==> script(k).Answered? && waits[k] == Delay(base, k, script(k).response, clock(k))
  }

  // `script` answers each send, `clock` each call for entropy. The shift by the attempt is
  // a 32-bit one; the config allows at most five retries.
  method SendWith429Retry(retries: nat, base: nat, script: nat -> Attempt, clock: nat -> Option<nat>)
    returns (result: Attempt, sends: nat, waits: seq<real>)
    requires retries <= 32
    ensures 1 <= sends <= retries + 1
    ensures result == script(sends - 1)
    ensures sends <= retries ==> result.Answered? && result.response.status == 429 ==> result.response.quotaExhausted
    ensures forall k :: 0 <= k < sends - 1 ==>
              script(k).Answered? && script(k).response.status == 429 && !script(k).response.quotaExhausted
    ensures |waits| == sends - 1
    ensures Waits(base, script, clock, waits)
  {
    hide Delay, Pow2;
    result, sends, waits := SendFailed, 0, [];
    for attempt := 0 to retries + 1
      invariant sends == |waits| == attempt <= retries
      invariant forall k :: 0 <= k < attempt ==>
                  script(k).Answered? && script(k).response.status == 429 && !script(k).response.quotaExhausted
      invariant Waits(base, script, clock, waits)
    {
      result := script(attempt);
      sends := sends + 1;
      if result.SendFailed? {
        return;
      }
      var response := result.response;
      var is429 := response.status == TOO_MANY_REQUESTS;
      if !is429 || attempt == retries {
        return;
      }
      if response.quotaExhausted {
        return;
      }
      waits := waits + [Delay(base, attempt, response, clock(attempt))];
    }
    // The loop always returns from inside.
    assert false;
  }

  // ----- how long it waits -----

  function Larger(a: real, b: real): real {
    if a > b then a else b
  }

  // The longest wait after an attempt, in base delays.
  function Longest(attempt: nat): real {
    Larger(4.0, Times(1.3, Doubled(attempt)))
  }

  lemma JitterRange(nanos: Option<nat>)
    ensures 0.7 <= RandFactor(nanos) < 1.3
  {
  }

  // The clock spreads the waits: readings that differ in their last three digits do not
  // coincide.
  lemma JitterSpreads(m: nat, n: nat)
    ensures RandFactor(Some(m)) < RandFactor(Some(n)) <==> m % 1000 < n % 1000
  {
    var a, b := m % 1000, n % 1000;
    assert a < b <==> (a as real) < (b as real);
    Smaller(a as real / 1000.0, b as real / 1000.0);
  }

  // They lie around the middle, where the factor is when there is no clock, and reach 0.3
  // below it.
  lemma JitterIsCentred(m: nat, n: nat)
    requires m % 1000 + n % 1000 == 1000
    ensures RandFactor(Some(m)) + RandFactor(Some(n)) == 2.0 * RandFactor(None)
    ensures RandFactor(Some(0)) == 0.7
  {
    assert (m % 1000) as real + (n % 1000) as real == 1000.0;
  }

  lemma Smaller(a: real, b: real)
    ensures 0.7 + a * 0.6 < 0.7 + b * 0.6 <==> a < b
  {
  }

  lemma ScaledGrows(a: real, b: real, base: nat)
    requires a <= b
    ensures Scaled(a, base) <= Scaled(b, base)
  {
  }

  lemma ScaledAdds(a: real, b: real, base: nat)
    ensures Scaled(a + b, base) == Scaled(a, base) + Scaled(b, base) && Scaled(0.0, base) == 0.0
  {
  }

  lemma BackoffRange(attempt: nat, nanos: Option<nat>)
    ensures 0.0 <= Times(0.7, Doubled(attempt)) <= Backoff(attempt, nanos) <= Times(1.3, Doubled(attempt))
  {
    JitterRange(nanos);
    hide RandFactor, Times;
    Between(0.7, RandFactor(nanos), 1.3, Doubled(attempt));
  }

  lemma Between(a: real, x: real, b: real, p: real)
    requires 0.0 <= a <= x <= b && p >= 0.0
    ensures 0.0 <= Times(a, p) <= Times(x, p) <= Times(b, p)
  {
    assert (b - x) * p >= 0.0 && (x - a) * p >= 0.0;
  }

  lemma HintIsBounded(base: nat, attempt: nat, r: Response, nanos: Option<nat>)
    requires r.retryAfter.Some?
    ensures 0.0 <= Delay(base, attempt, r, nanos) <= Scaled(Longest(attempt), base)
  {
    hide Pow2;
    ScaledGrows(4.0, Longest(attempt), base);
    assert Cap(base) as real <= Scaled(4.0, base);
  }

  // A Retry-After is kept, up to four base delays in 64 bits of milliseconds.
  lemma HintIsKept(base: nat, attempt: nat, r: Response, nanos: Option<nat>)
    requires r.retryAfter.Some?
    ensures var hint, cap := 1000 * r.retryAfter.value, if 4 * base < 18446744073709551615 then 4 * base else 18446744073709551615;
            Delay(base, attempt, r, nanos) == (if hint <= cap then hint else cap) as real
  {
    hide Scaled, Backoff;
  }

  lemma BackoffIsBounded(base: nat, attempt: nat, r: Response, nanos: Option<nat>)
    requires r.retryAfter.None?
    ensures 0.0 <= Delay(base, attempt, r, nanos) <= Scaled(Longest(attempt), base)
    ensures Scaled(Times(0.7, Doubled(attempt)), base) <= Delay(base, attempt, r, nanos) <= Scaled(Times(1.3, Doubled(attempt)), base)
  {
    hide Scaled, Backoff, Doubled, Times;
    BackoffRange(attempt, nanos);
    ScaledAdds(0.0, 0.0, base);
    ScaledGrows(Times(0.7, Doubled(attempt)), Backoff(attempt, nanos), base);
    ScaledGrows(Backoff(attempt, nanos), Times(1.3, Doubled(attempt)), base);
    ScaledGrows(Times(1.3, Doubled(attempt)), Longest(attempt), base);
    ScaledGrows(0.0, Times(0.7, Doubled(attempt)), base);
  }

  // Every wait is at most the larger of four base delays and 1.3 times the doubled one;
  // without a Retry-After it is also at least 0.7 times the doubled one.
  lemma WaitIsBounded(base: nat, attempt: nat, r: Response, nanos: Option<nat>)
    ensures 0.0 <= Delay(base, attempt, r, nanos) <= Scaled(Longest(attempt), base)
    ensures r.retryAfter.None? ==>
              Scaled(Times(0.7, Doubled(attempt)), base) <= Delay(base, attempt, r, nanos) <= Scaled(Times(1.3, Doubled(attempt)), base)
  {
    hide Delay, Scaled, Longest, Doubled, Times;
    if r.retryAfter.Some? {
      HintIsBounded(base, attempt, r, nanos);
    } else {
      BackoffIsBounded(base, attempt, r, nanos);
    }
  }

  function Sum(waits: seq<real>): real {
    if waits == [] then 0.0 else Sum(waits[..|waits| - 1]) + waits[|waits| - 1]
  }

  // The sum of the longest waits, in base delays.
  function TotalLongest(retries: nat): real {
    if retries == 0 then 0.0 else TotalLongest(retries - 1) + Longest(retries - 1)
  }

  lemma {:induction false} WaitsAddUp(base: nat, waits: seq<real>)
    requires forall k :: 0 <= k < |waits| ==> waits[k] <= Scaled(Longest(k), base)
    ensures Sum(waits) <= Scaled(TotalLongest(|waits|), base)
  {
    ScaledAdds(0.0, 0.0, base);
    hide Scaled, Longest;
    if waits != [] {
      var n := |waits| - 1;
      WaitsAddUp(base, waits[..n]);
      ScaledAdds(TotalLongest(n), Longest(n), base);
    }
  }

  lemma {:induction false} TotalGrows(m: nat, n: nat)
    requires m <= n
    ensures TotalLongest(m) <= TotalLongest(n)
  {
    if m < n {
      TotalGrows(m, n - 1);
    }
  }

  // From the third attempt on doubling dominates the cap.
  lemma {:induction false} ClosedForm(retries: nat)
    requires retries >= 2
    ensures TotalLongest(retries) == 8.0 + 1.3 * (Pow2(retries) as real - 4.0)
  {
    if retries == 2 {
      assert Longest(0) == 4.0 && Longest(1) == 4.0;
      assert TotalLongest(2) == TotalLongest(1) + Longest(1);
    } else {
      ClosedForm(retries - 1);
      AtLeastFour(retries - 1);
    }
  }

  lemma {:induction false} AtLeastFour(k: nat)
    requires k >= 2
    ensures Pow2(k) >= 4
  {
    if k > 2 {
      AtLeastFour(k - 1);
    }
  }

  // With the configured maximum of five retries, no request waits longer than 44.4 base
  // delays in total, whatever the upstream answers.
  lemma TotalWait(retries: nat, base: nat, script: nat -> Attempt, clock: nat -> Option<nat>, waits: seq<real>)
    requires |waits| <= retries && Waits(base, script, clock, waits)
    ensures Sum(waits) <= Scaled(TotalLongest(retries), base)
    ensures retries <= 5 ==> Sum(waits) <= Scaled(44.4, base)
  {
    hide Delay, Longest, Pow2, Sum, Scaled, TotalLongest;
    forall k | 0 <= k < |waits|
      ensures waits[k] <= Scaled(Longest(k), base)
    {
      WaitIsBounded(base, k, script(k).response, clock(k));
    }
    WaitsAddUp(base, waits);
    TotalGrows(|waits|, retries);
    ScaledGrows(TotalLongest(|waits|), TotalLongest(retries), base);
    if retries <= 5 {
      FiveRetries();
      TotalGrows(retries, 5);
      ScaledGrows(TotalLongest(retries), 44.4, base);
    }
  }

  lemma FiveRetries()
    ensures TotalLongest(5) == 44.4
  {
    ClosedForm(5);
    assert Pow2(5) == 32;
  }
}
