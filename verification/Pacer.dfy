/// The request pacer of the migration, in nanoseconds.
module Pacer {
  import opened Wrappers

  const SECOND := 1_000_000_000
  const MINUTE := 60_000_000_000
  const MAX_HOLD := 120_000_000_000
  const MAX_RATE := 800

  function Interval(rate: int): nat { if rate > 0 then MINUTE / rate else 0 }

  /// Consecutive grants are at least `interval` apart.
  ghost predicate Spaced(grants: seq<int>, interval: nat) {
    forall i :: 0 < i < |grants| ==> grants[i] >= grants[i - 1] + interval
  }

  lemma {:induction false} SpacedApart(grants: seq<int>, interval: nat, i: nat, j: nat)
    requires Spaced(grants, interval) && i <= j < |grants|
    ensures grants[j] - grants[i] >= (j - i) * interval
    decreases j
  {
    if i < j { SpacedApart(grants, interval, i, j - 1); }
  }

  /// Although the interval is rounded down, `rate + 1` of them exceed a minute.
  lemma RoundingFits(rate: nat)
    requires 1 <= rate <= MAX_RATE
    ensures (rate + 1) * Interval(rate) > MINUTE >= rate * Interval(rate)
  {
    var q, r := MINUTE / rate, MINUTE % rate;
    assert MINUTE == rate * q + r;
    assert (rate + 1) * q == rate * q + q;
    assert rate * (q + 1 - 75_000_000) == MINUTE - r + rate - rate * 75_000_000;
    Positive(rate, q + 1 - 75_000_000);
  }

  lemma Positive(a: int, b: int)
    requires a > 0
    ensures b <= 0 ==> a * b <= 0
  {
    if b < 0 { assert a * b == -(a * -b); }
  }

  /// For every rate that the tool accepts, no window of a minute, its ends
  /// included, has more than `rate + 1` grants; and that many can happen.
  lemma WindowHolds(grants: seq<int>, rate: nat, i: nat, j: nat)
    requires 1 <= rate <= MAX_RATE && Spaced(grants, Interval(rate)) && i <= j < |grants| && grants[j] - grants[i] <= MINUTE
    ensures j - i + 1 <= rate + 1
  {
    if j - i > rate { MoreIsLonger(grants, rate, i, j); }
  }

  lemma MoreIsLonger(grants: seq<int>, rate: nat, i: nat, j: nat)
    requires 1 <= rate <= MAX_RATE && Spaced(grants, Interval(rate)) && i + rate < j < |grants|
    ensures grants[j] - grants[i] > MINUTE
  {
    SpacedApart(grants, Interval(rate), i, j);
    RoundingFits(rate);
    var extra := j - i - (rate + 1);
    assert (j - i) * Interval(rate) == (rate + 1) * Interval(rate) + extra * Interval(rate);
    assert extra * Interval(rate) >= 0;
  }

  lemma WindowIsReached(rate: nat) returns (grants: seq<int>)
    requires 1 <= rate <= MAX_RATE
    ensures Spaced(grants, Interval(rate)) && |grants| == rate + 1 && grants[rate] - grants[0] <= MINUTE
  {
    var interval := Interval(rate);
    grants := seq(rate + 1, i => i * interval);
    forall i | 0 < i < |grants| ensures grants[i] >= grants[i - 1] + interval {
      assert i * interval == (i - 1) * interval + interval;
    }
    RoundingFits(rate);
  }

  /// The clock is the environment's: it never goes back, and a sleep that is
  /// not interrupted takes at least its time.
  class Pacer {
    const interval: nat
    const reserve: int
    var clock: int
    var next: Option<int>  // the zero time is `None`
    var known: bool
    var remaining: int
    var reset: int
    var grants: seq<int>  // history: when each request was let through

    ghost predicate Valid()
      reads this
    {
      && Spaced(grants, interval)
      && (grants != [] ==> next == Some(grants[|grants| - 1] + interval) && grants[|grants| - 1] <= clock)
    }

    constructor (rate: int, reserve: int, start: int)
      ensures Valid() && interval == Interval(rate) && this.reserve == reserve && grants == [] && !known
    {
      interval, this.reserve, clock, next, known, remaining, reset := Interval(rate), reserve, start, None, false, 0, 0;
      grants := [];
    }

    method Now() returns (now: int)
      modifies this`clock
      ensures now == clock >= old(clock)
    {
      var later: int := *;
      if later > 0 { clock := clock + later; }
      now := clock;
    }

    method Sleep(d: int) returns (ok: bool)
      modifies this`clock
      ensures clock >= old(clock) && (ok ==> clock >= old(clock) + d)
    {
      var slept: int := *;
      if slept < 0 { slept := 0; }
      ok := slept >= d;
      clock := clock + slept;
    }

    function Hold(now: int): int
      reads this
    {
      if !known || remaining >= reserve then 0
      else
        var d := reset - now + SECOND;
        if d <= 0 then 0 else if d > MAX_HOLD then MAX_HOLD else d
    }

    /// `holdIfLowLocked`. Without a deadline that is too near, it waits until
    /// a second after the reset, or two minutes.
    method HoldIfLow(deadline: Option<int>) returns (ok: bool)
      requires Valid()
      modifies this`clock, this`known
      ensures Valid() && clock >= old(clock)
      ensures ok && deadline.None? && old(known) && old(remaining < reserve) ==>
                !known && (clock >= reset + SECOND || clock >= old(clock) + MAX_HOLD)
      ensures old(!known || remaining >= reserve) ==> ok && known == old(known)
    {
      var now := Now();
      var d := Hold(now);
      if d > 0 {
        var read := Now();
        if deadline.Some? && deadline.value - read < d { return true; }
        var slept := Sleep(d);
        if !slept { return false; }
      }
      if known && remaining < reserve { known := false; }
      return true;
    }

    /// `Wait`: a grant, spaced from the one before, or an error and none.
    method Wait(deadline: Option<int>) returns (ok: bool)
      requires Valid()
      modifies this
      ensures Valid() && clock >= old(clock) && reset == old(reset) && remaining == old(remaining)
      ensures if ok then |grants| == |old(grants)| + 1 && old(grants) < grants && grants[|grants| - 1] >= old(clock)
              else grants == old(grants) && next == old(next)
      ensures ok && deadline.None? && old(known) && old(remaining < reserve) ==>
                grants[|grants| - 1] >= reset + SECOND || grants[|grants| - 1] >= old(clock) + MAX_HOLD
    {
      ok := HoldIfLow(deadline);
      if !ok { return false; }
      var now := Now();
      if next.Some? && next.value > now {
        ok := Sleep(next.value - now);
        if !ok { return false; }
        now := Now();
      }
      next := Some(now + interval);
      grants := grants + [now];
      return true;
    }

    /// `Observe`, once both headers were parsed.
    method Observe(left: int, at: int)
      requires Valid()
      modifies this`known, this`remaining, this`reset
      ensures Valid() && known && remaining == left && reset == at
    {
      known, remaining, reset := true, left, at;
    }
  }

  /// Any number of requests, with any observations between them.
  method Pace(rate: nat, reserve: int, requests: nat) returns (grants: seq<int>)
    requires 1 <= rate <= MAX_RATE
    ensures forall i, j :: 0 <= i <= j < |grants| && grants[j] - grants[i] <= MINUTE ==> j - i + 1 <= rate + 1
  {
    var start: int := *;
    var pacer := new Pacer(rate, reserve, start);
    for n := 0 to requests
      invariant fresh(pacer) && pacer.Valid()
    {
      var seen: bool := *;
      if seen {
        var left: int := *;
        var at: int := *;
        pacer.Observe(left, at);
      }
      var deadline: Option<int> := *;
      var _ := pacer.Wait(deadline);
    }
    grants := pacer.grants;
    forall i, j | 0 <= i <= j < |grants| && grants[j] - grants[i] <= MINUTE ensures j - i + 1 <= rate + 1 {
      WindowHolds(grants, rate, i, j);
    }
  }
}
