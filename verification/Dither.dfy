/** The density dose model (src/stepper_stream.c, dither_tick and
    gf_stream_laser_model): FIRE-bit density at full duty, the remainder of
    every period carried into the next. */
module DitherModel {
  import opened PulseBytes

  const PWM_PERIOD := 127
  const PERIOD_MAX := 1024
  const TICK_X8_HZ := 28160
  const RATE_MIN := 1000
  const RATE_MAX := 165000

  datatype Dither = Dither(period: u32, min: u32, left: u32, on: u32, acc: u32)

  function Restart(d: Dither): Dither { d.(left := 0, on := 0, acc := 0) }

  /** The shortest burst the model emits. */
  function Burst(d: Dither): nat { if d.min == 0 then 1 else d.min }

  /** What every operation keeps: the burst fits the period, the period is short
      enough for 32-bit arithmetic, and the debt is under one shortest burst. */
  predicate Valid(d: Dither) {
    && d.period <= 6001 && d.min <= d.period
    && d.on <= d.left <= d.period
    && d.acc < PWM_PERIOD * Burst(d)
  }

  /** As a model is selected, and as every restart leaves it. */
  predicate Restarted(d: Dither) { Valid(d) && d == Restart(d) }

  lemma RestartValid(d: Dither)
    requires Valid(d)
    ensures Restarted(Restart(d))
  {
  }

  // ---- selecting the model ----

  /** Reference ticks scaled to the stream's tick, never below one, truncated to
      32 bits as the C cast does. */
  function RefTicks(refTicks: u32, rate: nat): u32 {
    var t := (refTicks * rate + TICK_X8_HZ / 2) / TICK_X8_HZ;
    if t < 1 then 1 else U32(t)
  }

  function Select(periodTicks: u32, minTicks: u32, rate: nat): Dither {
    var capped := if periodTicks > PERIOD_MAX then PERIOD_MAX else periodTicks;
    var period := if capped != 0 then RefTicks(capped, rate) else 0;
    var min1 := if minTicks < 1 then 1 else minTicks;
    var min2 := if period != 0 then RefTicks(min1, rate) else min1;
    Dither(period, if min2 > period then period else min2, 0, 0, 0)
  }

  lemma ProductBound(a: nat, b: nat, A: nat, B: nat)
    requires a <= A && b <= B
    ensures a * b <= A * B
  {
    assert a * b <= a * B <= A * B;
  }

  /** Whatever the two settings say, the model selected at an accepted rate is
      valid and starts with no debt, and it is the analog one exactly when no period
      was asked for. */
  lemma SelectValid(periodTicks: u32, minTicks: u32, rate: nat)
    requires RATE_MIN <= rate <= RATE_MAX
    ensures Restarted(Select(periodTicks, minTicks, rate))
    ensures Select(periodTicks, minTicks, rate).period == 0 <==> periodTicks == 0
  {
    RefTicksBound(if periodTicks > PERIOD_MAX then PERIOD_MAX else periodTicks, rate);
    hide RefTicks;
  }

  /** The scaled ticks are the nearest whole number of the stream's ticks, and one where
      that is none; at the reference rate they are the ticks given. */
  lemma RefTicksNearest(refTicks: u32, rate: nat)
    requires (refTicks * rate + TICK_X8_HZ / 2) / TICK_X8_HZ < M32
    ensures var t := RefTicks(refTicks, rate);
            && t >= 1
            && (t > 1 ==> t * TICK_X8_HZ - TICK_X8_HZ / 2 <= refTicks * rate < t * TICK_X8_HZ + TICK_X8_HZ / 2)
            && (t == 1 ==> refTicks * rate < TICK_X8_HZ + TICK_X8_HZ / 2)
    ensures rate == TICK_X8_HZ && refTicks >= 1 ==> RefTicks(refTicks, rate) == refTicks
  {
    var x := refTicks * rate;
    NearestTo(x);
    var t := (x + TICK_X8_HZ / 2) / TICK_X8_HZ;
    assert RefTicks(refTicks, rate) == if t < 1 then 1 else t;
    if rate == TICK_X8_HZ { WholeTicks(refTicks); }
    hide RefTicks;
  }

  lemma NearestTo(x: nat)
    ensures var t := (x + TICK_X8_HZ / 2) / TICK_X8_HZ;
            t * TICK_X8_HZ - TICK_X8_HZ / 2 <= x < t * TICK_X8_HZ + TICK_X8_HZ / 2
  {
  }

  lemma WholeTicks(n: nat)
    ensures (n * TICK_X8_HZ + TICK_X8_HZ / 2) / TICK_X8_HZ == n
  {
  }

  /** The model selected: its period is the one asked for, at most PERIOD_MAX, in the
      stream's ticks; its shortest burst is the one asked for, at least one, in the same
      ticks, and never more than the period. */
  lemma SelectsAsAsked(periodTicks: u32, minTicks: u32, rate: nat)
    ensures var d := Select(periodTicks, minTicks, rate);
            && (periodTicks != 0 ==>
                  && (periodTicks <= PERIOD_MAX ==> d.period == RefTicks(periodTicks, rate))
                  && (periodTicks > PERIOD_MAX ==> d == Select(PERIOD_MAX, minTicks, rate))
                  && d.min <= d.period && (d.min == d.period || d.min == RefTicks(if minTicks == 0 then 1 else minTicks, rate))
                  && (RefTicks(if minTicks == 0 then 1 else minTicks, rate) <= d.period ==>
                        d.min == RefTicks(if minTicks == 0 then 1 else minTicks, rate)))
            && (periodTicks == 0 ==> d == Dither(0, 0, 0, 0, 0))
  {
    hide RefTicks;
  }

  lemma RefTicksBound(refTicks: u32, rate: nat)
    requires refTicks <= PERIOD_MAX && rate <= RATE_MAX
    ensures 1 <= RefTicks(refTicks, rate) <= 6001
  {
    ProductBound(refTicks, rate, PERIOD_MAX, RATE_MAX);
    ScaledBound(refTicks * rate);
  }

  lemma ScaledBound(x: nat)
    requires x <= PERIOD_MAX * RATE_MAX
    ensures var t := (x + TICK_X8_HZ / 2) / TICK_X8_HZ; 0 <= t <= 6001 && U32(t) == t
  {
  }

  // ---- one tick ----

  /** What a period fires of the duty it wants, and the debt it leaves. */
  function Settle(d: Dither, want: u32): (r: (u32, u32)) {
    var on := want / PWM_PERIOD;
    if on < d.min then (0, want)
    else
      var burst := if on > d.period then d.period else on;
      (burst, U32(want - burst * PWM_PERIOD))
  }

  /** The on-count the next period starts with, and the debt it leaves. */
  function NextPeriod(d: Dither, power: Duty): (r: (u32, u32)) { Settle(d, U32(power * d.period + d.acc)) }

  function Refill(d: Dither, power: Duty): Dither {
    if d.left != 0 then d
    else var (on, acc) := NextPeriod(d, power); d.(on := on, acc := acc, left := d.period)
  }

  /** One tick: the state after it, and whether it fires. */
  function DitherTick(d: Dither, power: Duty): (Dither, bool)
    requires d.period != 0
  {
    var e := Refill(d, power);
    (e.(left := e.left - 1, on := if e.on != 0 then e.on - 1 else 0), e.on != 0)
  }

  /** No 32-bit overflow, and the period's account balances exactly: what fires
      plus what is carried is what was asked for plus what was owed. It fires all it
      can: a burst leaves less than a tick unless it fills the period. */
  lemma NextPeriodBalance(d: Dither, power: Duty)
    requires Valid(d) && d.period != 0
    ensures power * d.period + d.acc < M32
    ensures var (on, acc) := NextPeriod(d, power);
            && PWM_PERIOD * on + acc == power * d.period + d.acc
            && acc < PWM_PERIOD * Burst(d)
            && (on == 0 || Burst(d) <= on <= d.period)
            && (on == 0 || acc < PWM_PERIOD || on == d.period)
  {
    ProductBound(power, d.period, PWM_PERIOD, d.period);
    var want := power * d.period + d.acc;
    assert want <= PWM_PERIOD * d.period + d.acc < M32;
    SettleBalance(d, want);
    hide Settle, Valid, Burst;
  }

  lemma SettleBalance(d: Dither, want: nat)
    requires Valid(d) && d.period != 0 && want <= PWM_PERIOD * d.period + d.acc < M32
    ensures U32(want) == want
    ensures var (on, acc) := Settle(d, want);
            && PWM_PERIOD * on + acc == want && acc < PWM_PERIOD * Burst(d)
            && (on == 0 || Burst(d) <= on <= d.period)
            && (on == 0 || acc < PWM_PERIOD || on == d.period)
  {
    PeriodArithmetic(want, d.period, d.acc, d.min);
    hide U32;
  }

  /** The period's arithmetic on its own. */
  lemma PeriodArithmetic(want: nat, period: nat, acc: nat, min: nat)
    requires want <= PWM_PERIOD * period + acc < M32
    requires min <= period && 0 < period
    requires acc < PWM_PERIOD * (if min == 0 then 1 else min)
    ensures U32(want) == want
    ensures var on := want / PWM_PERIOD;
            var burst := if on > period then period else on;
            && PWM_PERIOD * on <= want < PWM_PERIOD * on + PWM_PERIOD
            && (on < min ==> want < PWM_PERIOD * min)
            && 0 <= want - burst * PWM_PERIOD
            && (on >= min ==> want - burst * PWM_PERIOD < PWM_PERIOD * (if min == 0 then 1 else min))
            && U32(want - burst * PWM_PERIOD) == want - burst * PWM_PERIOD
  {
    var on := want / PWM_PERIOD;
    assert PWM_PERIOD * on <= want < PWM_PERIOD * on + PWM_PERIOD;
  }

  // ---- runs of ticks ----

  /** The state after a run of ticks, power[i] in force at tick i. */
  function After(d: Dither, powers: seq<Duty>): (r: Dither)
    requires d.period != 0
    ensures r.period == d.period && r.min == d.min
    decreases |powers|
  {
    if powers == [] then d else After(DitherTick(d, powers[0]).0, powers[1..])
  }

  /** Which ticks of the run fire. */
  function Fired(d: Dither, powers: seq<Duty>): (r: seq<bool>)
    requires d.period != 0
    ensures |r| == |powers|
    decreases |powers|
  {
    if powers == [] then []
    else [DitherTick(d, powers[0]).1] + Fired(DitherTick(d, powers[0]).0, powers[1..])
  }

  function Count(fired: seq<bool>): nat {
    if fired == [] then 0 else (if fired[0] then 1 else 0) + Count(fired[1..])
  }

  lemma {:induction false} CountConcat(a: seq<bool>, b: seq<bool>)
    ensures Count(a + b) == Count(a) + Count(b)
  {
    if a == [] {
      assert a + b == b;
    } else {
      assert (a + b)[1..] == a[1..] + b;
      CountConcat(a[1..], b);
    }
  }

  lemma {:induction false} RunConcat(d: Dither, p: seq<Duty>, q: seq<Duty>)
    requires d.period != 0
    ensures After(d, p + q) == After(After(d, p), q)
    ensures Fired(d, p + q) == Fired(d, p) + Fired(After(d, p), q)
    decreases |p|
  {
    if p == [] {
      assert p + q == q;
    } else {
      assert (p + q)[1..] == p[1..] + q;
      RunConcat(DitherTick(d, p[0]).0, p[1..], q);
    }
  }

  /** Inside a period the power no longer matters: the remaining on-ticks fire
      first, then the rest stay dark, and the period ends with the debt kept. */
  lemma {:induction false} RestOfPeriod(d: Dither, powers: seq<Duty>)
    requires d.period != 0 && d.on <= d.left && |powers| == d.left
    ensures After(d, powers) == d.(left := 0, on := 0)
    ensures forall i :: 0 <= i < |powers| ==> (Fired(d, powers)[i] <==> i < d.on)
    ensures Count(Fired(d, powers)) == d.on
    decreases d.left
  {
    if d.left != 0 {
      RestOfPeriod(DitherTick(d, powers[0]).0, powers[1..]);
    }
  }

  /** One whole period: a leading burst, empty or between the shortest burst and
      the period, and the account balances. */
  lemma PeriodShape(d: Dither, powers: seq<Duty>)
    requires Valid(d) && d.period != 0 && d.left == 0 && |powers| == d.period
    ensures var on := NextPeriod(d, powers[0]).0;
            && (on == 0 || Burst(d) <= on <= d.period)
            && (forall i :: 0 <= i < d.period ==> (Fired(d, powers)[i] <==> i < on))
            && Count(Fired(d, powers)) == on
    ensures var e := After(d, powers);
            && Valid(e) && e.left == 0
            && PWM_PERIOD * Count(Fired(d, powers)) + e.acc == powers[0] * d.period + d.acc
  {
    NextPeriodBalance(d, powers[0]);
    RefillFirst(d, powers);
    RestOfPeriod(Refill(d, powers[0]), powers);
  }

  /** At a period's start the run is the one of the period refilled. */
  lemma RefillFirst(d: Dither, powers: seq<Duty>)
    requires d.period != 0 && d.left == 0 && powers != []
    ensures var e := Refill(d, powers[0]); Fired(d, powers) == Fired(e, powers) && After(d, powers) == After(e, powers)
  {
    hide NextPeriod;
    assert DitherTick(d, powers[0]) == DitherTick(Refill(d, powers[0]), powers[0]);
  }

  // ---- at any tick ----

  /** The dose asked for so far: the power at every period start, over the whole
      period, the one under way with them. */
  function Asked(powers: seq<Duty>, period: nat): nat
    requires period != 0
    decreases |powers|
  {
    if powers == [] then 0
    else powers[0] * period + (if |powers| <= period then 0 else Asked(powers[period..], period))
  }

  /** Part of a period takes its on-ticks off and leaves its debt. */
  lemma {:induction false} PartOfPeriod(d: Dither, powers: seq<Duty>)
    requires d.period != 0 && d.on <= d.left && |powers| <= d.left
    ensures var e := After(d, powers);
            && e.acc == d.acc && e.left == d.left - |powers| && e.on <= e.left
            && Count(Fired(d, powers)) + e.on == d.on
    decreases |powers|
  {
    if powers != [] {
      PartOfPeriod(DitherTick(d, powers[0]).0, powers[1..]);
    }
  }

  /** The period under way: what fired and what it will fire still is what it took. */
  lemma FirstPeriod(d: Dither, powers: seq<Duty>)
    requires Valid(d) && d.period != 0 && d.left == 0 && 0 < |powers| <= d.period
    ensures var e := After(d, powers);
            && Valid(e)
            && PWM_PERIOD * (Count(Fired(d, powers)) + e.on) + e.acc == powers[0] * d.period + d.acc
  {
    NextPeriodBalance(d, powers[0]);
    RefillFirst(d, powers);
    var (on, acc) := NextPeriod(d, powers[0]);
    var e := Refill(d, powers[0]);
    assert e == d.(on := on, acc := acc, left := d.period) && on <= d.period;
    PartOfPeriod(e, powers);
    hide NextPeriod, Refill, Fired, After, Count;
  }

  /** The account at any tick since a restart, the last period whole or not. */
  lemma {:induction false} DoseAnytime(d: Dither, powers: seq<Duty>)
    requires Valid(d) && d.period != 0 && d.left == 0
    ensures var e := After(d, powers);
            && Valid(e)
            && PWM_PERIOD * (Count(Fired(d, powers)) + e.on) + e.acc == Asked(powers, d.period) + d.acc
    decreases |powers|
  {
    if 0 < |powers| <= d.period {
      FirstPeriod(d, powers);
    } else if powers != [] {
      var first, rest := powers[..d.period], powers[d.period..];
      PeriodShape(d, first);
      RunConcat(d, first, rest);
      assert powers == first + rest;
      CountConcat(Fired(d, first), Fired(After(d, first), rest));
      DoseAnytime(After(d, first), rest);
    }
  }

  // ---- over whole periods ----

  /** The dose a run of whole periods asks for: the power at every period start,
      over the whole period. */
  function Dose(powers: seq<Duty>, period: nat): nat
    requires period != 0
    decreases |powers|
  {
    if |powers| < period then 0 else powers[0] * period + Dose(powers[period..], period)
  }

  lemma {:induction false} DoseAccount(d: Dither, powers: seq<Duty>, periods: nat)
    requires Valid(d) && d.period != 0 && d.left == 0 && |powers| == periods * d.period
    ensures var e := After(d, powers);
            && Valid(e) && e.left == 0
            && PWM_PERIOD * Count(Fired(d, powers)) + e.acc == Dose(powers, d.period) + d.acc
    decreases periods
  {
    if periods == 0 {
      assert powers == [];
    } else {
      var first, rest := powers[..d.period], powers[d.period..];
      assert |rest| == (periods - 1) * d.period;
      PeriodShape(d, first);
      RunConcat(d, first, rest);
      assert powers == first + rest;
      CountConcat(Fired(d, first), Fired(After(d, first), rest));
      DoseAccount(After(d, first), rest, periods - 1);
    }
  }

  /** Dose conservation: over any number of periods since a restart, whatever the
      power at each period start, what fired plus the carried debt is exactly the
      dose; so the delivered ticks never exceed it and trail it by less than one
      shortest burst. */
  lemma DoseConservation(d: Dither, powers: seq<Duty>, periods: nat)
    requires Valid(d) && d.period != 0 && |powers| == periods * d.period
    ensures var r := Restart(d);
            var fired := Count(Fired(r, powers));
            && PWM_PERIOD * fired + After(r, powers).acc == Dose(powers, d.period)
            && PWM_PERIOD * fired <= Dose(powers, d.period) < PWM_PERIOD * (fired + Burst(d))
  {
    DoseAccount(Restart(d), powers, periods);
  }
}
