/**
 * The timer-1 overflow interrupt: a prescaler counter `cnt` that lets only
 * every fourth (at 16 MHz every seventh) overflow act, and a countdown `led`
 * that blinks the status LED once per armed RC channel.
 */
module Status {

  /** Overflows skipped before one acts. */
  function Prescale(clk16: bool): nat { if clk16 then 6 else 3 }

  /** `if (cnt++ < P) return; cnt = 0;`: the next count and whether this overflow acts. */
  function Prescaler(cnt: nat, clk16: bool): (r: (nat, bool))
    ensures r.1 <==> cnt >= Prescale(clk16)
    ensures cnt <= Prescale(clk16) ==> r.0 <= Prescale(clk16)
    ensures r.1 ==> r.0 == 0
  {
    if cnt < Prescale(clk16) then (cnt + 1, false) else (0, true)
  }

  /** The count after `k` more overflows. */
  function CountAfter(cnt: nat, clk16: bool, k: nat): nat
    decreases k
  {
    if k == 0 then cnt else CountAfter(Prescaler(cnt, clk16).0, clk16, k - 1)
  }

  /** The number of acting overflows among the next `k`. */
  function ActsIn(cnt: nat, clk16: bool, k: nat): nat
    decreases k
  {
    if k == 0 then 0
    else (if Prescaler(cnt, clk16).1 then 1 else 0) + ActsIn(Prescaler(cnt, clk16).0, clk16, k - 1)
  }

  lemma {:induction false} CountUp(cnt: nat, clk16: bool, k: nat)
    requires cnt + k <= Prescale(clk16)
    ensures CountAfter(cnt, clk16, k) == cnt + k
    ensures ActsIn(cnt, clk16, k) == 0
    decreases k
  {
    if k > 0 {
      CountUp(cnt + 1, clk16, k - 1);
    }
  }

  /**
   * From a reset counter, one overflow in every Prescale + 1 acts: the first
   * Prescale do nothing, the next acts and brings the counter back to zero.
   */
  lemma PrescalerPeriod(clk16: bool)
    ensures var p := Prescale(clk16);
      && ActsIn(0, clk16, p) == 0
      && Prescaler(CountAfter(0, clk16, p), clk16) == (0, true)
      && CountAfter(0, clk16, p + 1) == 0
      && ActsIn(0, clk16, p + 1) == 1
  {
    var p := Prescale(clk16);
    CountUp(0, clk16, p);
    CountAfterSplit(0, clk16, p);
  }

  lemma {:induction false} CountAfterSplit(cnt: nat, clk16: bool, k: nat)
    ensures CountAfter(cnt, clk16, k + 1) == Prescaler(CountAfter(cnt, clk16, k), clk16).0
    ensures ActsIn(cnt, clk16, k + 1)
         == ActsIn(cnt, clk16, k) + (if Prescaler(CountAfter(cnt, clk16, k), clk16).1 then 1 else 0)
    decreases k
  {
    if k > 0 {
      CountAfterSplit(Prescaler(cnt, clk16).0, clk16, k - 1);
    }
  }

  /** `!!u1 + !!u2`: how many RC channels are armed. */
  function ArmedCount(u1: int, u2: int): (r: nat)
    ensures r <= 2
    ensures r == 0 <==> u1 == 0 && u2 == 0
  {
    (if u1 != 0 then 1 else 0) + (if u2 != 0 then 1 else 0)
  }

  /**
   * One acting overflow of the LED countdown: a zero countdown is reloaded with
   * 2 * armed + 1 and the LED left alone; otherwise it counts down, and the LED
   * toggles unless that reached zero.
   */
  function LedNext(led: nat, on: bool, armed: nat): (r: (nat, bool))
    // an expired countdown reloads two toggles per armed channel plus one, LED untouched
    ensures led == 0 ==> r == (2 * armed + 1, on)
    // a running countdown goes down by one and reads the armed count not at all
    ensures led != 0 ==> r.0 == led - 1
    // the LED toggles exactly on the steps that do not end the countdown
    ensures r.1 != on <==> led >= 2
  {
    if led == 0 then (armed * 2 + 1, on)
    else if led - 1 != 0 then (led - 1, !on)
    else (0, on)
  }

  /** The countdown never exceeds five while at most two channels are armed. */
  lemma LedBounded(led: nat, on: bool, armed: nat)
    requires led <= 5 && armed <= 2
    ensures LedNext(led, on, armed).0 <= 5
  {
  }

  /** The countdown, the LED level and the number of toggles so far. */
  datatype Blink = Blink(led: nat, on: bool, toggles: nat)

  /** `k` acting overflows with `armed` channels armed throughout. */
  function BlinkRun(b: Blink, armed: nat, k: nat): Blink
    decreases k
  {
    if k == 0 then b
    else
      var next := LedNext(b.led, b.on, armed);
      BlinkRun(Blink(next.0, next.1, b.toggles + if next.1 != b.on then 1 else 0), armed, k - 1)
  }

  /**
   * A countdown from m reaches zero after m acting overflows, toggling the LED
   * m - 1 times and never reloading on the way (the armed count is not read).
   */
  lemma {:induction false} Countdown(m: nat, on: bool, toggles: nat, armed: nat)
    requires m >= 1
    ensures BlinkRun(Blink(m, on, toggles), armed, m)
         == Blink(0, if (m - 1) % 2 == 0 then on else !on, toggles + m - 1)
  {
    if m > 1 {
      Countdown(m - 1, !on, toggles + 1, armed);
    }
  }

  /**
   * One blink cycle: with c channels armed, a reload of 2c + 1 followed by
   * its countdown takes 2c + 2 acting overflows and toggles the LED exactly
   * 2c times, so the LED ends at the level it started at.
   */
  lemma BlinkCycle(c: nat, on: bool)
    ensures BlinkRun(Blink(0, on, 0), c, 2 * c + 2) == Blink(0, on, 2 * c)
  {
    assert BlinkRun(Blink(0, on, 0), c, 2 * c + 2) == BlinkRun(Blink(2 * c + 1, on, 0), c, 2 * c + 1);
    Countdown(2 * c + 1, on, 0, c);
  }
}
