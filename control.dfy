/**
 * The signal path shared by both input sources: the pulse-width gate `input`,
 * the pulse width measured by a capture channel, the mixer and the output
 * mapper `output` with its `duty` macro.
 */
module Control {
  import opened Avr

  // Tunables of the build configuration.

  /** Minimum non-zero PWM duty cycle, in percent. */
  const PwmMin := 10
  /** Maximum PWM duty cycle, in percent. */
  const PwmMax := 100

  // Pulse widths, in microseconds.

  /** Shortest and longest pulse accepted as a signal at all. */
  const PulseLow := 800
  const PulseHigh := 2200
  /** The neutral band that arms a channel, and its centre. */
  const NeutralLow := 1450
  const NeutralHigh := 1550
  const Neutral := 1500

  // Motor commands.

  /** Half-width of the command deadband of the output mapper. */
  const Deadband := 50
  /** Command magnitude at which the duty reaches its maximum. */
  const FullScale := 500

  predicate InRange(t: int) { PulseLow <= t <= PulseHigh }

  predicate InNeutral(t: int) { NeutralLow <= t <= NeutralHigh }

  function Abs(x: int): nat { if x < 0 then -x else x }

  /* ---------------------------------------------------------------------- */
  /* Signal validator                                                       */
  /* ---------------------------------------------------------------------- */

  /**
   * What `input` returns and what it leaves in the channel word `*u`.
   * The word is zero while the channel is unarmed and otherwise holds the
   * last accepted pulse width.
   */
  datatype Gate = Gate(value: I16, word: U16)

  /** A channel word as `input` leaves it: zero, or an accepted pulse width. */
  predicate WordOk(u: U16) { u == 0 || InRange(u) }

  function Input(t: U16, u: U16): (r: Gate)
    ensures WordOk(r.word)
    ensures -700 <= r.value <= 700
    // out of range: the command is neutral and the channel is disarmed
    ensures !InRange(t) ==> r == Gate(0, 0)
    // unarmed and off neutral: rejected, and the channel stays unarmed
    ensures InRange(t) && u == 0 && !InNeutral(t) ==> r == Gate(0, 0)
    // otherwise accepted: armed with the width, command relative to neutral
    ensures r.word != 0 <==> InRange(t) && (u != 0 || InNeutral(t))
    ensures r.word != 0 ==> r == Gate(t - Neutral, t)
    // a non-zero command only ever comes from an armed channel
    ensures r.value != 0 ==> r.word != 0
  {
    if t < PulseLow || t > PulseHigh then Gate(0, 0)
    else if u == 0 && (t < NeutralLow || t > NeutralHigh) then Gate(0, u)
    else Gate(t - Neutral, t)
  }

  /** The channel word after the pulses `ts`, starting from the word `u`. */
  function WordAfter(u: U16, ts: seq<U16>): U16
    decreases |ts|
  {
    if ts == [] then u else Input(ts[|ts| - 1], WordAfter(u, ts[..|ts| - 1])).word
  }

  /**
   * The channel has been armed by `ts`: either it was armed to begin with and
   * no pulse since was out of range, or some pulse fell into the neutral band
   * and no pulse after it was out of range.
   */
  ghost predicate ArmedBy(u: U16, ts: seq<U16>)
  {
    || (u != 0 && forall m :: 0 <= m < |ts| ==> InRange(ts[m]))
    || exists j :: 0 <= j < |ts| && InNeutral(ts[j]) && forall m :: j < m < |ts| ==> InRange(ts[m])
  }

  /**
   * The two-stage gate over a whole pulse train: the channel is armed after
   * `ts` exactly when it passed through neutral since the last dropout.
   */
  lemma {:induction false} ArmedIffNeutralSinceDropout(u: U16, ts: seq<U16>)
    ensures WordAfter(u, ts) != 0 <==> ArmedBy(u, ts)
    decreases |ts|
  {
    if ts != [] {
      var n := |ts| - 1;
      ArmedIffNeutralSinceDropout(u, ts[..n]);
      ArmedByStep(u, ts);
    }
  }

  /** One more pulse arms the channel when it is in range and either it is neutral or the channel was armed. */
  lemma ArmedByStep(u: U16, ts: seq<U16>)
    requires ts != []
    ensures var n := |ts| - 1;
      ArmedBy(u, ts) <==> InRange(ts[n]) && (ArmedBy(u, ts[..n]) || InNeutral(ts[n]))
  {
    var n := |ts| - 1;
    var p, t := ts[..n], ts[n];
    if ArmedBy(u, ts) {
      if u != 0 && forall m :: 0 <= m < |ts| ==> InRange(ts[m]) {
        assert InRange(ts[n]);
        assert forall m :: 0 <= m < |p| ==> InRange(p[m]);
      } else {
        var j :| 0 <= j < |ts| && InNeutral(ts[j]) && forall m :: j < m < |ts| ==> InRange(ts[m]);
        if j < n {
          assert InRange(ts[n]);
          assert InNeutral(p[j]) && forall m :: j < m < |p| ==> InRange(p[m]);
        }
      }
    }
    if InRange(t) && (ArmedBy(u, p) || InNeutral(t)) {
      if InNeutral(t) {
        assert InNeutral(ts[n]);
      } else if u != 0 && forall m :: 0 <= m < |p| ==> InRange(p[m]) {
        assert forall m :: 0 <= m < |ts| ==> InRange(ts[m]);
      } else {
        var j :| 0 <= j < |p| && InNeutral(p[j]) && forall m :: j < m < |p| ==> InRange(p[m]);
        assert InNeutral(ts[j]) && forall m :: j < m < |ts| ==> InRange(ts[m]);
      }
    }
  }

  /**
   * No motion without passing neutral: the command produced by the last pulse
   * of a train is non-zero only if the train armed the channel.
   */
  lemma MotionNeedsNeutral(u: U16, ts: seq<U16>)
    requires ts != []
    ensures Input(ts[|ts| - 1], WordAfter(u, ts[..|ts| - 1])).value != 0 ==> ArmedBy(u, ts)
  {
    ArmedIffNeutralSinceDropout(u, ts);
  }

  /* ---------------------------------------------------------------------- */
  /* Pulse capture                                                          */
  /* ---------------------------------------------------------------------- */

  /**
   * The pulse width from a rise and a fall timestamp of the free-running
   * 16-bit capture timer, halved when the CPU runs at 16 MHz.
   */
  function Width(rise: U16, fall: U16, clk16: bool): (r: U16)
    // the fall timestamp is the rise timestamp advanced by the width, modulo 2^16
    ensures !clk16 ==> Wrap16(rise + r) == fall
    // at 16 MHz the timer ticks twice per microsecond; an odd count loses its half tick
    ensures clk16 ==> r < 0x8000 && (Wrap16(rise + 2 * r) == fall || Wrap16(rise + 2 * r + 1) == fall)
  {
    var d := Wrap16(fall - rise);
    if clk16 then d / 2 else d
  }

  /** The width is the elapsed time even when the timer wrapped in between. */
  lemma WidthMeasuresElapsed(rise: U16, d: U16, clk16: bool)
    ensures Width(rise, Wrap16(rise + d), clk16) == if clk16 then d / 2 else d
  {
    WrapSub(rise + d, rise);
  }

  /* ---------------------------------------------------------------------- */
  /* Output mapper                                                          */
  /* ---------------------------------------------------------------------- */

  /** The `duty` macro: a percentage as timer-4 counts, in 16-bit unsigned arithmetic. */
  function Duty(x: nat): (r: U16)
    // 450 counts over 90 percent: five counts per percent while the product fits 16 bits
    ensures 450 * x < 0x10000 ==> r == 5 * x
    ensures r <= 0xFFFF / (PwmMax - PwmMin)
  {
    Wrap16(450 * x) / (PwmMax - PwmMin)
  }

  const DutyMin: U16 := Duty(PwmMin)
  const DutyMax: U16 := Duty(PwmMax)

  /** What one motor is driven with: a PWM duty and two direction lines. */
  datatype Drive = Drive(duty: U16, forward: bool, reverse: bool)

  const Stopped := Drive(0, false, false)

  function Output(t: I16): (r: Drive)
    requires t != -0x8000  // negating it would overflow the 16-bit int
    ensures r.forward <==> t > Deadband
    ensures r.reverse <==> t < -Deadband
    ensures !(r.forward && r.reverse)
    ensures r.duty <= DutyMax
    ensures r.duty == 0 <==> -Deadband <= t < Deadband
    ensures Deadband <= Abs(t) <= FullScale && t != -Deadband ==> r.duty == DutyMin + Abs(t) - Deadband
    ensures Abs(t) > FullScale ==> r.duty == DutyMax
  {
    var forward := t > 50;
    var reverse := t < -50;
    var m := if reverse then -t else t;
    var duty := if m < 50 then 0 else if m > 500 then DutyMax else DutyMin + m - 50;
    Drive(duty, forward, reverse)
  }

  /** The duty never decreases as the command moves away from zero on either side. */
  lemma OutputMonotone(s: I16, t: I16)
    requires s != -0x8000 && t != -0x8000
    requires 0 <= s <= t || t <= s <= 0
    ensures Output(s).duty <= Output(t).duty
  {
  }

  /** Away from the deadband edges a reversed command mirrors a forward one. */
  lemma OutputMirror(t: I16)
    requires t != -0x8000 && Abs(t) != Deadband
    ensures Output(-t).duty == Output(t).duty
    ensures Output(-t).forward == Output(t).reverse && Output(-t).reverse == Output(t).forward
  {
  }

  /** At the deadband edge the mapper is not symmetric: +50 drives, -50 does not. */
  lemma OutputDeadbandEdge()
    ensures Output(Deadband) == Drive(DutyMin, false, false)
    ensures Output(-Deadband) == Stopped
    ensures Output(Deadband + 1) == Drive(DutyMin + 1, true, false)
  {
  }

  /** With the configured percentages the linear segment meets the clamp exactly. */
  lemma DutyLimits()
    ensures DutyMin == 50 && DutyMax == 500
    ensures DutyMin + FullScale - Deadband == DutyMax
  {
  }

  /* ---------------------------------------------------------------------- */
  /* Mixer                                                                  */
  /* ---------------------------------------------------------------------- */

  /** A normalized channel value, as `input` returns it. */
  predicate CommandOk(i: int) { -700 <= i <= 700 }

  /**
   * The two motor commands from the two channel values: independent, or
   * differential (throttle plus and minus steering). The differential pair
   * determines the channel values again.
   */
  function Mix(indep: bool, i1: int, i2: int): (r: (I16, I16))
    requires CommandOk(i1) && CommandOk(i2)
    ensures -1400 <= r.0 <= 1400 && -1400 <= r.1 <= 1400
    ensures indep ==> r == (i1, i2)
    ensures !indep ==> r.0 + r.1 == 2 * i1 && r.0 - r.1 == 2 * i2
  {
    if indep then (i1, i2) else (i1 + i2, i1 - i2)
  }

  /** The values of both channels and their channel words. */
  datatype Channels = Channels(i1: I16, u1: U16, i2: I16, u2: U16)
  {
    predicate Ok() { CommandOk(i1) && CommandOk(i2) && WordOk(u1) && WordOk(u2) }
  }

  /** What `update` commits to the two motors for the current channel values. */
  function Commit(indep: bool, c: Channels): (r: (Drive, Drive))
    requires c.Ok()
    ensures !(r.0.forward && r.0.reverse) && !(r.1.forward && r.1.reverse)
    ensures r.0.duty <= DutyMax && r.1.duty <= DutyMax
    ensures c.i1 == 0 && c.i2 == 0 ==> r == (Stopped, Stopped)
    ensures indep ==> r == (Output(c.i1), Output(c.i2))
    ensures !indep ==> r == (Output(c.i1 + c.i2), Output(c.i1 - c.i2))
  {
    var m := Mix(indep, c.i1, c.i2);
    (Output(m.0), Output(m.1))
  }
}
