/**
 * The firmware's interrupt-driven core: the file-level globals and the static
 * variables of the interrupt handlers as the fields of one object, and each
 * interrupt handler as one method. AVR handlers run with interrupts masked, so
 * each call is one atomic event.
 *
 * The register writes that commit an update cycle are modelled as the logical
 * drive of each motor; the watchdog reset as a counter.
 */
module Firmware {
  import opened Avr
  import opened Control
  import opened Ibus
  import opened Status

  /** Bit 0x40 of TCCRnB (ICES): the next capture is on a rising edge. */
  predicate RisingEdge(tccrb: bv8) { tccrb & 0x40 != 0 }

  /** Bit 0x20 of TIMSKn (ICIE): input-capture interrupts are enabled. */
  predicate CaptureIrq(timsk: bv8) { timsk & 0x20 != 0 }

  class Controller {
    /** Build configuration: independent mixing (INDEP) and a 16 MHz clock (CLK_16MHZ). */
    const indep: bool
    const clk16: bool

    /** Rise timestamps of the two capture channels. */
    var t1: U16
    var t2: U16
    /** Channel words (zero: unarmed, otherwise the last accepted width) and channel values. */
    var u1: U16
    var u2: U16
    var i1: I16
    var i2: I16
    /** The committed drive of each motor: p1, f1, r1 and p2, f2, r2. */
    var motor1: Drive
    var motor2: Drive
    /** Watchdog resets so far. */
    var wdtResets: nat
    /** Set by every acting overflow, for the diagnostics loop. */
    var tick: bool

    /** Timer control and interrupt mask registers of the two capture timers. */
    var tccr1b: bv8
    var tccr3b: bv8
    var timsk1: bv8
    var timsk3: bv8

    /** The static variables `a`, `b`, `n` and `u` of the receive handler. */
    var rxA: U8
    var rxB: U8
    var rxN: U8
    var rxSum: U16

    /** The static variables `cnt` and `led` of the overflow handler, and the LED pin. */
    var cnt: U8
    var led: U8
    var ledOn: bool

    function Chans(): Channels
      reads this`i1, this`u1, this`i2, this`u2
    {
      Channels(i1, u1, i2, u2)
    }

    function Rx(): RxState
      reads this`rxA, this`rxB, this`rxN, this`rxSum
    {
      RxState(rxA, rxB, rxN, rxSum)
    }

    /** Both capture interrupts as `main` enables them (and the overflow interrupt). */
    predicate CaptureOn()
      reads this`timsk1, this`timsk3
    {
      timsk1 == 0x21 && timsk3 == 0x20
    }

    /** After a good i-BUS frame: only the overflow interrupt is left on timer 1. */
    predicate HandedOver()
      reads this`timsk1, this`timsk3
    {
      timsk1 == 0x01 && timsk3 == 0x00
    }

    ghost predicate Valid()
      reads this
    {
      && Chans().Ok()
      && rxN <= Searching
      && cnt <= Prescale(clk16)
      && led <= 5
      && (CaptureOn() || HandedOver())
    }

    /** Power-on state: zeroed statics, the decoder searching, and the register setup of `main`. */
    constructor (indep: bool, clk16: bool)
      ensures Valid() && CaptureOn()
      ensures this.indep == indep && this.clk16 == clk16
      ensures Chans() == Channels(0, 0, 0, 0) && motor1 == Stopped && motor2 == Stopped
      ensures Rx() == RxInit && wdtResets == 0
      ensures RisingEdge(tccr1b) && RisingEdge(tccr3b)
      // zero-initialised statics: timestamps, the tick flag, the prescaler and the LED countdown
      ensures t1 == 0 && t2 == 0 && !tick
      ensures cnt == 0 && led == 0 && !ledOn
    {
      this.indep := indep;
      this.clk16 := clk16;
      t1, t2 := 0, 0;
      u1, u2, i1, i2 := 0, 0, 0, 0;
      motor1, motor2 := Stopped, Stopped;
      wdtResets := 0;
      tick := false;
      tccr1b, tccr3b := 0xc2, 0xc2;
      timsk1, timsk3 := 0x21, 0x20;
      rxA, rxB, rxN, rxSum := 0, 0, Searching, 0;
      cnt, led, ledOn := 0, 0, false;
    }

    /**
     * `update`: mix the two channel values, drive both motors and reset the
     * watchdog. Nothing else changes.
     */
    method Update()
      requires Valid()
      modifies this`motor1, this`motor2, this`wdtResets
      ensures Valid()
      ensures (motor1, motor2) == Commit(indep, Chans())
      ensures wdtResets == old(wdtResets) + 1
    {
      var m1: I16, m2: I16;
      if indep {
        m1, m2 := i1, i2;
      } else {
        m1, m2 := i1 + i2, i1 - i2;
      }
      motor1 := Output(m1);
      motor2 := Output(m2);
      wdtResets := wdtResets + 1;
    }

    /** `channel`: slot `k` of an i-BUS frame feeds the RC channel mapped to it. */
    method Channel(k: U8, t: U16)
      requires Valid()
      modifies this`i1, this`u1, this`i2, this`u2
      ensures Valid()
      ensures Chans() == Dispatch(k, t, old(Chans()))
    {
      if k == IbusCh1 {
        var g := Input(t, u1);
        i1, u1 := g.value, g.word;
      } else if k == IbusCh2 {
        var g := Input(t, u2);
        i2, u2 := g.value, g.word;
      }
    }

    /**
     * The timer-1 capture handler: flip the edge select; a rising edge only
     * stores its timestamp, a falling edge measures the pulse, passes it
     * through `input` into channel 1 and runs the update cycle.
     */
    method Timer1Capture(icr: U16)
      requires Valid()
      modifies this`tccr1b, this`t1, this`i1, this`u1, this`motor1, this`motor2, this`wdtResets
      ensures Valid()
      ensures tccr1b == old(tccr1b) ^ 0x40
      ensures RisingEdge(tccr1b) != RisingEdge(old(tccr1b))
      ensures RisingEdge(old(tccr1b)) ==>
        && t1 == icr && i1 == old(i1) && u1 == old(u1)
        && motor1 == old(motor1) && motor2 == old(motor2) && wdtResets == old(wdtResets)
      ensures !RisingEdge(old(tccr1b)) ==>
        && t1 == old(t1)
        && Gate(i1, u1) == Input(Width(t1, icr, clk16), old(u1))
        && (motor1, motor2) == Commit(indep, Chans())
        && wdtResets == old(wdtResets) + 1
    {
      var b := tccr1b;
      tccr1b := b ^ 0x40;
      if b & 0x40 != 0 {
        t1 := icr;
        return;
      }
      var g := Input(Width(t1, icr, clk16), u1);
      i1, u1 := g.value, g.word;
      Update();
    }

    /** The timer-3 capture handler: the same for channel 2. */
    method Timer3Capture(icr: U16)
      requires Valid()
      modifies this`tccr3b, this`t2, this`i2, this`u2, this`motor1, this`motor2, this`wdtResets
      ensures Valid()
      ensures tccr3b == old(tccr3b) ^ 0x40
      ensures RisingEdge(tccr3b) != RisingEdge(old(tccr3b))
      ensures RisingEdge(old(tccr3b)) ==>
        && t2 == icr && i2 == old(i2) && u2 == old(u2)
        && motor1 == old(motor1) && motor2 == old(motor2) && wdtResets == old(wdtResets)
      ensures !RisingEdge(old(tccr3b)) ==>
        && t2 == old(t2)
        && Gate(i2, u2) == Input(Width(t2, icr, clk16), old(u2))
        && (motor1, motor2) == Commit(indep, Chans())
        && wdtResets == old(wdtResets) + 1
    {
      var b := tccr3b;
      tccr3b := b ^ 0x40;
      if b & 0x40 != 0 {
        t2 := icr;
        return;
      }
      var g := Input(Width(t2, icr, clk16), u2);
      i2, u2 := g.value, g.word;
      Update();
    }

    /**
     * A capture event on timer 1 as the hardware delivers it: the handler runs
     * only while its interrupt is enabled, so after the hand-over to i-BUS a
     * capture changes nothing.
     */
    method CaptureEvent1(icr: U16)
      requires Valid()
      modifies this`tccr1b, this`t1, this`i1, this`u1, this`motor1, this`motor2, this`wdtResets
      ensures Valid()
      ensures !CaptureIrq(old(timsk1)) ==> unchanged(this)
      ensures old(HandedOver()) ==> unchanged(this)
      // enabled: exactly the handler
      ensures CaptureIrq(old(timsk1)) ==> tccr1b == old(tccr1b) ^ 0x40
      ensures CaptureIrq(old(timsk1)) && RisingEdge(old(tccr1b)) ==>
        && t1 == icr && i1 == old(i1) && u1 == old(u1)
        && motor1 == old(motor1) && motor2 == old(motor2) && wdtResets == old(wdtResets)
      ensures CaptureIrq(old(timsk1)) && !RisingEdge(old(tccr1b)) ==>
        && t1 == old(t1)
        && Gate(i1, u1) == Input(Width(t1, icr, clk16), old(u1))
        && (motor1, motor2) == Commit(indep, Chans())
        && wdtResets == old(wdtResets) + 1
    {
      if timsk1 & 0x20 != 0 {
        Timer1Capture(icr);
      }
    }

    /** A capture event on timer 3, likewise. */
    method CaptureEvent3(icr: U16)
      requires Valid()
      modifies this`tccr3b, this`t2, this`i2, this`u2, this`motor1, this`motor2, this`wdtResets
      ensures Valid()
      ensures !CaptureIrq(old(timsk3)) ==> unchanged(this)
      ensures old(HandedOver()) ==> unchanged(this)
      // enabled: exactly the handler
      ensures CaptureIrq(old(timsk3)) ==> tccr3b == old(tccr3b) ^ 0x40
      ensures CaptureIrq(old(timsk3)) && RisingEdge(old(tccr3b)) ==>
        && t2 == icr && i2 == old(i2) && u2 == old(u2)
        && motor1 == old(motor1) && motor2 == old(motor2) && wdtResets == old(wdtResets)
      ensures CaptureIrq(old(timsk3)) && !RisingEdge(old(tccr3b)) ==>
        && t2 == old(t2)
        && Gate(i2, u2) == Input(Width(t2, icr, clk16), old(u2))
        && (motor1, motor2) == Commit(indep, Chans())
        && wdtResets == old(wdtResets) + 1
    {
      if timsk3 & 0x20 != 0 {
        Timer3Capture(icr);
      }
    }

    /**
     * The USART1 receive handler for the byte `x`: one step of the i-BUS
     * decoder, then its effect. A slot event writes the mapped channel at
     * once; an accepted frame end runs the update cycle and leaves only the
     * overflow interrupt enabled, for good; nothing else touches the channels,
     * the motors, the watchdog or the interrupt masks.
     */
    method UsartRx(x: U8)
      requires Valid()
      modifies this`rxA, this`rxB, this`rxN, this`rxSum, this`i1, this`u1, this`i2, this`u2,
               this`motor1, this`motor2, this`wdtResets, this`timsk1, this`timsk3
      ensures Valid()
      ensures Rx() == RxStep(old(Rx()), x).0
      ensures var ev := RxStep(old(Rx()), x).1;
        && Chans() == (if ev.Slot? then Dispatch(ev.k, ev.value, old(Chans())) else old(Chans()))
        && wdtResets == old(wdtResets) + (if ev == FrameEnd(true) then 1 else 0)
        && (ev == FrameEnd(true) ==> (motor1, motor2) == Commit(indep, Chans()) && HandedOver())
        && (ev != FrameEnd(true) ==>
              motor1 == old(motor1) && motor2 == old(motor2) && timsk1 == old(timsk1) && timsk3 == old(timsk3))
      // the hand-over to i-BUS is never undone
      ensures old(HandedOver()) ==> HandedOver()
    {
      // the step named up front: it spares the solver from unfolding RxStep repeatedly
      ghost var step := RxStep(Rx(), x);
      var ev := RxDecode(x);
      match ev {
        case Slot(k, t) =>
          Channel(k, t);
        case FrameEnd(ok) =>
          if ok {
            Update();
            // i-BUS now drives the channels: mask both capture interrupts
            timsk1 := 0x01;
            timsk3 := 0x00;
          }
        case _ =>
      }
    }

    /**
     * The receive handler's own state machine over the static variables: the
     * two-byte window `a`, `b`, the position `n` in the frame (30 while
     * searching for a header) and the running checksum `u`. It reports what
     * the byte completed: a header, a slot word, the checksum word, or nothing.
     */
    method RxDecode(x: U8) returns (ev: RxEvent)
      requires Valid()
      modifies this`rxA, this`rxB, this`rxN, this`rxSum
      ensures Valid()
      ensures Rx() == RxStep(old(Rx()), x).0
      ensures ev == RxStep(old(Rx()), x).1
      ensures rxN <= Searching
    {
      // the step named up front: it spares the solver from unfolding RxStep repeatedly
      ghost var step := RxStep(Rx(), x);
      rxA := rxB;
      rxB := x;
      if rxA == 0x20 && rxB == 0x40 {  // header pair: restart the frame
        rxN := 0;
        rxSum := Seed;
        ev := Sync;
      } else if rxN == Searching {
        ev := Quiet;
      } else {
        assert (rxN + 1) % 0x100 == rxN + 1;  // the counter cannot wrap below 30
        rxN := rxN + 1;
        if rxN % 2 == 1 {
          ev := Quiet;
        } else {
          var t := Word(rxA, rxB);
          if rxN == Searching {  // the checksum word: accept the frame only if it matches
            ev := FrameEnd(rxSum == t);
          } else {
            ev := Slot(rxN / 2, t);
            rxSum := Wrap16(rxSum - (rxA + rxB));
          }
        }
      }
    }

    /**
     * The receive handler run once per byte of `xs`, in order: the decoder,
     * the channels and the watchdog end where the pure decoder run says, and
     * an accepted frame end anywhere in the stream leaves the capture
     * interrupts off.
     */
    method Receive(xs: seq<U8>)
      requires Valid()
      modifies this`rxA, this`rxB, this`rxN, this`rxSum, this`i1, this`u1, this`i2, this`u2,
               this`motor1, this`motor2, this`wdtResets, this`timsk1, this`timsk3
      ensures Valid()
      ensures Rx() == RxRun(old(Rx()), xs).0
      ensures Chans() == ApplyEvents(old(Chans()), RxRun(old(Rx()), xs).1)
      ensures wdtResets == old(wdtResets) + Updates(RxRun(old(Rx()), xs).1)
      ensures Updates(RxRun(old(Rx()), xs).1) > 0 || old(HandedOver()) ==> HandedOver()
      // without an accepted frame end the motors and the interrupt masks stay as they were
      ensures Updates(RxRun(old(Rx()), xs).1) == 0 ==>
        motor1 == old(motor1) && motor2 == old(motor2) && timsk1 == old(timsk1) && timsk3 == old(timsk3)
      // a stream that ends on an accepted frame leaves the motors committed to the final channels
      ensures xs != [] && RxRun(old(Rx()), xs).1[|xs| - 1] == FrameEnd(true) ==>
        (motor1, motor2) == Commit(indep, Chans())
      decreases |xs|
    {
      if xs != [] {
        ghost var s0 := Rx();
        UsartRx(xs[0]);
        ghost var step := RxStep(s0, xs[0]);
        assert RxRun(s0, xs).1 == [step.1] + RxRun(step.0, xs[1..]).1;
        if |xs| > 1 {
          Receive(xs[1..]);
          assert RxRun(s0, xs).1[|xs| - 1] == RxRun(step.0, xs[1..]).1[|xs| - 2];
        }
      }
    }

    /**
     * A well-formed frame of servo values received while the decoder searches
     * (at power-on, or after any earlier frame): both mapped channels go
     * through `input`, the update cycle runs exactly once and i-BUS takes over.
     */
    method ReceiveServoFrame(ch: seq<U16>)
      requires Valid() && rxN == Searching
      requires |ch| == Slots && ServoValues(ch)
      modifies this`rxA, this`rxB, this`rxN, this`rxSum, this`i1, this`u1, this`i2, this`u2,
               this`motor1, this`motor2, this`wdtResets, this`timsk1, this`timsk3
      ensures Valid() && rxN == Searching
      ensures Chans() == Routed(old(Chans()), ch)
      ensures wdtResets == old(wdtResets) + 1
      ensures (motor1, motor2) == Commit(indep, Chans())
      ensures HandedOver()
    {
      ghost var s0, c0 := Rx(), Chans();
      var xs := Frame(ch, Checksum(ch));
      ServoFrameAccepted(s0, c0, ch);
      ghost var evs := RxRun(s0, xs).1;
      assert evs == [Quiet] + evs[1..] by {
        assert evs[0] == RxStep(s0, 0x20).1 == Quiet;
      }
      ApplyEventsAppend(c0, [Quiet], evs[1..]);
      assert ApplyEvents(c0, [Quiet]) == c0 && Updates([Quiet]) == 0;
      assert evs[|xs| - 1] == FrameEnd(true);
      Receive(xs);
    }

    /**
     * The timer-1 overflow handler: the prescaler lets one overflow in four
     * (seven at 16 MHz) act; an acting overflow sets `tick` and advances the
     * LED countdown, reloading it from the number of armed channels.
     */
    method Timer1Overflow()
      requires Valid()
      modifies this`cnt, this`tick, this`led, this`ledOn
      ensures Valid()
      ensures cnt == Prescaler(old(cnt), clk16).0
      ensures Prescaler(old(cnt), clk16).1 ==>
        tick && (led as nat, ledOn) == LedNext(old(led), old(ledOn), ArmedCount(u1, u2))
      ensures !Prescaler(old(cnt), clk16).1 ==>
        tick == old(tick) && led == old(led) && ledOn == old(ledOn)
    {
      var c := cnt;
      cnt := c + 1;
      if c < Prescale(clk16) {
        return;
      }
      cnt := 0;
      tick := true;
      if led == 0 {
        led := ArmedCount(u1, u2) * 2 + 1;
      } else {
        led := led - 1;
        if led != 0 {
          ledOn := !ledOn;
        }
      }
    }
  }
}
