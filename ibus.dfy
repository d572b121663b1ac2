/**
 * The FlySky i-BUS receiver of the USART1 RX interrupt and the channel
 * dispatcher `channel`. A frame is the header 0x20 0x40, fourteen channel
 * slots of two little-endian bytes and a little-endian checksum equal to
 * 0xFFFF minus the sum of the thirty bytes before it.
 *
 * The decoder keeps a two-byte window (`a`, `b`), a position counter `n`
 * (30 while searching for a header) and a running checksum `u`; one received
 * byte is one `RxStep`, and what the step does besides moving its own state is
 * reported as an `RxEvent`.
 */
module Ibus {
  import opened Avr
  import opened Control

  /** i-BUS slots (1..14) that feed RC channels 1 and 2. */
  const IbusCh1 := 3
  const IbusCh2 := 4

  /** Channel slots in a frame. */
  const Slots := 14
  /** The position counter's value while no frame is being read. */
  const Searching := 30
  /** 0xFFFF minus the two header bytes: the running checksum after a header. */
  const Seed: U16 := 0xff9f

  /** The header pair, which resynchronises the decoder wherever it appears. */
  predicate Marker(a: int, b: int) { a == 0x20 && b == 0x40 }

  /** The decoder's static variables `a`, `b`, `n` and `u`. */
  datatype RxState = RxState(a: U8, b: U8, n: U8, sum: U16)

  /** Their values at reset. */
  const RxInit := RxState(0, 0, Searching, 0)

  /**
   * What a received byte makes the decoder do: nothing further, restart at a
   * header, hand slot `k` to `channel`, or compare the checksum at the end of
   * a frame (and, when `ok`, run the update cycle and take over from capture).
   */
  datatype RxEvent = Quiet | Sync | Slot(k: int, value: U16) | FrameEnd(ok: bool)

  function RxStep(s: RxState, x: U8): (r: (RxState, RxEvent))
    ensures r.0.a == s.b && r.0.b == x
    // a header resets the frame from any state, even in the middle of a frame
    ensures Marker(s.b, x) ==> r == (RxState(0x20, 0x40, 0, Seed), Sync)
    // while searching, a byte only moves the window
    ensures !Marker(s.b, x) && s.n == Searching ==> r == (RxState(s.b, x, Searching, s.sum), Quiet)
    ensures s.n <= Searching ==> r.0.n <= Searching
    // a slot is one of the fourteen, little-endian, and leaves the checksum
    ensures s.n < Searching && r.1.Slot? ==>
      1 <= r.1.k <= Slots && r.1.value == Word(s.b, x) && r.0.sum == Wrap16(s.sum - (s.b + x))
    // a frame end compares the checksum and returns to searching either way
    ensures r.1.FrameEnd? ==> r.0.n == Searching && (r.1.ok <==> s.sum == Word(s.b, x))
    ensures !r.1.Slot? && !r.1.Sync? ==> r.0.sum == s.sum
  {
    var a, b := s.b, x;
    if a == 0x20 && b == 0x40 then (RxState(a, b, 0, Seed), Sync)
    else if s.n == Searching then (RxState(a, b, s.n, s.sum), Quiet)
    else
      var n := (s.n + 1) % 0x100;
      if n % 2 == 1 then (RxState(a, b, n, s.sum), Quiet)
      else if n == Searching then (RxState(a, b, n, s.sum), FrameEnd(s.sum == Word(a, b)))
      else (RxState(a, b, n, Wrap16(s.sum - (a + b))), Slot(n / 2, Word(a, b)))
  }

  /** The decoder run over a byte stream: final state and one event per byte. */
  function RxRun(s: RxState, xs: seq<U8>): (r: (RxState, seq<RxEvent>))
    ensures |r.1| == |xs|
    decreases |xs|
  {
    if xs == [] then (s, [])
    else
      var step := RxStep(s, xs[0]);
      var rest := RxRun(step.0, xs[1..]);
      (rest.0, [step.1] + rest.1)
  }

  /* ---------------------------------------------------------------------- */
  /* Frames                                                                 */
  /* ---------------------------------------------------------------------- */

  /** A 16-bit value as two little-endian bytes. */
  function Le(v: U16): seq<U8> { [Lo(v), Hi(v)] }

  /** The slots of a frame as bytes. */
  function Bytes(ch: seq<U16>): (r: seq<U8>)
    ensures |r| == 2 * |ch|
  {
    if ch == [] then [] else Le(ch[0]) + Bytes(ch[1..])
  }

  function Sum(xs: seq<U8>): nat
  {
    if xs == [] then 0 else xs[0] + Sum(xs[1..])
  }

  /** The i-BUS checksum of a frame carrying the slots `ch`. */
  function Checksum(ch: seq<U16>): (r: U16)
    // the checksum and the thirty bytes before it add up to 0xFFFF modulo 2^16
    ensures Wrap16(r + Sum([0x20, 0x40] + Bytes(ch))) == 0xFFFF
  {
    Wrap16(0xFFFF - Sum([0x20, 0x40] + Bytes(ch)))
  }

  /** A frame with the slots `ch` and the checksum field `c`. */
  function Frame(ch: seq<U16>, c: U16): seq<U8>
  {
    [0x20, 0x40] + (Bytes(ch) + Le(c))
  }

  /** No header pair occurs in `xs` when it follows the byte `p`. */
  predicate NoMarker(p: U8, xs: seq<U8>)
    decreases |xs|
  {
    xs == [] || (!Marker(p, xs[0]) && NoMarker(xs[0], xs[1..]))
  }

  /** The events of the slots `ch`, the first of them being slot `k`. */
  function SlotEvents(k: int, ch: seq<U16>): (r: seq<RxEvent>)
    ensures |r| == 2 * |ch|
    decreases |ch|
  {
    if ch == [] then [] else [Quiet, Slot(k, ch[0])] + SlotEvents(k + 1, ch[1..])
  }

  /** The decoder state after it has read one more slot `v`. */
  function SlotRead(s: RxState, v: U16): RxState
    requires s.n <= 26
  {
    RxState(Lo(v), Hi(v), s.n + 2, Wrap16(s.sum - (Lo(v) as int + Hi(v))))
  }

  /** The decoder state after it has read the slots `ch`. */
  function AfterSlots(s: RxState, ch: seq<U16>): RxState
    requires s.n + 2 * |ch| <= 28
    decreases |ch|
  {
    if ch == [] then s else AfterSlots(SlotRead(s, ch[0]), ch[1..])
  }

  lemma SumLe(v: U16, xs: seq<U8>)
    ensures Sum(Le(v) + xs) == Lo(v) + Hi(v) + Sum(xs)
  {
    assert (Le(v) + xs)[1..] == [Hi(v)] + xs;
    assert ([Hi(v)] + xs)[1..] == xs;
  }

  lemma SumHeader(xs: seq<U8>)
    ensures Sum([0x20, 0x40] + xs) == 0x60 + Sum(xs)
  {
    SumLe(0x4020, xs);
  }

  /** The checksum is the seed less the slot bytes. */
  lemma ChecksumFromSeed(ch: seq<U16>)
    ensures Checksum(ch) == Wrap16(Seed - Sum(Bytes(ch)))
  {
    SumHeader(Bytes(ch));
  }

  /** The low byte of a slot moves the counter to an odd position and emits nothing. */
  lemma SlotLowByte(s: RxState, lo: U8)
    requires s.n % 2 == 0 && s.n <= 26 && !Marker(s.b, lo)
    ensures RxStep(s, lo) == (RxState(s.b, lo, s.n + 1, s.sum), Quiet)
  {
  }

  /** The high byte of a slot emits the slot and takes both bytes off the checksum. */
  lemma SlotHighByte(s: RxState, v: U16)
    requires s.n % 2 == 0 && s.n <= 26 && !Marker(Lo(v), Hi(v))
    ensures RxStep(RxState(s.b, Lo(v), s.n + 1, s.sum), Hi(v)) == (SlotRead(s, v), Slot(s.n / 2 + 1, v))
  {
    var n := s.n + 2;
    assert (s.n + 1 + 1) % 0x100 == n && n % 2 == 0 && n != Searching;
  }

  /**
   * One slot in front of bytes that decode to the events `more` then `after`:
   * a quiet step, then the slot event, then the same.
   */
  lemma SlotDecoded(s: RxState, v: U16, rest: seq<U8>, more: seq<RxEvent>, after: (RxState, seq<RxEvent>))
    requires s.n % 2 == 0 && s.n <= 26
    requires !Marker(s.b, Lo(v)) && !Marker(Lo(v), Hi(v))
    requires RxRun(SlotRead(s, v), rest) == (after.0, more + after.1)
    ensures RxRun(s, Le(v) + rest) == (after.0, ([Quiet, Slot(s.n / 2 + 1, v)] + more) + after.1)
  {
    var lo, hi := Lo(v), Hi(v);
    var xs, ys := Le(v) + rest, [hi] + rest;
    assert xs[0] == lo && xs[1..] == ys;
    assert ys[0] == hi && ys[1..] == rest;
    var s1 := RxState(s.b, lo, s.n + 1, s.sum);
    var e := Slot(s.n / 2 + 1, v);
    SlotLowByte(s, lo);
    SlotHighByte(s, v);
    assert RxRun(s1, ys) == (after.0, [e] + (more + after.1));
    assert [Quiet] + ([e] + (more + after.1)) == ([Quiet, e] + more) + after.1;
  }

  /** Reading slots advances the position counter by two each and takes their bytes off the checksum. */
  lemma {:induction false} AfterSlotsState(s: RxState, ch: seq<U16>)
    requires s.n + 2 * |ch| <= 28
    ensures AfterSlots(s, ch).n == s.n + 2 * |ch|
    ensures AfterSlots(s, ch).sum == Wrap16(s.sum - Sum(Bytes(ch)))
    decreases |ch|
  {
    if ch != [] {
      var v := ch[0];
      AfterSlotsState(SlotRead(s, v), ch[1..]);
      SumLe(v, Bytes(ch[1..]));
      WrapSub(s.sum - (Lo(v) as int + Hi(v)), Sum(Bytes(ch[1..])));
    }
  }

  /**
   * Reading the slots `ch` in the middle of a frame: each pair of bytes is one
   * quiet step and one slot event, and the slots are numbered on from the
   * position counter.
   */
  lemma {:induction false} SlotsDecoded(s: RxState, ch: seq<U16>, tail: seq<U8>)
    requires s.n % 2 == 0 && s.n + 2 * |ch| <= 28
    requires NoMarker(s.b, Bytes(ch) + tail)
    ensures NoMarker(AfterSlots(s, ch).b, tail)
    ensures RxRun(s, Bytes(ch) + tail)
         == (RxRun(AfterSlots(s, ch), tail).0, SlotEvents(s.n / 2 + 1, ch) + RxRun(AfterSlots(s, ch), tail).1)
    decreases |ch|
  {
    if ch == [] {
      assert Bytes(ch) + tail == tail;
      assert AfterSlots(s, ch) == s;
      assert SlotEvents(s.n / 2 + 1, ch) + RxRun(s, tail).1 == RxRun(s, tail).1;
    } else {
      var v := ch[0];
      var rest := Bytes(ch[1..]) + tail;
      var xs := Le(v) + rest;
      assert Bytes(ch) + tail == xs;
      assert !Marker(s.b, Lo(v)) && !Marker(Lo(v), Hi(v)) && NoMarker(Hi(v), rest) by {
        var ys := [Hi(v)] + rest;
        assert xs[0] == Lo(v) && xs[1..] == ys;
        assert ys[0] == Hi(v) && ys[1..] == rest;
      }
      var s2 := SlotRead(s, v);
      assert AfterSlots(s, ch) == AfterSlots(s2, ch[1..]);
      SlotsDecoded(s2, ch[1..], tail);
      assert s2.n / 2 + 1 == s.n / 2 + 2;
      var after := RxRun(AfterSlots(s, ch), tail);
      SlotDecoded(s, v, rest, SlotEvents(s.n / 2 + 2, ch[1..]), after);
      assert SlotEvents(s.n / 2 + 1, ch) == [Quiet, Slot(s.n / 2 + 1, v)] + SlotEvents(s.n / 2 + 2, ch[1..]);
    }
  }

  /** The two checksum bytes end the frame: one quiet step, then the comparison. */
  lemma ChecksumRead(s: RxState, c: U16)
    requires s.n == 28 && NoMarker(s.b, Le(c))
    ensures RxRun(s, Le(c)).0.n == Searching
    ensures RxRun(s, Le(c)).1 == [Quiet, FrameEnd(s.sum == c)]
  {
    var s1 := RxState(s.b, Lo(c), 29, s.sum);
    assert RxStep(s, Lo(c)) == (s1, Quiet);
    assert Le(c)[1..] == [Hi(c)];
    var s2 := RxState(Lo(c), Hi(c), Searching, s.sum);
    assert RxStep(s1, Hi(c)) == (s2, FrameEnd(s.sum == c));
    assert [Hi(c)][1..] == [];
    assert RxRun(s2, []) == (s2, []);
    assert RxRun(s1, [Hi(c)]) == (s2, [FrameEnd(s.sum == c)] + []);
  }

  /**
   * A frame read from any decoder state: its header resynchronises the decoder,
   * each of the fourteen slots is dispatched in order, and the frame end is
   * accepted exactly when the checksum field equals the i-BUS checksum; after it
   * the decoder is searching again, accepted or not. (The first byte of the
   * header may still finish whatever the old state was doing.)
   */
  lemma FrameDecoded(s: RxState, ch: seq<U16>, c: U16)
    requires |ch| == Slots
    requires NoMarker(0x40, Bytes(ch) + Le(c))
    ensures RxRun(s, Frame(ch, c)).0.n == Searching
    ensures RxRun(s, Frame(ch, c)).1[1..] == [Sync] + SlotEvents(1, ch) + [Quiet, FrameEnd(c == Checksum(ch))]
  {
    var body := Bytes(ch) + Le(c);
    var f := Frame(ch, c);
    assert f[1..] == [0x40] + body;
    assert ([0x40] + body)[1..] == body;
    var s1 := RxStep(s, 0x20).0;
    var s0 := RxState(0x20, 0x40, 0, Seed);
    assert RxStep(s1, 0x40) == (s0, Sync);
    SlotsDecoded(s0, ch, Le(c));
    AfterSlotsState(s0, ch);
    ChecksumRead(AfterSlots(s0, ch), c);
    ChecksumFromSeed(ch);
  }

  /* ---------------------------------------------------------------------- */
  /* Channel dispatch                                                       */
  /* ---------------------------------------------------------------------- */

  /** `channel`: slot `k` goes through `input` into the RC channel it feeds; other slots are ignored. */
  function Dispatch(k: int, t: U16, c: Channels): (r: Channels)
    ensures c.Ok() ==> r.Ok()
    ensures k != IbusCh1 ==> r.i1 == c.i1 && r.u1 == c.u1
    ensures k != IbusCh2 ==> r.i2 == c.i2 && r.u2 == c.u2
    ensures k == IbusCh1 ==> Gate(r.i1, r.u1) == Input(t, c.u1)
    ensures k == IbusCh2 ==> Gate(r.i2, r.u2) == Input(t, c.u2)
  {
    if k == IbusCh1 then
      var g := Input(t, c.u1);
      c.(i1 := g.value, u1 := g.word)
    else if k == IbusCh2 then
      var g := Input(t, c.u2);
      c.(i2 := g.value, u2 := g.word)
    else c
  }

  /** The channels after the events `evs`: only slot events write them. */
  function ApplyEvents(c: Channels, evs: seq<RxEvent>): Channels
    decreases |evs|
  {
    if evs == [] then c
    else ApplyEvents(if evs[0].Slot? then Dispatch(evs[0].k, evs[0].value, c) else c, evs[1..])
  }

  /** The update cycles the events `evs` run: one per accepted frame end. */
  function Updates(evs: seq<RxEvent>): nat
    decreases |evs|
  {
    if evs == [] then 0 else (if evs[0] == FrameEnd(true) then 1 else 0) + Updates(evs[1..])
  }

  lemma ApplyEventsAppend(c: Channels, xs: seq<RxEvent>, ys: seq<RxEvent>)
    ensures ApplyEvents(c, xs + ys) == ApplyEvents(ApplyEvents(c, xs), ys)
    ensures Updates(xs + ys) == Updates(xs) + Updates(ys)
    decreases |xs|
  {
    if xs == [] {
      assert xs + ys == ys;
    } else {
      assert (xs + ys)[0] == xs[0];
      assert (xs + ys)[1..] == xs[1..] + ys;
      ApplyEventsAppend(if xs[0].Slot? then Dispatch(xs[0].k, xs[0].value, c) else c, xs[1..], ys);
    }
  }

  /** What a frame carrying `ch` leaves in the two RC channels. */
  function Routed(c: Channels, ch: seq<U16>): Channels
    requires |ch| == Slots
  {
    var g1 := Input(ch[IbusCh1 - 1], c.u1);
    var g2 := Input(ch[IbusCh2 - 1], c.u2);
    Channels(g1.value, g1.word, g2.value, g2.word)
  }

  /**
   * The slots starting at number `k` write RC channel 1 once, from the slot
   * numbered `IbusCh1`, and RC channel 2 once, from the slot `IbusCh2`, if the
   * run covers them, and run no update cycle.
   */
  lemma {:induction false} SlotsRouted(c: Channels, k: int, ch: seq<U16>)
    ensures var r := ApplyEvents(c, SlotEvents(k, ch));
      && (if k <= IbusCh1 < k + |ch| then Gate(r.i1, r.u1) == Input(ch[IbusCh1 - k], c.u1)
          else r.i1 == c.i1 && r.u1 == c.u1)
      && (if k <= IbusCh2 < k + |ch| then Gate(r.i2, r.u2) == Input(ch[IbusCh2 - k], c.u2)
          else r.i2 == c.i2 && r.u2 == c.u2)
    ensures Updates(SlotEvents(k, ch)) == 0
    decreases |ch|
  {
    if ch != [] {
      var d := Dispatch(k, ch[0], c);
      var pair := [Quiet, Slot(k, ch[0])];
      ApplyEventsAppend(c, pair, SlotEvents(k + 1, ch[1..]));
      assert pair[1..] == [Slot(k, ch[0])];
      assert ApplyEvents(c, [Slot(k, ch[0])]) == ApplyEvents(d, []);
      assert ApplyEvents(c, pair) == d;
      assert Updates([Slot(k, ch[0])]) == 0;
      assert Updates(pair) == 0;
      SlotsRouted(d, k + 1, ch[1..]);
    }
  }

  /**
   * The effect of one frame on the RC channels and the update cycle: the two
   * mapped slots pass through `input` exactly once each, whether or not the
   * checksum matches (the channels are written before the checksum arrives),
   * and the update cycle runs once for a matching checksum and never otherwise.
   */
  lemma FrameEffect(s: RxState, c: Channels, ch: seq<U16>, cs: U16)
    requires |ch| == Slots
    requires NoMarker(0x40, Bytes(ch) + Le(cs))
    ensures RxRun(s, Frame(ch, cs)).0.n == Searching
    ensures ApplyEvents(c, RxRun(s, Frame(ch, cs)).1[1..]) == Routed(c, ch)
    ensures Updates(RxRun(s, Frame(ch, cs)).1[1..]) == if cs == Checksum(ch) then 1 else 0
  {
    FrameDecoded(s, ch, cs);
    var tail := [Quiet, FrameEnd(cs == Checksum(ch))];
    SlotsRouted(c, 1, ch);
    ApplyEventsAppend(c, [Sync] + SlotEvents(1, ch), tail);
    ApplyEventsAppend(c, [Sync], SlotEvents(1, ch));
    assert ApplyEvents(c, [Sync]) == c && Updates([Sync]) == 0;
    var r := ApplyEvents(c, [Sync] + SlotEvents(1, ch));
    var last := [FrameEnd(cs == Checksum(ch))];
    assert tail[1..] == last;
    assert ApplyEvents(r, last) == ApplyEvents(r, []) == r;
    assert ApplyEvents(r, tail) == r;
    assert Updates(last) == if cs == Checksum(ch) then 1 else 0;
    assert Updates(tail) == Updates(last);
  }

  /* ---------------------------------------------------------------------- */
  /* Error detection                                                        */
  /* ---------------------------------------------------------------------- */

  lemma {:induction false} SumBytesUpdate(ch: seq<U16>, i: nat, w: U16)
    requires i < |ch|
    ensures Sum(Bytes(ch[i := w])) == Sum(Bytes(ch)) - (Lo(ch[i]) + Hi(ch[i])) + (Lo(w) + Hi(w))
    decreases |ch|
  {
    var ch' := ch[i := w];
    SumLe(ch[0], Bytes(ch[1..]));
    SumLe(ch'[0], Bytes(ch'[1..]));
    if i > 0 {
      assert ch'[1..] == ch[1..][i - 1 := w];
      SumBytesUpdate(ch[1..], i - 1, w);
    } else {
      assert ch'[1..] == ch[1..];
    }
  }

  /** Two values closer than 2^16 but distinct stay distinct modulo 2^16. */
  lemma WrapDistinct(x: int, d: int)
    requires 0 < d < 0x1_0000 || -0x1_0000 < d < 0
    ensures Wrap16(x - d) != Wrap16(x)
  {
    var q, q' := x / 0x1_0000, (x - d) / 0x1_0000;
    assert x == q * 0x1_0000 + Wrap16(x);
    assert x - d == q' * 0x1_0000 + Wrap16(x - d);
    var k := q - q';
    assert d == k * 0x1_0000 + (Wrap16(x) - Wrap16(x - d));
    if k >= 1 {
      assert k * 0x1_0000 >= 0x1_0000;
      assert Wrap16(x) < Wrap16(x - d);
    } else if k <= -1 {
      assert k * 0x1_0000 <= -0x1_0000;
      assert Wrap16(x) > Wrap16(x - d);
    } else {
      assert Wrap16(x) - Wrap16(x - d) == d;
    }
  }

  /**
   * A slot whose byte sum changes changes the checksum. This covers every
   * error that alters exactly one byte of a slot, and so every single flipped
   * bit.
   */
  lemma SlotErrorDetected(ch: seq<U16>, i: nat, w: U16)
    requires i < |ch|
    requires Lo(w) + Hi(w) != Lo(ch[i]) + Hi(ch[i])
    ensures Checksum(ch[i := w]) != Checksum(ch)
  {
    SumBytesUpdate(ch, i, w);
    ChecksumFromSeed(ch);
    ChecksumFromSeed(ch[i := w]);
    WrapDistinct(Seed - Sum(Bytes(ch)), (Lo(w) + Hi(w)) - (Lo(ch[i]) + Hi(ch[i])));
  }

  /**
   * A frame in which one slot's byte sum changed in transit, arriving with the
   * checksum of the frame that was sent, still writes the channels from the
   * corrupted slots but never runs the update cycle.
   */
  lemma CorruptedFrameRejected(s: RxState, c: Channels, ch: seq<U16>, i: nat, w: U16)
    requires |ch| == Slots && i < |ch|
    requires Lo(w) + Hi(w) != Lo(ch[i]) + Hi(ch[i])
    requires NoMarker(0x40, Bytes(ch[i := w]) + Le(Checksum(ch)))
    ensures RxRun(s, Frame(ch[i := w], Checksum(ch))).0.n == Searching
    ensures ApplyEvents(c, RxRun(s, Frame(ch[i := w], Checksum(ch))).1[1..]) == Routed(c, ch[i := w])
    ensures Updates(RxRun(s, Frame(ch[i := w], Checksum(ch))).1[1..]) == 0
  {
    SlotErrorDetected(ch, i, w);
    FrameEffect(s, c, ch[i := w], Checksum(ch));
  }

  /** Changing exactly one of the two bytes of a slot changes its byte sum. */
  lemma OneByteChangesSum(v: U16, w: U16)
    requires (Lo(w) == Lo(v)) != (Hi(w) == Hi(v))
    ensures Lo(w) + Hi(w) != Lo(v) + Hi(v)
  {
  }

  /* ---------------------------------------------------------------------- */
  /* Frames of servo values                                                 */
  /* ---------------------------------------------------------------------- */

  /** Slot values below 0x2000 (servo pulse widths are 1000..2000) have a high byte below 0x20. */
  predicate ServoValues(ch: seq<U16>)
  {
    forall k :: 0 <= k < |ch| ==> ch[k] < 0x2000
  }

  lemma {:induction false} ServoBytesHaveNoMarker(p: U8, ch: seq<U16>, c: U16)
    requires p != 0x20 && Hi(c) != 0x40
    requires ServoValues(ch)
    ensures NoMarker(p, Bytes(ch) + Le(c))
    decreases |ch|
  {
    if ch == [] {
      assert Bytes(ch) + Le(c) == [Lo(c), Hi(c)];
      assert [Lo(c), Hi(c)][1..] == [Hi(c)];
    } else {
      var lo, hi := Lo(ch[0]), Hi(ch[0]);
      var rest := Bytes(ch[1..]) + Le(c);
      assert Bytes(ch) + Le(c) == [lo, hi] + rest;
      assert ([lo, hi] + rest)[1..] == [hi] + rest;
      assert ([hi] + rest)[1..] == rest;
      assert hi < 0x20;
      ServoBytesHaveNoMarker(hi, ch[1..], c);
    }
  }

  lemma {:induction false} ServoSumBound(ch: seq<U16>)
    requires ServoValues(ch)
    ensures Sum(Bytes(ch)) <= 286 * |ch|
    decreases |ch|
  {
    if ch != [] {
      SumLe(ch[0], Bytes(ch[1..]));
      ServoSumBound(ch[1..]);
    }
  }

  /**
   * A well-formed frame of servo values contains no header pair after its
   * own, so the decoder reads it through and accepts it.
   */
  lemma ServoFrameAccepted(s: RxState, c: Channels, ch: seq<U16>)
    requires |ch| == Slots && ServoValues(ch)
    ensures RxRun(s, Frame(ch, Checksum(ch))).0.n == Searching
    ensures RxRun(s, Frame(ch, Checksum(ch))).1[1..]
         == [Sync] + SlotEvents(1, ch) + [Quiet, FrameEnd(true)]
    ensures ApplyEvents(c, RxRun(s, Frame(ch, Checksum(ch))).1[1..]) == Routed(c, ch)
    ensures Updates(RxRun(s, Frame(ch, Checksum(ch))).1[1..]) == 1
  {
    ServoSumBound(ch);
    ChecksumFromSeed(ch);
    assert Hi(Checksum(ch)) >= 0xef;
    ServoBytesHaveNoMarker(0x40, ch, Checksum(ch));
    FrameDecoded(s, ch, Checksum(ch));
    FrameEffect(s, c, ch, Checksum(ch));
  }
}
