# ATmega RC dual motor driver: a Dafny model of the control core

The firmware drives two DC motors from a radio-control receiver. The receiver
is read in one of two ways:

- as two RC pulse channels on the input-capture units of timers 1 and 3;
- as a FlySky i-BUS serial stream on USART1.

The first good i-BUS frame switches the pulse inputs off for good. The update
cycle runs on every falling capture edge, whether `input` accepts the pulse
or not, and on every i-BUS frame whose checksum matches:

- **Mixing.** The two channel values are mixed differentially (throttle plus
  and minus steering), or passed through unchanged when built with `INDEP`.
- **Output.** Each motor command is mapped to a PWM duty and a pair of
  direction lines.
- **Watchdog.** The watchdog is reset.

The timer-1 overflow interrupt blinks a status LED once for each armed channel.

The model covers `src/main.c` from the `duty` macro to the last interrupt
handler, with the tunables of `src/config.h`. There is one Dafny module per
part of the firmware:

- `avr.dfy` (`Avr`): the 8- and 16-bit machine integers and wrap-around modulo
  2^16, which is how a 16-bit `int` target reduces `uint16_t` results.
- `control.dfy` (`Control`): the signal gate `input` and the output mapper
  `output` with `duty`. Also the pulse width as the capture handlers compute
  it, the mixer and what one update cycle commits. All of these are pure
  functions, with lemmas about pulse trains and about the shape of the duty
  curve.
- `ibus.dfy` (`Ibus`): the receive handler's state machine as a pure step
  function on its static variables (`a`, `b`, `n`, `u`), run over byte
  streams. It carries the frame format, the checksum and `channel`. Lemmas
  say what the decoder does with a whole frame and which errors the checksum
  detects.
- `status.dfy` (`Status`): the overflow handler's prescaler and LED countdown
  as pure functions, with lemmas about the period and the blink cycle.
- `firmware.dfy` (`Firmware`): one `Controller` object that holds the file
  globals, the static variables of the handlers and the timer registers the
  handlers touch.
  - `update`, `channel` and each interrupt handler is one method that updates
    those fields in place.
  - Each method is specified against the pure functions above.
  - The class invariant `Valid` holds after every method, including the
    decoder step `RxDecode` inside the receive handler.

`INDEP` and `CLK_16MHZ` are constant fields of the controller, so every proof
covers all four builds. Interrupt handlers run with interrupts masked on the
AVR, so each method call is one atomic event.

Behaviours of the code that are easy to miss, all of which the model keeps:

- An out-of-range pulse disarms the channel (`*u = 0`), so it must pass
  through neutral again before it moves a motor.
- The first neutral pulse that arms a channel already returns `t - 1500`, not 0.
- A command of exactly +50 gets the minimum duty with both direction lines
  off. A command of -50 gets duty 0.
- A frame whose checksum does not match is not discarded as a whole. Its slots
  have already been passed to `channel` as they arrived, so the channel values
  are written. Only the update cycle and the hand-over are skipped. In a
  frame that, as received, has no 0x20 0x40 pair inside it, a single-bit
  error in a slot is always detected.
- A slot value such as 0x4020 puts a 0x20 0x40 pair inside a frame, and the
  decoder resynchronises there in mid-frame.
- A rejected pulse still runs the update cycle, so it still resets the
  watchdog.
- The checksum is 0xFFFF minus the sum of all 30 bytes before it, including
  the two header bytes (seed 0xff9f = 0xFFFF - 0x20 - 0x40).

## Model

| member | source | states |
|---|---|---|
| Avr.Wrap16 | src/main.c:159 | storing into a `uint16_t` keeps a value already in range and adds 2^16 to a negative one above -2^16 |
| Avr.WrapSub | src/main.c:159 | reducing the running checksum after every slot gives the same word as one reduction at the end |
| Avr.WordBytes | src/main.c:149 | `a \| (b << 8)` and the split into low and high byte are inverse |
| Control.Input | src/main.c:28-36 | out of 800..2200: value 0 and the channel disarmed; unarmed and outside 1450..1550: value 0 and still unarmed; otherwise armed with the width and value t - 1500; the word is non-zero exactly in the accepted case; the value lies in -700..700 and is non-zero only when armed |
| Control.ArmedByStep | src/main.c:28-36 | one more pulse leaves the channel armed exactly when it is in range and it is neutral or the channel was already armed |
| Control.ArmedIffNeutralSinceDropout | src/main.c:28-36 | over any pulse train, the channel is armed at the end exactly when it was armed at the start with no dropout since, or some neutral pulse came after the last dropout |
| Control.MotionNeedsNeutral | src/main.c:28-36 | a pulse train produces a non-zero command only if a neutral pulse came after the last dropout, or the channel was armed at the start with no dropout since |
| Control.Width | src/main.c:108-124 | `adjust(t - t1)`: the fall timestamp is the rise timestamp advanced by the width modulo 2^16; under CLK_16MHZ by twice the width, give or take the dropped half tick, and the width stays below 0x8000 |
| Control.WidthMeasuresElapsed | src/main.c:108-124 | the width `adjust(t - t1)` is the elapsed timer count (halved under CLK_16MHZ) even when the 16-bit timer wrapped between rise and fall |
| Control.Output | src/main.c:38-44 | forward iff t > 50, reverse iff t < -50, never both; duty 0 exactly for -50 <= t < 50; duty(PWM_MIN) + abs(t) - 50 for 50 <= abs(t) <= 500 except t = -50; duty(PWM_MAX) above 500; never above duty(PWM_MAX) |
| Control.OutputMonotone | src/main.c:38-44 | the duty never decreases as the command moves away from zero on either side |
| Control.OutputMirror | src/main.c:38-44 | away from abs(t) = 50, negating the command keeps the duty and swaps the direction lines |
| Control.OutputDeadbandEdge | src/main.c:38-44 | +50 gives the minimum duty with both lines off, -50 stops, +51 drives forward |
| Control.Duty | src/main.c:26 | the `duty` macro in 16-bit unsigned arithmetic: five timer counts per percent while `450U * x` does not overflow, and never above 0xFFFF / 90 |
| Control.DutyLimits | src/main.c:26 | with PWM_MIN 10 and PWM_MAX 100 the duty range is 50..500 and the linear segment reaches the clamp exactly at 500 |
| Control.Mix | src/main.c:50-57 | independent: the channel values as they are; differential: the sum and difference, so both channels can be recovered; both stay in -1400..1400, inside `int16_t` |
| Control.Commit | src/main.c:50-57 | each motor gets `output` of its mixed command; no motor has both direction lines on; no duty exceeds duty(PWM_MAX); both motors stop when both channels are 0 |
| Ibus.RxStep | src/main.c:138-160 | a 0x20 0x40 pair resynchronises from any state; while searching a byte only moves the window; the counter stays within 30; a slot event carries a number 1..14 and the little-endian word and takes both bytes off the checksum; the frame end compares the checksum and returns to searching |
| Ibus.RxRun | src/main.c:138-160 | the decoder over a byte stream emits exactly one event per byte |
| Ibus.Checksum | src/main.c:141-157 | the i-BUS checksum of a frame: it and the 30 bytes before it add up to 0xFFFF modulo 2^16 |
| Ibus.ChecksumFromSeed | src/main.c:145 | starting from 0xff9f is the same as 0xFFFF less the two header bytes |
| Ibus.SlotLowByte | src/main.c:148 | the first byte of a slot only advances the counter to an odd position |
| Ibus.SlotHighByte | src/main.c:148-159 | the second byte of a slot emits that slot, numbered by the counter, and subtracts both bytes from the checksum |
| Ibus.SlotDecoded | src/main.c:148-159 | one slot decodes as a quiet step followed by its slot event |
| Ibus.AfterSlotsState | src/main.c:158-159 | reading slots advances the counter by two per slot and takes all their bytes off the checksum modulo 2^16 |
| Ibus.SlotsDecoded | src/main.c:148-159 | a run of slots with no header pair inside decodes to its slot events, numbered on from the counter |
| Ibus.ChecksumRead | src/main.c:148-157 | the two checksum bytes give one quiet step and a frame end that accepts exactly when the accumulator equals the word; the decoder is searching afterwards |
| Ibus.FrameDecoded | src/main.c:138-160 | when no 0x20 0x40 pair occurs inside the frame (always so for slots below 0x2000 and a checksum field whose high byte is not 0x40, see `ServoBytesHaveNoMarker`): a frame of 14 slots read from any state gives sync, the 14 slot events in order, and a frame end that accepts exactly when the checksum field equals the i-BUS checksum; the decoder is searching afterwards |
| Ibus.Dispatch | src/main.c:93-106 | slot IBUS_CH1 goes through `input` into channel 1, slot IBUS_CH2 into channel 2; every other slot changes nothing |
| Ibus.ApplyEventsAppend | src/main.c:138-160 | the effect of two event runs is the effect of the first followed by the second; update counts add up |
| Ibus.SlotsRouted | src/main.c:93-106 | a run of slots writes each mapped channel once, from its own slot if the run covers it, and never runs the update cycle |
| Ibus.FrameEffect | src/main.c:138-160 | when no 0x20 0x40 pair occurs inside the frame (always so for slots below 0x2000 and a checksum field whose high byte is not 0x40, see `ServoBytesHaveNoMarker`): a frame writes both mapped channels through `input` whether or not its checksum matches, and runs the update cycle once for a match and never otherwise |
| Ibus.SumBytesUpdate | src/main.c:159 | replacing one slot changes the byte sum by the difference of the two slots' byte sums |
| Ibus.WrapDistinct | src/main.c:159 | a change smaller than 2^16 survives the 16-bit reduction |
| Ibus.SlotErrorDetected | src/main.c:150-151 | a slot whose byte sum changed always changes the checksum (`CorruptedFrameRejected` turns this into a rejected frame) |
| Ibus.CorruptedFrameRejected | src/main.c:148-159 | when no 0x20 0x40 pair occurs inside the frame (always so for slots below 0x2000 and a checksum field whose high byte is not 0x40, see `ServoBytesHaveNoMarker`): a frame with one slot's byte sum changed, arriving with the sent frame's checksum, still writes both mapped channels from the corrupted slots and never runs the update cycle |
| Ibus.OneByteChangesSum | src/main.c:159 | changing exactly one byte of a slot, such as by a single flipped bit, changes its byte sum |
| Ibus.ServoBytesHaveNoMarker | src/main.c:143 | after a byte other than 0x20, slots below 0x2000 followed by a checksum whose high byte is not 0x40 contain no header pair |
| Ibus.ServoSumBound | src/main.c:158-159 | the bytes of slots below 0x2000 sum to at most 286 per slot |
| Ibus.ServoFrameAccepted | src/main.c:138-160 | a frame of servo values with the correct checksum is decoded in full, writes both mapped channels and runs exactly one update cycle |
| Status.Prescaler | src/main.c:162-169 | an overflow acts exactly when the count has reached 3 (6 under CLK_16MHZ); acting resets the count to 0; the count stays within its bound |
| Status.CountUp | src/main.c:164-168 | below the bound every overflow only increments the count |
| Status.CountAfterSplit | src/main.c:164-169 | the count and the acting overflows after k + 1 overflows follow from those after k |
| Status.PrescalerPeriod | src/main.c:164-169 | from a reset count, one overflow in every 4 (7 under CLK_16MHZ) acts, and the count is back at 0 after it |
| Status.ArmedCount | src/main.c:171 | `!!u1 + !!u2` is at most 2 and is 0 exactly when neither channel is armed |
| Status.LedNext | src/main.c:171-172 | an expired countdown reloads 2 * armed + 1 and leaves the LED; a running one goes down by one without reading the armed count; the LED toggles exactly when the countdown does not reach 0 |
| Status.LedBounded | src/main.c:171-172 | the countdown never exceeds 5 |
| Status.Countdown | src/main.c:172 | a countdown from m reaches 0 after m acting overflows, toggling the LED m - 1 times and never reloading |
| Status.BlinkCycle | src/main.c:171-172 | with c channels armed, one cycle takes 2c + 2 acting overflows, toggles the LED exactly 2c times and leaves it at its starting level |
| Firmware.Controller.constructor | src/main.c:220-226 | power-on state: channels zero and unarmed, motors stopped, decoder searching, both capture units on the rising edge with their interrupts enabled; the zero-initialised timestamps, tick flag, prescaler count and LED countdown, with the LED off, which is where `PrescalerPeriod` and `BlinkCycle` start |
| Firmware.Controller.Update | src/main.c:50-91 | the motors get exactly `Commit` of the current channels, the watchdog is reset exactly once, nothing else changes |
| Firmware.Controller.Channel | src/main.c:93-106 | the channels become `Dispatch` of the slot number and word; nothing else changes |
| Firmware.Controller.Timer1Capture | src/main.c:114-124 | the edge select flips; a rising edge only stores the timestamp; a falling edge stores `input` of the measured width into channel 1, then commits the motors and resets the watchdog once |
| Firmware.Controller.Timer3Capture | src/main.c:126-136 | the same for timer 3 and channel 2 |
| Firmware.Controller.CaptureEvent1 | src/main.c:153-155 | a timer-1 capture runs the handler only while its interrupt is enabled: then it does exactly what `Timer1Capture` states (edge flip; timestamp on a rising edge; `input` of the width, commit and one watchdog reset on a falling edge); with it disabled, and in particular after the hand-over to i-BUS, it changes nothing |
| Firmware.Controller.CaptureEvent3 | src/main.c:153-155 | the same for timer 3, with `Timer3Capture` when enabled |
| Firmware.Controller.RxDecode | src/main.c:138-160 | the static variables `a`, `b`, `n`, `u` step exactly as `RxStep` and the event it reports is the one `RxStep` emits; the counter stays within 30 |
| Firmware.Controller.UsartRx | src/main.c:138-160 | the decoder steps as `RxStep`; a slot event writes the channels as `Dispatch`; an accepted frame end commits the motors, resets the watchdog once and leaves only the overflow interrupt on; every other byte leaves the motors, the watchdog and the interrupt masks alone; the hand-over is never undone |
| Firmware.Controller.Receive | src/main.c:138-160 | the receive handler run on each byte of a stream leaves the decoder at `RxRun`, the channels at `ApplyEvents` of its events and the watchdog count raised by `Updates` of them; an accepted frame anywhere hands over for good; a stream with no accepted frame end leaves the motors and both interrupt masks as they were; a stream ending on an accepted frame leaves the motors committed to the final channels |
| Firmware.Controller.ReceiveServoFrame | src/main.c:138-160 | a correct frame of servo values received while the decoder searches writes both mapped channels through `input`, runs the update cycle exactly once, commits the motors, hands over to i-BUS and leaves the decoder searching |
| Firmware.Controller.Timer1Overflow | src/main.c:162-173 | the count follows `Prescaler`; an acting overflow sets `tick` and advances the LED countdown as `LedNext` with the number of armed channels; other overflows change only the count |

## Left out

- The register set-up in `main` (clock prescaler, OSCCAL, GPIO directions and pull-ups, PWM timer 4 and USART set-up) is hardware configuration. Only the capture registers that the handlers read and write are modelled, with their initial values.
- The register writes that commit an update cycle (`TC4H`, `OCR4B`, `OCR4D` and the direction pins) and the `*_INV` and `PWM_INV` polarity options are hardware detail. The committed state is the logical duty and the two direction lines of each motor.
- The watchdog's timeout and the reset it causes are hardware behaviour. The model keeps only a count of watchdog resets.
- The LED pin is a boolean level. `LED_INV` is not modelled.
- `uart_putchar`, the `printf` diagnostics loop, its `cli`/`sei` snapshot and the clearing of `tick` are debug I/O. The main loop's sleep is not modelled either.
- Interrupt nesting and preemption are not modelled. AVR handlers run with interrupts masked, so each handler is one atomic call.
- The hardware register values `ICR1`, `ICR3` and `UDR1` are parameters of the handler methods.
- Control.Output: requires its argument not to be -32768. Negating that value overflows a 16-bit `int`, which is undefined behaviour in C. The mixer only ever passes values in -1400..1400.
- Avr.Word: `a | (b << 8)` shifts a promoted 16-bit `int`, and for a high byte of 0x80 or more the result does not fit, which ISO C leaves undefined. The model takes avr-gcc's defined result, the bit pattern `lo + 256 * hi`.
- Firmware.Controller.UsartRx: `u -= a + b` is applied before `channel` is called, not after it. `channel` neither reads nor writes the decoder's variables, so the end state is the same.
- Firmware.Controller.CaptureEvent1: the hardware gating of the capture interrupt by `ICIE` is written out as a guard around the handler. Capture events that the hardware drops while the interrupt is disabled are not modelled otherwise.
