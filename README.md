# TM1638 servo pulse generator: a verified model

This project models the firmware of an AVR servo pulse generator in Dafny. It covers five parts.

- **The TM1638 LED/key controller driver** (`tm1638.dfy`, module `TM1638`). One SPI bus is
  shared by three commands: write the display configuration, read the four key bytes and
  write the sixteen segment bytes. Requests are queued as bits of `pending_command`. The SPI
  transfer-complete interrupt moves the active command on by one byte per call. When a
  command ends, the interrupt raises STB and starts the pending command with the lowest bit.
  - The driver is the class `Tm1638`. Its fields are the C file's static variables and the
    hardware bits it drives: the busy bit of GPIOR0, SPIE, STB and the MOSI direction.
  - A ghost log `bus` records every signal put on the wire.
  - Each method is proved to do what a function on an `Engine` value says. The protocol
    lemmas are stated about those functions: priority, coalescing and release points.
    Whole transfers are proved too: the key read, the segment write and the config write.
  - The framebuffer of write_digit is proved bit by bit.
- **The `bibase` routine** (`bibase.dfy`, module `BiBase`). It is an in-place shift-and-add
  converter that folds one byte into a little-endian array of base-b digits. It is modelled
  as the two nested loops of its assembly over an `array`. It is proved to leave digits
  worth 256 times the old value plus the byte, each still below b.
- **The application of main.c** (`servo.dfy`, module `Servo`). This covers key edges, the
  eight uint16 adjustments and the clamp of the pulse width, the four display digits and
  the pulse-to-count interpolation of set_servo. The class `ServoApp` holds the static
  state of main.c.
- **The macros of project.h** (`project.dfy`, module `Project`). These are the three
  rounding divisions, min/max, limit_range and ARRAY_SIZE.
- **The macros and the timer event record of timer.h** (`timer.dfy`, module `Timer`). These
  are the tick conversions, the delay limits and the self-linked "expired" event.

`stdint.dfy` (module `StdInt`) holds the C integer types as subset types of `int`. C's
wrap-around is written out explicitly wherever the source relies on it:
- `% 0x1_0000` for uint16;
- `% 0x1_0000_0000` for the 32-bit tick arithmetic;
- 8-bit `bv8` arithmetic for the command masks.

Two details of the driver shape the model:
- A request of the kind that is active sets its pending bit again, because the bit is
  cleared when the kind starts (tm1638.c:90, 113, 137). That queues one more run of it, as
  `RequestOfActiveQueuesAgain` states.
- `keys_buffer` is filled one byte per interrupt (tm1638.c:201, 206), so no consistent
  snapshot of the key word is claimed.

The header tm1638.h declares `TM1638_init` with one parameter (tm1638.h:30), but the
definition takes two (tm1638.c:361). The model follows the definition.

## Model

| member | source | states |
|---|---|---|
| Project.UdivFloor | project.h:22 | q·b ≤ a < q·b + b: the quotient truncated towards zero |
| Project.UdivRound | project.h:23 | a + b/2 lies in [q·b, q·b + b), so a is within b/2 of q·b: rounded to nearest |
| Project.UdivCeiling | project.h:24 | q·b ≥ a, and q − 1 falls short: the least such quotient |
| Project.Min | project.h:26-30 | the result is one of the two arguments and at most both |
| Project.Max | project.h:32-36 | the result is one of the two arguments and at least both |
| Project.MinAtMostMax | project.h:26-36 | min(a,b) ≤ max(a,b) for all a, b |
| Project.LimitRange | project.h:38-39 | in [lo, hi] when lo ≤ hi; n itself when n is in range; lo below the range, hi above it; hi when lo > hi |
| Project.ArraySize | project.h:41 | the element count times the element size is the total size |
| Timer.TbtSize | timer.h:47-55 | 16 bits exactly for timer 1, otherwise 8 |
| Timer.Pow2Values | timer.h:57 | 2^7 = 0x80 and 2^15 = 0x8000 |
| Timer.TbtimerMaxDelay | timer.h:57-58 | the limit is positive and 2 below 2^(TBTSIZE−1) |
| Timer.DelayLimits | timer.h:41-58 | 126 counts for timer 0, 0x7FFE for timer 1, and 0 < TIMEBASE_MAX_DELAY < 2^31 − 1 |
| Timer.TbticksFromMs | timer.h:110-113 | TBTICKS_FROM_MS with the 32-bit product and sum wrapping; its rounding is stated by MsRoundsUp and MsConversionExact |
| Timer.MsRoundsUp | timer.h:110-113 | without 32-bit wrap, TBTICKS_FROM_MS(m) ticks cover the cycles of m ms and one tick less does not |
| Timer.CeilingNoWrap | timer.h:112-121 | below 2^32 the wrapped product and sum give exactly UDIV_CEILING |
| Timer.MsConversionExact | timer.h:112-113 | for the 8-bit millisecond counts of TM1638_init the conversion never wraps and is the exact ceiling |
| Timer.TbticksFromUs | timer.h:118-121 | without 32-bit wrap, the ticks cover the cycles of u µs and one tick less does not |
| Timer.UsFromTbticks | timer.h:124 | (256 / MHz, truncated first) · t when that does not wrap |
| Timer.UsRoundTrip | timer.h:118-124 | when the MHz divide the prescaler, µs → ticks → µs lands in [u, u + one tick) |
| Timer.UsRoundTripTruncatesAt20MHz | timer.h:124 | at 20 MHz, 1000 µs is 79 ticks and comes back as 948 µs: the truncated tick length loses time |
| Timer.TimerEvent.constructor | tm1638.c:350-358 | a static event starts self-linked with tbtick 0 and its handler, expired and not active |
| Timer.TimerEvent.InitTimerEvent | timer.h:103-108 | next is the event itself, tbtick and handler are set, and the event is expired and not active |
| Timer.TimerEvent.Expired | timer.h:129 | timer_is_expired: the event points to itself; see ActiveIffNotExpired |
| Timer.TimerEvent.Active | timer.h:130 | timer_is_active, the negation of Expired; see ActiveIffNotExpired |
| Timer.ActiveIffNotExpired | timer.h:129-130 | an event linked to another event is active, and active is exactly not expired |
| BiBase.DigitStep | bibase.c:42-47 | rol, add nbase, sub on no carry; its meaning is stated by DigitStepValue |
| BiBase.DigitPass | bibase.c:42-53 | the digit loop rewrites every digit and only those, threading the carry |
| BiBase.DigitPassAppend | bibase.c:42-53 | one more digit extends the output by one DigitStep fed by the carry so far |
| BiBase.BitPass | bibase.c:34-58 | one bit pass keeps the digits and may add one top digit |
| BiBase.Accumulate | bibase.c:27-65 | the bit loop, one BitPass per bit of r22, most significant first; stated by AccumulateValue and AccumulateLength |
| BiBase.Converted | bibase.c:23-74 | the digits one call leaves; stated by ConvertedValue and ConvertedLength |
| BiBase.AccumulateStep | bibase.c:27-65 | one pass with the top bit of r22 and r22 doubled leaves the remaining passes with the same result |
| BiBase.BitPassWithin | bibase.c:55-65 | the digit count after one pass is at most the final count |
| BiBase.AccumulateLength | bibase.c:55-65 | k passes grow the digit count by at most k and never shrink it |
| BiBase.ConvertedLength | bibase.c:27-58 | one call grows the count by at most 8 |
| BiBase.DigitStepValue | bibase.c:42-47 | for a base-b digit, the stored digit is below b and digit + carry·b = 2·digit + carry in |
| BiBase.DigitPassValue | bibase.c:42-53 | the digit loop doubles the value and adds the carry in; the carry out is worth b^n |
| BiBase.ValueAppend | bibase.c:55-58 | a new top digit adds its weight b^n |
| BiBase.BitPassValue | bibase.c:34-58 | one pass doubles the value and adds the bit shifted out, all digits below b |
| BiBase.ShiftStep | bibase.c:34 | lsl moves the top bit of r22 into the number: 256·v + r22 doubles |
| BiBase.ShiftedWeight | bibase.c:27-65 | k shifts multiply 256·v + r22 by 2^k |
| BiBase.ShiftedByte | bibase.c:27-65 | eight shifts put the whole byte below 256·v |
| BiBase.AccumulateValue | bibase.c:27-65 | k passes do to the value what k shifts do to a plain number, all digits below b |
| BiBase.ConvertedValue | bibase.c:23-74 | for nbase = 256 − b, 2 ≤ b ≤ 128, digits below b: the new digits are worth old·256 + bi and stay below b |
| BiBase.DigitLoop | bibase.c:42-53 | str[0..n) becomes the digit loop's output through Z+, the carry is returned, nothing beyond n changes |
| BiBase.BitRound | bibase.c:32-65 | r22 doubles, str[0..n') becomes one bit pass, a leftover carry stores 1 at str[n] and bumps the count |
| BiBase.BiBase | bibase.c:23-74 | the returned count and str[0..count) are the converted digits; nothing at or beyond the count is touched |
| TM1638.LowestBit | tm1638.c:246 | p & ~(p−1) is one set bit of p, zero only for p = 0, and no lower bit of p is set |
| TM1638.WithKind | tm1638.c:267-292 | setting a command bit keeps the mask to command bits and is idempotent |
| TM1638.LowestKind | tm1638.c:246-247 | the lowest bit is config, else keys, else segments, else IDLE, and clearing it leaves command bits |
| TM1638.Started | tm1638.c:85-154 | the three start routines; stated by RequestWhenFree and RequestWhileBusy |
| TM1638.KeysStep | tm1638.c:193-211 | the READ_KEYS case; stated by KeysOpen, KeysByte and KeysEnd |
| TM1638.SegmentsStep | tm1638.c:213-231 | the WRITE_SEGMENTS case; stated by SegmentsOpen, SegmentsByte and SegmentsEnd |
| TM1638.Requested | tm1638.c:267-292 | a request keeps the driver in a state it can be in between two steps |
| TM1638.Stepped | tm1638.c:187-238 | the switch and state++ keep the queue, the config and the segments; the bus stays held or is released cleanly |
| TM1638.Dispatched | tm1638.c:240-263 | the tail of the interrupt leaves a consistent driver state |
| TM1638.AfterIsr | tm1638.c:185-264 | one interrupt keeps the driver in a consistent state |
| TM1638.RunIsr | tm1638.c:185-264 | a run of interrupts keeps the driver in a consistent state |
| TM1638.Sends | tm1638.c:221-225 | one Send per byte, in order |
| TM1638.DispatchPriority | tm1638.c:240-263 | completion starts config before keys before segments, clears exactly that bit, and with nothing pending leaves STB high and SPIE off |
| TM1638.RequestWhileBusy | tm1638.c:267-292 | while busy a request only ORs its bit into pending |
| TM1638.RequestsCoalesce | tm1638.c:267-292 | two requests of one kind while busy leave the same state as one |
| TM1638.RequestOfActiveQueuesAgain | tm1638.c:285-290 | re-requesting the active kind queues one more run of it |
| TM1638.RequestWhenFree | tm1638.c:85-154 | on a free bus a request takes the bus, leaves nothing pending, sets state 0 and sends STB low and the first byte |
| TM1638.ReleasePoints | tm1638.c:189-238 | the bus is released exactly at the first config interrupt, key state 4 and segment state 17; state goes up by one |
| TM1638.LastByteIdle | tm1638.c:240-247 | a last byte with nothing pending raises STB, disables SPIE and goes IDLE |
| TM1638.KeysOpen | tm1638.c:194-198 | key state 0 turns MOSI to input and clocks a dummy |
| TM1638.KeysByte | tm1638.c:199-203 | key states 1-3 store the received byte at keys[state−1] and clock another dummy |
| TM1638.KeysEnd | tm1638.c:204-210 | key state 4 stores keys[3], turns MOSI back and releases the bus |
| TM1638.SegmentsOpen | tm1638.c:214-222 | segment state 0 pulses STB high and low and sends 0xC0 |
| TM1638.SegmentsByte | tm1638.c:223-226 | segment states 1-16 send segments[state−1] |
| TM1638.SegmentsEnd | tm1638.c:227-230 | segment state 17 releases the bus |
| TM1638.ConfigEnd | tm1638.c:189-191 | a config write releases the bus at its first interrupt |
| TM1638.WriteConfigTransfer | tm1638.c:85-106 | a config write alone sends STB low, _config, and one interrupt later STB high |
| TM1638.KeysTail | tm1638.c:199-210 | from state s the key read clocks 4 − s dummies, stores the bytes in order and releases the bus |
| TM1638.KeysLast | tm1638.c:204-247 | the interrupt storing the last key byte ends the read |
| TM1638.ReadKeysTransfer | tm1638.c:108-130 | a key read alone sends 0x42, MOSI to input, four 0xFF, MOSI back, STB high; keys[0..3] are bytes 1-4 in arrival order |
| TM1638.SegmentsTail | tm1638.c:223-230 | from state s the segment write sends the remaining buffer bytes in order and releases the bus |
| TM1638.WriteSegmentsTransfer | tm1638.c:132-154 | a segment write alone sends 0x40, STB high then low, 0xC0 and segments[0..15] in order |
| TM1638.EnableBits | tm1638.c:301-302 | bit 0x08 follows enable; every other bit is kept |
| TM1638.BrightnessBits | tm1638.c:309-310 | bits 0x07 become brightness & 7; every other bit is kept |
| TM1638.ConfigUpdatesKeepCommand | tm1638.c:299-313 | both updates keep the 0x80 command bit; the initial _config is 0x8B: on, brightness 3 |
| TM1638.PlaneOfBytes | tm1638.c:466 | splitting a 16-bit plane into its bytes and reading them back gives the plane |
| TM1638.BytesOfPlane | tm1638.c:466 | reading two bytes as a plane and splitting it gives the bytes |
| TM1638.MaskHalf | tm1638.c:452 | digit masks 0-7 lie in the low byte of a plane, 8-15 in the high byte |
| TM1638.WithBitBits | tm1638.c:468-475 | setting or clearing by digit_mask makes the mask bits follow the glyph bit and keeps the rest |
| TM1638.PlaneBits | tm1638.c:466-475 | the same, across the byte split and rejoin of segments_buffer |
| TM1638.WithDigitUpTo | tm1638.c:464-478 | the buffer stays 16 bytes |
| TM1638.WithDigit | tm1638.c:464-478 | the buffer stays 16 bytes |
| TM1638.WithDigitUpToNext | tm1638.c:464-478 | one more pass rewrites plane p from bit p of the glyph |
| TM1638.WithDigitUpToAt | tm1638.c:464-478 | planes below p are rewritten; the others are unchanged |
| TM1638.WithDigitAt | tm1638.c:464-478 | the two bytes of each plane after write_digit |
| TM1638.WithDigitPlaneBit | tm1638.c:448-480 | bit d of every plane s is bit s of the glyph |
| TM1638.WithDigitPlaneRest | tm1638.c:448-480 | every other bit of every plane is unchanged |
| TM1638.WithDigitBytes | tm1638.c:452-466 | digits 0-7 never touch the high bytes, digits 8-9 never the low bytes |
| TM1638.Glyph | tm1638.c:455-462 | _digit_segments[value], or blank outside 0..15; stated by GlyphExamples |
| TM1638.GlyphExamples | tm1638.c:428-462 | value 7 lights exactly segments a, b, c; an out-of-range value lights none |
| TM1638.ShrZero | tm1638.c:477 | a blank glyph shifts to blank |
| TM1638.PaintStep | tm1638.c:466-477 | one loop pass takes the buffer from p planes done to p + 1, and segments >>= 1 keeps pace |
| TM1638.InitOutcome | tm1638.c:361-374 | uninterrupted init on a free bus puts the config write on the wire, queues the segment write and clears the buffer |
| TM1638.InitInterrupted | tm1638.c:361-374 | with the config interrupt inside the clearing loop, the config write completes and the segment write starts at once, nothing pending |
| TM1638.IntervalsKept | tm1638.c:319-320 | requests and interrupts never change keys_update_interval or segments_update_interval |
| TM1638.RunIsrKeepsIntervals | tm1638.c:319-320 | nor does any run of interrupts |
| TM1638.Tm1638.constructor | tm1638.c:62-82 | the static initial state: idle, default _config 0x8B, zeroed buffers, self-linked events with their handlers and tbtick 0 |
| TM1638.Tm1638.Start | tm1638.c:85-154 | the three start routines do exactly Started; the update intervals are part of the driver state and stay as they were |
| TM1638.Tm1638.Request | tm1638.c:267-292 | a request sets the pending bit and starts it: exactly Requested, invariant kept; the update intervals are part of the driver state and stay as they were |
| TM1638.Tm1638.KeysCase | tm1638.c:193-211 | the READ_KEYS case, writing keys_buffer in place through the cursor; the update intervals are part of the driver state and stay as they were |
| TM1638.Tm1638.SegmentsCase | tm1638.c:213-231 | the WRITE_SEGMENTS case, reading segments_buffer through the cursor; the update intervals are part of the driver state and stay as they were |
| TM1638.Tm1638.Dispatch | tm1638.c:240-263 | the interrupt tail: release, lowest pending bit, start it; the update intervals are part of the driver state and stay as they were |
| TM1638.Tm1638.Isr | tm1638.c:185-264 | one interrupt is exactly AfterIsr on the driver state, invariant kept; the update intervals are part of the driver state and stay as they were |
| TM1638.Tm1638.GetKeys | tm1638.c:294-297 | keys_buffer read as a 32-bit word; its bytes are stated by GetKeysBytes |
| TM1638.Tm1638.GetKeysBytes | tm1638.c:294-297 | byte i of the key word is keys_buffer[i], least significant first |
| TM1638.Tm1638.Enable | tm1638.c:299-305 | _config updated by EnableBits, then a config write requested; the update intervals are part of the driver state and stay as they were |
| TM1638.Tm1638.Brightness | tm1638.c:307-313 | _config updated by BrightnessBits, then a config write requested; the update intervals are part of the driver state and stay as they were |
| TM1638.Tm1638.WriteDigit | tm1638.c:448-480 | digit > 9 leaves the buffer alone; otherwise the buffer becomes WithDigit for the glyph, blank outside 0..15 |
| TM1638.Tm1638.PaintDigit | tm1638.c:464-478 | the plane loop turns the buffer into WithDigit of its old contents |
| TM1638.Tm1638.UpdatePlane | tm1638.c:466-475 | one plane's word rewritten in place, the other bytes kept |
| TM1638.Tm1638.UpdateHandler | tm1638.c:322-348 | queue and start the kind, advance tbtick by the interval mod 2^32, return 1; the update intervals are part of the driver state and stay as they were |
| TM1638.Tm1638.KeysUpdateHandler | tm1638.c:322-334 | a key read requested, the intervals kept, the event advanced by keys_update_interval with its link and handler kept, reschedule |
| TM1638.Tm1638.SegmentsUpdateHandler | tm1638.c:336-348 | a segment write requested, the intervals kept, the event advanced by segments_update_interval with its link and handler kept, reschedule |
| TM1638.Tm1638.ClearSegments | tm1638.c:369-372 | the loop zeroes all 16 bytes and nothing else |
| TM1638.Tm1638.Init | tm1638.c:361-396 | config write requested, buffer cleared, segment write requested; both intervals from TBTICKS_FROM_MS and nothing else of the driver changed; an event is scheduled only for a nonzero period, display offset by half a key period; each event keeps its link and handler |
| TM1638.Tm1638.Restart | tm1638.c:363-374 | the reset, config write, clear and segment write of init; the update intervals are part of the driver state and stay as they were |
| TM1638.Tm1638.ScheduleUpdates | tm1638.c:376-395 | the intervals from TBTICKS_FROM_MS and the first expiry of each scheduled event, each event keeping its link and handler; nothing else of the driver state changes |
| Servo.RisingEdges | main.c:52 | (last ^ now) & now is exactly the keys down now and up before |
| Servo.RisingEdgesPartition | main.c:46-53 | new presses were not down before; with the held keys they make the new word |
| Servo.Delta | main.c:74-112 | the eight adjustments add up to at most ±1111 |
| Servo.StepWraps | main.c:74-112 | one uint16 step on a wrapped value wraps the sum |
| Servo.StepChain | main.c:74-112 | eight wrapping steps, any keys, add their shares and wrap once |
| Servo.Steps | main.c:74-112 | the eight conditional uint16 adjustments in program order; stated by StepsSum |
| Servo.Adjusted | main.c:74-112 | the width plus the total adjustment, wrapped once to uint16; stated by NoWrap and WrapClampsToMax |
| Servo.StepsSum | main.c:74-112 | the adjustments in program order equal the total added once, in uint16 |
| Servo.NextPulse | main.c:74-114 | the adjusted width passed through limit_range(500, _, 2500); stated by NextPulseInRange, NoWrap and WrapClampsToMax |
| Servo.NextPulseInRange | main.c:114 | after the clamp the width is in [500, 2500], whatever the keys |
| Servo.NoWrap | main.c:74-114 | from a legal width a total that stays ≥ 0 does not wrap and clamps normally |
| Servo.WrapClampsToMax | main.c:74-114 | from a legal width a total below 0 wraps above 2500 and clamps to 2500, not 500 |
| Servo.WrapExample | main.c:74-114 | 500 µs minus 1000 gives 2500 µs |
| Servo.DigitValue | main.c:116-143 | each digit value is −1 or 0..9; −1 exactly when position k ≥ 1 exceeds the width |
| Servo.DigitValues | main.c:116-143 | the four values are those update_servo writes to positions 3, 2, 1, 0 |
| Servo.DigitsRecombine | main.c:116-143 | below 10000 the shown digits make up the width, and blanks are leading |
| Servo.Display | main.c:116-143 | the buffer stays 16 bytes |
| Servo.PulseCounts | main.c:61-63 | pulse_counts with the 16- and 32-bit C widths; stated by CountsInterpolate |
| Servo.Compare | main.c:65 | OCR1A = 19999 − pulse_counts in 16-bit arithmetic; stated by CountsInterpolate |
| Servo.CountsInterpolate | main.c:56-66 | for 500..2500 µs, pulse_counts = 2·p, in [1000, 5000], and OCR1A = 19999 − 2·p |
| Servo.WrapAdd | main.c:74-112 | wrapping after each addition equals wrapping once |
| Servo.ServoApp.constructor | main.c:41-44 | buttons 0 and pulse_us (2500 + 500) / 2 = 1500 |
| Servo.ServoApp.ProcessButtons | main.c:46-53 | stores the new key word and returns its rising edges, nothing else changes |
| Servo.ServoApp.Adjust | main.c:74-112 | the eight conditional uint16 adjustments give Adjusted |
| Servo.ServoApp.ShowPulse | main.c:116-143 | the four write_digit calls turn the buffer into Display of the width |
| Servo.ServoApp.SetServo | main.c:56-66 | OCR1A becomes Compare of the width, the other fields kept |
| Servo.ServoApp.UpdateServo | main.c:69-146 | new width = clamp of the adjusted width, in [500, 2500], displayed, and OCR1A = 19999 − 2·width |

## Left out

- Interrupt preemption: each request and each interrupt is one atomic step, as the
  ATOMIC_BLOCK (tm1638.c:269-291) and the masked ISR make them. The two timer handlers
  (tm1638.c:322-348) have no ATOMIC_BLOCK; they are assumed to be called by the scheduler
  with interrupts masked, which its source, not part of this model, would have to ensure.
  The ATOMIC_BLOCK machinery and the interrupt vectors are not modelled.
- TM1638.Tm1638.WriteDigit, TM1638.Tm1638.PaintDigit, TM1638.Tm1638.ClearSegments,
  TM1638.Tm1638.Enable and TM1638.Tm1638.Brightness: each is taken as one uninterrupted step,
  although the firmware runs them with interrupts on while the ISR (tm1638.c:185-264) reads
  the same data. Two effects of that are not modelled. First, write_digit rewrites
  segments_buffer one 16-bit plane at a time (tm1638.c:464-478), so a segment write in
  flight can send a frame where the digit is only partly painted. Second, enable and
  brightness update _config (tm1638.c:298-312) outside the ATOMIC_BLOCK of the request. If
  a config write already pending starts between that update and the request, it sends the
  new value, and the request then queues a second config write.
- TM1638.Tm1638.Init: taken as one uninterrupted step, although the firmware calls
  TM1638_init with interrupts on (main.c:168-176). The SPI interrupt of the config write may
  then run during the clearing loop (tm1638.c:369-372), and the segment write starts at once
  instead of being queued. `InitOutcome` states the uninterrupted run and `InitInterrupted`
  the run with that interrupt in between; the method's contract covers only the first.
- TM1638.Tm1638.GetKeysBytes: no claim that the key word is a consistent snapshot. The
  buffer is filled one byte per interrupt and read with no critical section, so the code
  gives no such guarantee.
- Hardware: SPDR, SPCR/SPIE, GPIOR0, pinmap_dir and the STB pin macros are the fields
  `busy`, `spie`, `stbLow` and `mosiInput` plus the ghost `bus` log. The received byte is
  the `rx` parameter of `Isr`. OCR1A is the field `ocr1a`.
- `_delay_us` is not modelled: it only waits.
- `pgm_read_word` (tm1638.c:461) is a lookup of `_digit_segments[value]`. The word it reads
  is truncated to that low byte.
- The scheduler is not part of this model: `schedule_timer_event`, `cancel_timer_event`,
  `tbtick_update`, `tbtick_delay`, `tbtimer_delay`, `tbtick_init`, and `tbtimer_get` /
  `tbtick_get`, which read the hardware counters. TM1638.Tm1638.Init reports through two
  booleans which events it hands to the scheduler. The handlers' return value 1 is the
  request to reschedule. An event's handler is a number standing for the function pointer.
- F_CPU is a build flag. It is the parameter `fCpu`. The `#if` guards of the conversion
  macros become preconditions on it.
- TM1638.Tm1638.Init: requires a free bus. The firmware calls it once at boot, before any
  transfer. On a busy bus the reset of GPIOR0 would abandon a transfer half way, and that
  is not modelled.
- `__TM1638_command_dispatch` (tm1638.c:156-182) is never called. Its logic is the same as
  the ISR tail, which is modelled once as `Dispatched` / `Tm1638.Dispatch`.
- main.c glue is not modelled: `servo_init`, `main`, the endless loop and the PWM and timer
  register setup (main.c:148-183). The constructor of `ServoApp` sets `ocr1a` to 0, the
  register's reset value.
- Servo.ServoApp.Adjust: works on a copy of pulse_us and stores the result once. The C code
  updates the static pulse_us eight times in place. Nothing else runs in between, so the
  stored value is the same.
- BiBase.BiBase: requires the final digit count to stay below 256 and the array to have
  room for it. The 8-bit wrap of r24 beyond 255 digits, and writes past the caller's
  buffer, are not modelled.
- Timer.TbticksFromMs, Timer.TbticksFromUs: the 32-bit wrap of the product and sum is
  modelled. The rounding-up property is stated only where nothing wraps.
- The console and timer constructor declarations of project.h (project.h:93-103) and the
  prototypes of tm1638.h are declarations without behaviour.
