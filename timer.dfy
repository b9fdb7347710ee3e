/** The timebase header: the tick-unit conversions, the delay limits of the timebase
    counter and timer, and the timer event record whose self-link means "not scheduled".
    The scheduler itself (schedule_timer_event, cancel_timer_event, tbtick_update,
    tbtick_delay, tbtimer_delay, tbtick_init) is not part of this model. */
module Timer {
  import opened StdInt
  import opened Project

  /** TIMEBASE_MAX_LATENCY: half the range of the 32-bit tick counter. */
  const TimebaseMaxLatency: nat := 0x8000_0000
  /** TIMEBASE_MAX_DELAY */
  const TimebaseMaxDelay: nat := TimebaseMaxLatency - 2

  function Pow2(n: nat): (p: nat)
    ensures p >= 1
  {
    if n == 0 then 1 else 2 * Pow2(n - 1)
  }

  /** TBTSIZE: timers 0 and 2 are 8-bit counters, timer 1 a 16-bit counter; any other
      TBTIMER stops the build. */
  function TbtSize(timer: nat): (bits: nat)
    requires timer <= 2
    ensures bits == 8 || bits == 16
    ensures bits == 16 <==> timer == 1
  {
    if timer == 1 then 16 else 8
  }

  lemma Pow2Values()
    ensures Pow2(7) == 0x80 && Pow2(15) == 0x8000
  {
    assert Pow2(4) == 16 by {
      assert Pow2(1) == 2;
      assert Pow2(2) == 4;
      assert Pow2(3) == 8;
    }
    assert Pow2(7) == 128 by {
      assert Pow2(5) == 32;
      assert Pow2(6) == 64;
    }
    assert Pow2(11) == 2048 by {
      assert Pow2(8) == 256;
      assert Pow2(9) == 512;
      assert Pow2(10) == 1024;
    }
    assert Pow2(15) == 0x8000 by {
      assert Pow2(12) == 4096;
      assert Pow2(13) == 8192;
      assert Pow2(14) == 16384;
    }
  }

  /** TBTIMER_MAX_DELAY = TBTIMER_MAX_LATENCY - 2 = 2^(TBTSIZE-1) - 2. The limit stays
      below half the counter range, so it is a positive value of the signed counter type
      tbtimer_st that tbtimer_delay takes, with a margin of one count. */
  function TbtimerMaxDelay(timer: nat): (d: nat)
    requires timer <= 2
    ensures 0 < d && d + 2 == Pow2(TbtSize(timer) - 1)
  {
    Pow2Values();
    Pow2(TbtSize(timer) - 1) - 2
  }

  /** With the project's timer 0 the timer limit is 126 counts; the 32-bit timebase limit
      is a positive value of the signed tick type tbtick_st. */
  lemma DelayLimits()
    ensures TbtimerMaxDelay(Tbtimer) == 126
    ensures TbtimerMaxDelay(1) == 0x7FFE
    ensures 0 < TimebaseMaxDelay < 0x7FFF_FFFF
  {
    Pow2Values();
  }

  /** TBTICKS_FROM_MS(m): milliseconds to timebase ticks, rounded up. The macro exists only
      when F_CPU is a whole number of kHz; its product and sum are unsigned long
      (32-bit) arithmetic, and the result is cast to tbtick_t. */
  function TbticksFromMs(fCpu: uint32, m: nat): uint32
    requires fCpu % 1000 == 0
  {
    var product := ((fCpu / 1000) * m) % Modulus32;
    var sum := (product + TbtimerPrescaler - 1) % Modulus32;
    sum / TbtimerPrescaler
  }

  /** Without wrap-around, TBTICKS_FROM_MS rounds up: the ticks cover the cycles of m
      milliseconds, and one tick less would not. */
  lemma MsRoundsUp(fCpu: uint32, m: nat)
    requires fCpu % 1000 == 0
    ensures (fCpu / 1000) * m + TbtimerPrescaler - 1 < Modulus32 ==>
              TbticksFromMs(fCpu, m) * TbtimerPrescaler >= (fCpu / 1000) * m &&
              (TbticksFromMs(fCpu, m) == 0 || (TbticksFromMs(fCpu, m) - 1) * TbtimerPrescaler < (fCpu / 1000) * m)
  {
    var x := (fCpu / 1000) * m;
    if x + TbtimerPrescaler - 1 < Modulus32 {
      CeilingNoWrap(x);
      assert TbticksFromMs(fCpu, m) == UdivCeiling(x, TbtimerPrescaler);
    }
  }

  /** Below 2^32 neither the product nor the sum of the conversion macros wraps, and the
      quotient is the rounded-up one. */
  lemma CeilingNoWrap(x: nat)
    ensures x + TbtimerPrescaler - 1 < Modulus32 ==>
              (x % Modulus32 + TbtimerPrescaler - 1) % Modulus32 / TbtimerPrescaler ==
              UdivCeiling(x, TbtimerPrescaler)
  {
    if x + TbtimerPrescaler - 1 < Modulus32 {
      assert x % Modulus32 == x;
      assert (x + TbtimerPrescaler - 1) % Modulus32 == x + TbtimerPrescaler - 1;
    }
  }

  /** For the 8-bit millisecond counts that TM1638_init passes, the 32-bit product never
      wraps, so the conversion is the exact rounded-up tick count. */
  lemma MsConversionExact(fCpu: uint32, m: uint8)
    requires fCpu % 1000 == 0
    ensures TbticksFromMs(fCpu, m) == UdivCeiling((fCpu / 1000) * m, TbtimerPrescaler)
  {
    assert (fCpu / 1000) * m <= (fCpu / 1000) * 255;
    MsRoundsUp(fCpu, m);
  }

  /** TBTICKS_FROM_US(u): microseconds to timebase ticks, rounded up; exists only when
      F_CPU is a whole number of MHz. */
  function TbticksFromUs(fCpu: uint32, u: nat): (t: uint32)
    requires fCpu % 1_000_000 == 0
    ensures (fCpu / 1_000_000) * u + TbtimerPrescaler - 1 < Modulus32 ==>
              t * TbtimerPrescaler >= (fCpu / 1_000_000) * u &&
              (t == 0 || (t - 1) * TbtimerPrescaler < (fCpu / 1_000_000) * u)
  {
    var x := (fCpu / 1_000_000) * u;
    var product := x % Modulus32;
    var sum := (product + TbtimerPrescaler - 1) % Modulus32;
    CeilingNoWrap(x);
    sum / TbtimerPrescaler
  }

  /** US_FROM_TBTICKS(t) = (TBTIMER_PRESCALER / MCLOCKS_PER_US) * t: the microseconds per
      tick are truncated to an integer BEFORE the multiplication. The divisor must be a
      non-zero whole number of MHz for the macro to compile. */
  function UsFromTbticks(fCpu: uint32, t: nat): (u: uint32)
    requires fCpu % 1_000_000 == 0 && fCpu >= 1_000_000
    ensures (TbtimerPrescaler / (fCpu / 1_000_000)) * t < Modulus32 ==>
              u == (TbtimerPrescaler / (fCpu / 1_000_000)) * t
  {
    ((TbtimerPrescaler / (fCpu / 1_000_000)) * t) % Modulus32
  }

  /** Dividing both sides of an inequality by a positive factor. */
  lemma ScaleDown(x: int, y: int, f: int)
    requires f > 0
    ensures x * f >= y * f ==> x >= y
    ensures x * f < y * f ==> x < y
  {
    if x < y {
      assert (y - x) * f > 0;
    } else {
      assert (x - y) * f >= 0;
    }
  }

  /** When the clock rate in MHz divides the prescaler (1, 2, 4, 8 or 16 MHz), converting
      microseconds to ticks and back never loses time: the result lies in
      [u, u + one tick). */
  lemma {:induction false} UsRoundTrip(fCpu: uint32, u: nat)
    requires fCpu % 1_000_000 == 0 && fCpu >= 1_000_000
    requires TbtimerPrescaler % (fCpu / 1_000_000) == 0
    requires (fCpu / 1_000_000) * u + TbtimerPrescaler < Modulus32
    requires u + TbtimerPrescaler < Modulus32
    ensures u <= UsFromTbticks(fCpu, TbticksFromUs(fCpu, u))
              < u + TbtimerPrescaler / (fCpu / 1_000_000)
  {
    var mhz := fCpu / 1_000_000;
    var k := TbtimerPrescaler / mhz;
    assert k * mhz == TbtimerPrescaler;
    var t := TbticksFromUs(fCpu, u);
    assert t * TbtimerPrescaler >= mhz * u;
    assert t * TbtimerPrescaler == (k * t) * mhz;
    ScaleDown(k * t, u, mhz);
    assert k * t >= u;
    if t > 0 {
      assert (t - 1) * TbtimerPrescaler < mhz * u;
      assert (t - 1) * TbtimerPrescaler == (k * t - k) * mhz;
      ScaleDown(k * t - k, u, mhz);
    }
    assert k * t < u + k;
    assert k <= TbtimerPrescaler;
  }

  /** At 20 MHz the tick length of 12.8 us is truncated to 12 us, so the round trip of
      1000 us comes back as 948 us. */
  lemma UsRoundTripTruncatesAt20MHz()
    ensures TbticksFromUs(20_000_000, 1000) == 79
    ensures UsFromTbticks(20_000_000, 79) == 948
  {
  }

  /** struct timer_event. The scheduler keeps events in a list through next; an event
      whose next points to itself is not in the list. */
  class TimerEvent {
    var next: TimerEvent?
    var tbtick: uint32
    /** the callback, identified by a number; calling it is the scheduler's business */
    var handler: nat

    /** TIMER_EVENT_INIT(name, handler) = { &name, 0, handler }: a static event starts
        self-linked. */
    constructor (handler: nat)
      ensures next == this && tbtick == 0 && this.handler == handler
      ensures Expired() && !Active()
    {
      next := this;
      tbtick := 0;
      this.handler := handler;
    }

    /** init_timer_event(a, b, c) */
    method InitTimerEvent(b: uint32, c: nat)
      modifies this
      ensures next == this && tbtick == b && handler == c
      ensures Expired() && !Active()
    {
      next := this;
      tbtick := b;
      handler := c;
    }

    /** timer_is_expired(a): the event points to itself */
    predicate Expired()
      reads this
    {
      next == this
    }

    /** timer_is_active(a) = !timer_is_expired(a) */
    predicate Active()
      reads this
    {
      !Expired()
    }
  }

  /** An event linked to any other event is active, and active exactly when not expired. */
  lemma ActiveIffNotExpired(e: TimerEvent, other: TimerEvent)
    requires e.next == other && other != e
    ensures e.Active() && !e.Expired()
  {
  }
}
