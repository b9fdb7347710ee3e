// The servo pulse generator application of main.c: key edges nudge a pulse width, the width is
// clamped, shown on four digits of the TM1638 display and turned into a PWM compare value.

module Servo {
  import opened StdInt
  import opened Project
  import opened TM1638

  const MinPulse: int := 500
  const MaxPulse: int := 2500
  const MinCounts: int := 1000
  const MaxCounts: int := 5000

  /** (last ^ now) & now: the keys that are down now and were up before. */
  function RisingEdges(last: bv32, now: bv32): (r: bv32)
    ensures r == now & !last
  {
    (last ^ now) & now
  }

  /** The new key word splits into the keys just pressed and the keys held since the last
      scan; none of the just pressed keys was down before. */
  lemma RisingEdgesPartition(last: bv32, now: bv32)
    ensures RisingEdges(last, now) & last == 0
    ensures RisingEdges(last, now) | (now & last) == now
  {
  }

  /** The condition 0 != (bit & changed) of one adjustment. */
  predicate Pressed(changed: bv32, bit: bv32)
  {
    bit & changed != 0
  }

  /** What one adjustment adds when its key is pressed. */
  function Share(on: bool, delta: int): int
  {
    if on then delta else 0
  }

  /** The total of the eight adjustments selected by changed, each key a fixed step. */
  function Delta(changed: bv32): (d: int)
    ensures -1111 <= d <= 1111
  {
    Share(Pressed(changed, 0x0002_0000), -1000) + Share(Pressed(changed, 0x0000_0002), 1000)
    + Share(Pressed(changed, 0x0020_0000), -100) + Share(Pressed(changed, 0x0000_0020), 100)
    + Share(Pressed(changed, 0x0200_0000), -10) + Share(Pressed(changed, 0x0000_0200), 10)
    + Share(Pressed(changed, 0x2000_0000), -1) + Share(Pressed(changed, 0x0000_2000), 1)
  }

  /** The pulse width after the adjustments, in uint16 arithmetic. */
  function Adjusted(p: uint16, changed: bv32): uint16
  {
    Wrap16(p + Delta(changed))
  }

  /** One conditional adjustment: if its key is pressed, delta is added in uint16
      arithmetic. */
  function Step(c: uint16, on: bool, delta: int): uint16
  {
    if on then Wrap16(c + delta) else c
  }

  /** The eight adjustments in program order. */
  function Steps(p: uint16, changed: bv32): uint16
  {
    var p1 := Step(p, Pressed(changed, 0x0002_0000), -1000);
    var p2 := Step(p1, Pressed(changed, 0x0000_0002), 1000);
    var p3 := Step(p2, Pressed(changed, 0x0020_0000), -100);
    var p4 := Step(p3, Pressed(changed, 0x0000_0020), 100);
    var p5 := Step(p4, Pressed(changed, 0x0200_0000), -10);
    var p6 := Step(p5, Pressed(changed, 0x0000_0200), 10);
    var p7 := Step(p6, Pressed(changed, 0x2000_0000), -1);
    Step(p7, Pressed(changed, 0x0000_2000), 1)
  }

  /** A step applied to a wrapped value is the wrapped value with the step's share added. */
  lemma StepWraps(c: uint16, a: int, on: bool, delta: int)
    requires c == Wrap16(a)
    ensures Step(c, on, delta) == Wrap16(a + Share(on, delta))
  {
    WrapAdd(a, Share(on, delta));
  }

  /** Eight wrapping steps with any choice of keys add their shares and wrap once. */
  lemma StepChain(p: uint16, o1: bool, o2: bool, o3: bool, o4: bool, o5: bool, o6: bool, o7: bool, o8: bool)
    ensures Step(Step(Step(Step(Step(Step(Step(Step(p, o1, -1000), o2, 1000), o3, -100), o4, 100),
                                o5, -10), o6, 10), o7, -1), o8, 1) ==
            Wrap16(p + Share(o1, -1000) + Share(o2, 1000) + Share(o3, -100) + Share(o4, 100)
                     + Share(o5, -10) + Share(o6, 10) + Share(o7, -1) + Share(o8, 1))
  {
    assert p == Wrap16(p);
    StepWraps(p, p, o1, -1000);
    var p1, a1 := Step(p, o1, -1000), p + Share(o1, -1000);
    StepWraps(p1, a1, o2, 1000);
    var p2, a2 := Step(p1, o2, 1000), a1 + Share(o2, 1000);
    StepWraps(p2, a2, o3, -100);
    var p3, a3 := Step(p2, o3, -100), a2 + Share(o3, -100);
    StepWraps(p3, a3, o4, 100);
    var p4, a4 := Step(p3, o4, 100), a3 + Share(o4, 100);
    StepWraps(p4, a4, o5, -10);
    var p5, a5 := Step(p4, o5, -10), a4 + Share(o5, -10);
    StepWraps(p5, a5, o6, 10);
    var p6, a6 := Step(p5, o6, 10), a5 + Share(o6, 10);
    StepWraps(p6, a6, o7, -1);
    var p7, a7 := Step(p6, o7, -1), a6 + Share(o7, -1);
    StepWraps(p7, a7, o8, 1);
  }

  /** Applying the eight adjustments one after the other, each wrapping, is adding their
      total once and wrapping once. */
  lemma StepsSum(p: uint16, changed: bv32)
    ensures Steps(p, changed) == Adjusted(p, changed)
  {
    StepChain(p, Pressed(changed, 0x0002_0000), Pressed(changed, 0x0000_0002),
              Pressed(changed, 0x0020_0000), Pressed(changed, 0x0000_0020), Pressed(changed, 0x0200_0000),
              Pressed(changed, 0x0000_0200), Pressed(changed, 0x2000_0000), Pressed(changed, 0x0000_2000));
  }

  /** The pulse width update_servo keeps: adjusted, then limit_range(MIN_PULSE, _, MAX_PULSE). */
  function NextPulse(p: uint16, changed: bv32): uint16
  {
    LimitRange(MinPulse, Adjusted(p, changed), MaxPulse)
  }

  /** Whatever the keys, the new width is a legal pulse. */
  lemma NextPulseInRange(p: uint16, changed: bv32)
    ensures MinPulse <= NextPulse(p, changed) <= MaxPulse
  {
    assert MinPulse <= MaxPulse;
  }

  /** From a legal width, a step that does not go below zero is exact: no wrap, and the
      clamp acts like an ordinary one. */
  lemma NoWrap(p: uint16, changed: bv32)
    requires MinPulse <= p <= MaxPulse && p + Delta(changed) >= 0
    ensures Adjusted(p, changed) == p + Delta(changed)
    ensures NextPulse(p, changed) == Min(Max(MinPulse, p + Delta(changed)), MaxPulse)
  {
    assert p + Delta(changed) < Modulus16;
  }

  /** From a legal width, a step below zero wraps to a large uint16 and is clamped to
      MAX_PULSE, not to MIN_PULSE. */
  lemma WrapClampsToMax(p: uint16, changed: bv32)
    requires MinPulse <= p <= MaxPulse && p + Delta(changed) < 0
    ensures Adjusted(p, changed) == Modulus16 + p + Delta(changed)
    ensures Adjusted(p, changed) > MaxPulse
    ensures NextPulse(p, changed) == MaxPulse
  {
    assert -611 <= p + Delta(changed);
  }

  /** 500 us minus one thousand: the width jumps to 2500 us. */
  lemma WrapExample()
    ensures NextPulse(500, 0x0002_0000) == MaxPulse
  {
    WrapClampsToMax(500, 0x0002_0000);
  }

  function Pow10(k: nat): (r: nat)
    ensures r >= 1
  {
    if k == 0 then 1 else 10 * Pow10(k - 1)
  }

  /** The value update_servo writes to digit k: the k-th decimal digit of p, or -1 (blank)
      for a position above the units that p does not reach. */
  function DigitValue(p: uint16, k: nat): (v: int8)
    requires k < 4
    ensures v == -1 || 0 <= v <= 9
    ensures v == -1 <==> 0 < k && p < Pow10(k)
  {
    if 0 < k && p < Pow10(k) then -1 else (p / Pow10(k)) % 10
  }

  /** The four digit values as update_servo computes them. */
  lemma DigitValues(p: uint16)
    ensures DigitValue(p, 3) == if p < 1000 then -1 else (p / 1000) % 10
    ensures DigitValue(p, 2) == if p < 100 then -1 else (p / 100) % 10
    ensures DigitValue(p, 1) == if p < 10 then -1 else (p / 10) % 10
    ensures DigitValue(p, 0) == p % 10
  {
    assert Pow10(1) == 10 && Pow10(2) == 100 && Pow10(3) == 1000;
  }

  /** A blank shows as no digit, otherwise the digit itself. */
  function Shown(v: int8): nat
  {
    if v < 0 then 0 else v as nat
  }

  /** The four digits read back give the width, below 10000, and blanks are leading. */
  lemma DigitsRecombine(p: uint16)
    requires p < 10000
    ensures p == Shown(DigitValue(p, 3)) * 1000 + Shown(DigitValue(p, 2)) * 100 +
                 Shown(DigitValue(p, 1)) * 10 + Shown(DigitValue(p, 0))
    ensures forall k :: 1 <= k < 3 && DigitValue(p, k) == -1 ==> DigitValue(p, k + 1) == -1
  {
    var q1, q2, q3 := p / 10, p / 100, p / 1000;
    assert q2 == q1 / 10;
    assert q3 == q2 / 10;
    assert p == q1 * 10 + p % 10;
    assert q1 == q2 * 10 + q1 % 10;
    assert q2 == q3 * 10 + q2 % 10;
    assert q3 % 10 == q3;
    assert Pow10(1) == 10 && Pow10(2) == 100 && Pow10(3) == 1000;
  }

  /** The framebuffer after the four TM1638_write_digit calls of update_servo. */
  function Display(segs: seq<bv8>, p: uint16): (r: seq<bv8>)
    requires |segs| == 16
    ensures |r| == 16
  {
    var s3 := WithDigit(segs, 3, Glyph(DigitValue(p, 3)));
    var s2 := WithDigit(s3, 2, Glyph(DigitValue(p, 2)));
    var s1 := WithDigit(s2, 1, Glyph(DigitValue(p, 1)));
    WithDigit(s1, 0, Glyph(DigitValue(p, 0)))
  }

  /** pulse_counts of set_servo with the C widths written out: the difference in 16-bit
      unsigned arithmetic, the product and quotient in 32-bit, the sum cast to uint16. */
  function PulseCounts(p: uint16): uint16
  {
    var diff := (p - MinPulse) % Modulus16;
    var product := (diff * (MaxCounts - MinCounts)) % Modulus32;
    (MinCounts + product / (MaxPulse - MinPulse)) % Modulus16
  }

  /** OCR1A = 19999 - pulse_counts, in 16-bit unsigned arithmetic. */
  function Compare(p: uint16): uint16
  {
    (19999 - PulseCounts(p)) % Modulus16
  }

  /** For a legal width the interpolation is exact: two counts per microsecond, between
      MIN_COUNTS and MAX_COUNTS, and the compare value counts down from the PWM top. */
  lemma CountsInterpolate(p: uint16)
    requires MinPulse <= p <= MaxPulse
    ensures PulseCounts(p) == 2 * p
    ensures MinCounts <= PulseCounts(p) <= MaxCounts
    ensures Compare(p) == 19999 - 2 * p
  {
    var diff := p - MinPulse;
    assert (p - MinPulse) % Modulus16 == diff;
    assert diff * (MaxCounts - MinCounts) == 2000 * (2 * diff);
    assert (diff * (MaxCounts - MinCounts)) % Modulus32 == 2000 * (2 * diff);
    assert (2000 * (2 * diff)) / (MaxPulse - MinPulse) == 2 * diff;
  }

  /** The static state of main.c: the last key word and the pulse width; ocr1a stands for
      the OCR1A register. */
  class ServoApp {
    const tm: Tm1638
    var buttons: bv32
    var pulseUs: uint16
    var ocr1a: uint16

    ghost predicate Valid()
      reads this, tm, tm.keys, tm.segments
    {
      tm.Valid()
    }

    /** The static initialisers: no keys seen, the pulse at (MAX_PULSE + MIN_PULSE) / 2;
        OCR1A at its reset value. */
    constructor (driver: Tm1638)
      requires driver.Valid()
      ensures Valid() && tm == driver
      ensures buttons == 0 && pulseUs == (MaxPulse + MinPulse) / 2 && ocr1a == 0
    {
      tm := driver;
      buttons := 0;
      pulseUs := (MaxPulse + MinPulse) / 2;
      ocr1a := 0;
    }

    /** process_buttons: store the new key word, return the keys newly pressed. */
    method ProcessButtons() returns (changed: bv32)
      requires Valid()
      modifies this
      ensures buttons == tm.GetKeys()
      ensures changed == RisingEdges(old(buttons), buttons)
      ensures pulseUs == old(pulseUs) && ocr1a == old(ocr1a)
    {
      var last := buttons;
      buttons := tm.GetKeys();
      changed := RisingEdges(last, buttons);
    }

    /** The eight conditional adjustments of update_servo, each in uint16 arithmetic, on
        the pulse width handed in. */
    static method Adjust(pulseUs: uint16, changed: bv32) returns (pulse: uint16)
      ensures pulse == Adjusted(pulseUs, changed)
    {
      pulse := pulseUs;
      ghost var p0 := pulse;
      if Pressed(changed, 0x0002_0000) {
        pulse := Wrap16(pulse as int - 1000);
      }
      ghost var p1 := pulse;
      assert p1 == Step(p0, Pressed(changed, 0x0002_0000), -1000);
      if Pressed(changed, 0x0000_0002) {
        pulse := Wrap16(pulse as int + 1000);
      }
      ghost var p2 := pulse;
      assert p2 == Step(p1, Pressed(changed, 0x0000_0002), 1000);
      if Pressed(changed, 0x0020_0000) {
        pulse := Wrap16(pulse as int - 100);
      }
      ghost var p3 := pulse;
      assert p3 == Step(p2, Pressed(changed, 0x0020_0000), -100);
      if Pressed(changed, 0x0000_0020) {
        pulse := Wrap16(pulse as int + 100);
      }
      ghost var p4 := pulse;
      assert p4 == Step(p3, Pressed(changed, 0x0000_0020), 100);
      if Pressed(changed, 0x0200_0000) {
        pulse := Wrap16(pulse as int - 10);
      }
      ghost var p5 := pulse;
      assert p5 == Step(p4, Pressed(changed, 0x0200_0000), -10);
      if Pressed(changed, 0x0000_0200) {
        pulse := Wrap16(pulse as int + 10);
      }
      ghost var p6 := pulse;
      assert p6 == Step(p5, Pressed(changed, 0x0000_0200), 10);
      if Pressed(changed, 0x2000_0000) {
        pulse := Wrap16(pulse as int - 1);
      }
      ghost var p7 := pulse;
      assert p7 == Step(p6, Pressed(changed, 0x2000_0000), -1);
      if Pressed(changed, 0x0000_2000) {
        pulse := Wrap16(pulse as int + 1);
      }
      assert pulse == Step(p7, Pressed(changed, 0x0000_2000), 1);
      StepsSum(p0, changed);
    }

    /** The display part of update_servo: digits 3, 2 and 1 blank below 1000, 100 and 10,
        digit 0 always shown. */
    method ShowPulse()
      requires Valid()
      modifies tm.segments
      ensures Valid()
      ensures tm.segments[..] == Display(old(tm.segments[..]), pulseUs)
    {
      ghost var s := tm.segments[..];
      DigitValues(pulseUs);
      if pulseUs < 1000 {
        tm.WriteDigit(3, -1);
      } else {
        tm.WriteDigit(3, (pulseUs / 1000) % 10);
      }
      ghost var s3 := tm.segments[..];
      assert s3 == WithDigit(s, 3, Glyph(DigitValue(pulseUs, 3)));
      if pulseUs < 100 {
        tm.WriteDigit(2, -1);
      } else {
        tm.WriteDigit(2, (pulseUs / 100) % 10);
      }
      ghost var s2 := tm.segments[..];
      assert s2 == WithDigit(s3, 2, Glyph(DigitValue(pulseUs, 2)));
      if pulseUs < 10 {
        tm.WriteDigit(1, -1);
      } else {
        tm.WriteDigit(1, (pulseUs / 10) % 10);
      }
      assert tm.segments[..] == WithDigit(s2, 1, Glyph(DigitValue(pulseUs, 1)));
      tm.WriteDigit(0, pulseUs % 10);
    }

    /** set_servo: the compare value for pulse width p. */
    method SetServo(p: uint16)
      modifies this
      ensures ocr1a == Compare(p)
      ensures buttons == old(buttons) && pulseUs == old(pulseUs)
    {
      ocr1a := Compare(p);
    }

    /** update_servo: edges, adjustments, clamp, display and compare value. */
    method UpdateServo()
      requires Valid()
      modifies this, tm.segments
      ensures Valid()
      ensures buttons == tm.GetKeys()
      ensures pulseUs == NextPulse(old(pulseUs), RisingEdges(old(buttons), buttons))
      ensures MinPulse <= pulseUs <= MaxPulse
      ensures tm.segments[..] == Display(old(tm.segments[..]), pulseUs)
      ensures ocr1a == Compare(pulseUs) && ocr1a as int == 19999 - 2 * pulseUs
    {
      var changed := ProcessButtons();
      pulseUs := Adjust(pulseUs, changed);
      pulseUs := LimitRange(MinPulse, pulseUs, MaxPulse);
      ShowPulse();
      SetServo(pulseUs);
      CountsInterpolate(pulseUs);
    }
  }

  /** Adding a step to a wrapped value wraps like adding it to the unwrapped one. */
  lemma WrapAdd(a: int, b: int)
    ensures Wrap16(Wrap16(a) + b) == Wrap16(a + b)
  {
  }
}
