/** bibase: the shift-and-add binary to base-b converter. One call folds the eight bits of
    a byte, most significant first, into a little-endian array of base-b digits kept in
    place; the base is passed as nbase = 256 - b, so that "digit + nbase" carries out of
    the byte exactly when the digit has reached b. */
module BiBase {
  import opened StdInt

  /** One digit of the inner loop: ld, rol (shift in the carry), add nbase; on a carry out
      of the add the sum is stored, otherwise sub nbase restores the shifted digit and
      clears the carry. */
  function DigitStep(d: uint8, cin: bool, nbase: uint8): (uint8, bool)
  {
    var t := (2 * d + (if cin then 1 else 0)) % 0x100;
    if t + nbase >= 0x100 then (t + nbase - 0x100, true) else (t, false)
  }

  /** The digit loop over ds, from ds[0] upwards, threading the carry. */
  function DigitPass(ds: seq<uint8>, cin: bool, nbase: uint8): (r: (seq<uint8>, bool))
    ensures |r.0| == |ds|
  {
    if |ds| == 0 then ([], cin)
    else
      var (d, c) := DigitStep(ds[0], cin, nbase);
      var (rest, cout) := DigitPass(ds[1..], c, nbase);
      ([d] + rest, cout)
  }

  /** Running the digit loop one digit further extends its output by one step, which is
      how the loop in DigitLoop makes progress. */
  lemma {:induction false} DigitPassAppend(xs: seq<uint8>, d: uint8, cin: bool, nbase: uint8)
    ensures DigitPass(xs + [d], cin, nbase) ==
              (DigitPass(xs, cin, nbase).0 + [DigitStep(d, DigitPass(xs, cin, nbase).1, nbase).0],
               DigitStep(d, DigitPass(xs, cin, nbase).1, nbase).1)
  {
    if |xs| == 0 {
      var e := DigitStep(d, cin, nbase);
      assert xs + [d] == [d];
      assert [d][1..] == [];
      assert DigitPass([d], cin, nbase) == ([e.0] + DigitPass([], e.1, nbase).0, DigitPass([], e.1, nbase).1);
      assert DigitPass([], e.1, nbase) == ([], e.1);
      assert [e.0] + [] == [e.0];
      assert DigitPass(xs, cin, nbase) == ([], cin);
      assert DigitPass(xs + [d], cin, nbase) == ([e.0], e.1);
      assert DigitPass(xs, cin, nbase).0 + [e.0] == [e.0];
    } else {
      var (d0, c) := DigitStep(xs[0], cin, nbase);
      var rest := DigitPass(xs[1..], c, nbase);
      var e := DigitStep(d, rest.1, nbase);
      assert (xs + [d])[0] == xs[0];
      assert (xs + [d])[1..] == xs[1..] + [d];
      DigitPassAppend(xs[1..], d, c, nbase);
      assert DigitPass(xs, cin, nbase) == ([d0] + rest.0, rest.1);
      assert DigitPass(xs + [d], cin, nbase) == ([d0] + (rest.0 + [e.0]), e.1);
      assert [d0] + (rest.0 + [e.0]) == ([d0] + rest.0) + [e.0];
    }
  }

  /** One pass of the bit loop: the digit loop with the incoming bit as carry, then a new
      top digit 1 when a carry is left over. */
  function BitPass(ds: seq<uint8>, bit: bool, nbase: uint8): (r: seq<uint8>)
    ensures |ds| <= |r| <= |ds| + 1
  {
    var (front, c) := DigitPass(ds, bit, nbase);
    if c then front + [1] else front
  }

  /** The bit loop with k passes left, reg holding the bits not yet shifted out (lsl r22). */
  function Accumulate(ds: seq<uint8>, reg: uint8, k: nat, nbase: uint8): (r: seq<uint8>)
    decreases k
  {
    if k == 0 then ds
    else Accumulate(BitPass(ds, reg >= 0x80, nbase), (2 * reg) % 0x100, k - 1, nbase)
  }

  /** One pass of the bit loop keeps the remaining passes on course for the same result. */
  lemma AccumulateStep(ds: seq<uint8>, reg: uint8, k: nat, nbase: uint8,
                        next: seq<uint8>, reg': uint8, k': nat)
    requires k > 0 && k' == k - 1
    requires next == BitPass(ds, reg >= 0x80, nbase) && reg' == (2 * reg) % 0x100
    ensures Accumulate(next, reg', k', nbase) == Accumulate(ds, reg, k, nbase)
  {
  }

  /** The digits after one pass are no more than the digits after all the passes left. */
  lemma BitPassWithin(ds: seq<uint8>, reg: uint8, k: nat, nbase: uint8)
    requires k > 0
    ensures |BitPass(ds, reg >= 0x80, nbase)| <= |Accumulate(ds, reg, k, nbase)|
  {
    AccumulateLength(BitPass(ds, reg >= 0x80, nbase), (2 * reg) % 0x100, k - 1, nbase);
  }

  /** The bit loop count (ldi r19, 8). */
  const BitsPerByte: nat := 8

  /** The digits bibase leaves behind for input digits ds and input byte bi. */
  function Converted(ds: seq<uint8>, bi: uint8, nbase: uint8): seq<uint8>
  {
    Accumulate(ds, bi, BitsPerByte, nbase)
  }

  /** Each pass adds at most one digit, so the count grows by at most k. */
  lemma {:induction false} AccumulateLength(ds: seq<uint8>, reg: uint8, k: nat, nbase: uint8)
    ensures |ds| <= |Accumulate(ds, reg, k, nbase)| <= |ds| + k
    decreases k
  {
    if k > 0 {
      AccumulateLength(BitPass(ds, reg >= 0x80, nbase), (2 * reg) % 0x100, k - 1, nbase);
    }
  }

  /** One call grows the digit count by at most 8 and never shrinks it. */
  lemma ConvertedLength(ds: seq<uint8>, bi: uint8, nbase: uint8)
    ensures |ds| <= |Converted(ds, bi, nbase)| <= |ds| + 8
  {
    AccumulateLength(ds, bi, BitsPerByte, nbase);
  }

  // The arithmetic meaning of the digits.

  /** Multiplication distributes over addition, stated for the solver. */
  lemma Distribute(b: int, x: int, y: int)
    ensures b * (x + y) == b * x + b * y
  {
  }

  /** Multiplication regroups, stated for the solver. */
  lemma Regroup(b: int, d: int, p: int)
    ensures b * (d * p) == d * (b * p)
  {
  }

  /** b to the n. */
  function Pow(b: nat, n: nat): nat
  {
    if n == 0 then 1 else b * Pow(b, n - 1)
  }

  /** The number a little-endian digit string stands for in base b. */
  function Value(ds: seq<uint8>, b: nat): nat
  {
    if |ds| == 0 then 0 else ds[0] + b * Value(ds[1..], b)
  }

  /** Every digit is a digit of base b. */
  predicate DigitsBelow(ds: seq<uint8>, b: nat)
  {
    forall i :: 0 <= i < |ds| ==> ds[i] < b
  }

  /** nbase is the two's complement of a base b for which rol never loses a bit. */
  predicate BaseFor(b: nat, nbase: uint8)
  {
    2 <= b <= 128 && nbase as int == 0x100 - b
  }

  /** One digit step doubles the digit and adds the incoming carry, handing b on as the
      outgoing carry when the sum reaches b. */
  lemma DigitStepValue(d: uint8, cin: bool, b: nat, nbase: uint8)
    requires BaseFor(b, nbase) && d < b
    ensures DigitStep(d, cin, nbase).0 < b
    ensures DigitStep(d, cin, nbase).0 + (if DigitStep(d, cin, nbase).1 then b else 0)
              == 2 * d + (if cin then 1 else 0)
  {
  }

  /** The digit loop doubles the value and adds the incoming carry; the outgoing carry is
      worth b to the number of digits. */
  lemma {:induction false} DigitPassValue(ds: seq<uint8>, cin: bool, b: nat, nbase: uint8)
    requires BaseFor(b, nbase) && DigitsBelow(ds, b)
    ensures DigitsBelow(DigitPass(ds, cin, nbase).0, b)
    ensures Value(DigitPass(ds, cin, nbase).0, b)
              + (if DigitPass(ds, cin, nbase).1 then Pow(b, |ds|) else 0)
            == 2 * Value(ds, b) + (if cin then 1 else 0)
  {
    if |ds| > 0 {
      var (d, c) := DigitStep(ds[0], cin, nbase);
      var (rest, cout) := DigitPass(ds[1..], c, nbase);
      DigitStepValue(ds[0], cin, b, nbase);
      assert DigitsBelow(ds[1..], b) by {
        forall i | 0 <= i < |ds[1..]| ensures ds[1..][i] < b {
          assert ds[1..][i] == ds[i + 1];
        }
      }
      DigitPassValue(ds[1..], c, b, nbase);
      var r := [d] + rest;
      assert DigitPass(ds, cin, nbase) == (r, cout);
      assert r[1..] == rest;
      assert DigitsBelow(r, b) by {
        forall i | 0 <= i < |r| ensures r[i] < b {
          if i > 0 { assert r[i] == rest[i - 1]; }
        }
      }
      var top := if cout then Pow(b, |ds[1..]|) else 0;
      assert (if cout then Pow(b, |ds|) else 0) == b * top;
      assert Value(r, b) == d + b * Value(rest, b);
      CarryArith(b, d, ds[0], if cin then 1 else 0, c, Value(rest, b), top, Value(ds[1..], b));
    }
  }

  /** The arithmetic of one digit of the digit loop: if the digit and its outgoing carry
      account for the doubled input digit, and the higher digits for the doubled higher
      value, then the whole accounts for the doubled whole. */
  lemma CarryArith(b: int, d: int, d0: int, cin: int, c: bool, vrest: int, top: int, v: int)
    requires d + (if c then b else 0) == 2 * d0 + cin
    requires vrest + top == 2 * v + (if c then 1 else 0)
    ensures d + b * vrest + b * top == 2 * (d0 + b * v) + cin
  {
    Distribute(b, vrest, top);
    Distribute(b, 2 * v, if c then 1 else 0);
    Regroup(b, 2, v);
  }

  /** Appending a top digit adds it at weight b to the number of digits below it. */
  lemma {:induction false} ValueAppend(xs: seq<uint8>, d: uint8, b: nat)
    ensures Value(xs + [d], b) == Value(xs, b) + d * Pow(b, |xs|)
  {
    if |xs| == 0 {
      assert xs + [d] == [d];
      assert [d][1..] == [];
    } else {
      assert (xs + [d])[1..] == xs[1..] + [d];
      ValueAppend(xs[1..], d, b);
      var p := Pow(b, |xs| - 1);
      calc {
        Value(xs + [d], b);
        xs[0] + b * Value(xs[1..] + [d], b);
        xs[0] + b * (Value(xs[1..], b) + d * p);
        { Distribute(b, Value(xs[1..], b), d * p); }
        xs[0] + b * Value(xs[1..], b) + b * (d * p);
        { Regroup(b, d, p); }
        xs[0] + b * Value(xs[1..], b) + d * (b * p);
      }
    }
  }

  /** One pass of the bit loop doubles the value and adds the bit, keeping every digit a
      digit of base b. */
  lemma BitPassValue(ds: seq<uint8>, bit: bool, b: nat, nbase: uint8)
    requires BaseFor(b, nbase) && DigitsBelow(ds, b)
    ensures DigitsBelow(BitPass(ds, bit, nbase), b)
    ensures Value(BitPass(ds, bit, nbase), b) == 2 * Value(ds, b) + (if bit then 1 else 0)
  {
    var (front, c) := DigitPass(ds, bit, nbase);
    DigitPassValue(ds, bit, b, nbase);
    if c {
      ValueAppend(front, 1, b);
      var r := front + [1];
      assert DigitsBelow(r, b) by {
        forall i | 0 <= i < |r| ensures r[i] < b {
          if i < |front| { assert r[i] == front[i]; }
        }
      }
    }
  }

  /** What the bit loop does to a plain number v: each of k passes doubles v and adds the
      bit that lsl shifts out of reg. */
  function Shifted(v: nat, reg: uint8, k: nat): nat
    decreases k
  {
    if k == 0 then v
    else Shifted(2 * v + (if reg >= 0x80 then 1 else 0), (2 * reg) % 0x100, k - 1)
  }

  /** The contents of r22 after k shifts. */
  function Register(reg: uint8, k: nat): uint8
    decreases k
  {
    if k == 0 then reg else Register((2 * reg) % 0x100, k - 1)
  }

  /** One shift moves the top bit of reg into v: the pair read as 256 v + reg doubles. */
  lemma ShiftStep(v: nat, reg: uint8)
    ensures 0x100 * (2 * v + (if reg >= 0x80 then 1 else 0)) + (2 * reg) % 0x100
            == 2 * (0x100 * v + reg)
  {
  }

  /** Doubling one factor doubles the product, stated for the solver. */
  lemma Rescale(p: int, x: int)
    ensures p * (2 * x) == (2 * p) * x
  {
  }

  /** k shifts multiply the pair (v, reg), read as 256 v + reg, by 2 to the k. */
  lemma {:induction false} ShiftedWeight(v: nat, reg: uint8, k: nat)
    ensures 0x100 * Shifted(v, reg, k) + Register(reg, k) == Pow(2, k) * (0x100 * v + reg)
    decreases k
  {
    if k > 0 {
      var v' := 2 * v + (if reg >= 0x80 then 1 else 0);
      var reg' := (2 * reg) % 0x100;
      ShiftedWeight(v', reg', k - 1);
      ShiftStep(v, reg);
      Rescale(Pow(2, k - 1), 0x100 * v + reg);
    }
  }

  /** Eight shifts put all of reg below 256 v: the bit loop appends the byte. */
  lemma ShiftedByte(v: nat, reg: uint8, k: nat)
    requires k == BitsPerByte
    ensures Shifted(v, reg, k) == 0x100 * v + reg
  {
    ShiftedWeight(v, reg, k);
    assert Pow(2, k) == 0x100 by { assert Pow(2, 8) == 0x100; }
    ByteAligned(Shifted(v, reg, k), Register(reg, k), Pow(2, k), 0x100 * v + reg);
  }

  /** A multiple of 256 plus a byte that equals 256 x leaves no room for the byte. */
  lemma ByteAligned(s: int, r: int, p: int, x: int)
    requires p == 0x100 && 0x100 * s + r == p * x && 0 <= r < 0x100
    ensures s == x
  {
  }

  /** k passes of the bit loop do to the value of the digits what Shifted does to a
      number, keeping every digit a digit of base b. */
  lemma {:induction false} AccumulateValue(ds: seq<uint8>, reg: uint8, k: nat, b: nat, nbase: uint8)
    requires BaseFor(b, nbase) && DigitsBelow(ds, b)
    ensures DigitsBelow(Accumulate(ds, reg, k, nbase), b)
    ensures Value(Accumulate(ds, reg, k, nbase), b) == Shifted(Value(ds, b), reg, k)
    decreases k
  {
    if k > 0 {
      var next := BitPass(ds, reg >= 0x80, nbase);
      BitPassValue(ds, reg >= 0x80, b, nbase);
      AccumulateValue(next, (2 * reg) % 0x100, k - 1, b, nbase);
    }
  }

  /** The routine's arithmetic contract: for a base b of 2 to 128 and digits all below b,
      the new digits stand for 256 times the old value plus bi, and stay below b. */
  lemma ConvertedValue(ds: seq<uint8>, bi: uint8, b: nat, nbase: uint8)
    requires BaseFor(b, nbase) && DigitsBelow(ds, b)
    ensures DigitsBelow(Converted(ds, bi, nbase), b)
    ensures Value(Converted(ds, bi, nbase), b) == Value(ds, b) * 0x100 + bi
  {
    AccumulateValue(ds, bi, BitsPerByte, b, nbase);
    ShiftedByte(Value(ds, b), bi, BitsPerByte);
  }

  /** The digit loop (labels 2 and 3): r25 = n digits from str[0], rewritten in place
      through the post-incremented Z pointer, with the carry flag threaded through. */
  method DigitLoop(str: array<uint8>, n: nat, cin: bool, nbase: uint8) returns (carry: bool)
    requires n <= str.Length
    modifies str
    ensures str[..n] == DigitPass(old(str[..n]), cin, nbase).0
    ensures carry == DigitPass(old(str[..n]), cin, nbase).1
    ensures forall i :: n <= i < str.Length ==> str[i] == old(str[i])
  {
    ghost var ds := str[..n];
    carry := cin;
    var r25 := n;
    var z := 0;
    while r25 != 0
      invariant 0 <= z <= n && z + r25 == n
      invariant str[..z] == DigitPass(ds[..z], cin, nbase).0
      invariant carry == DigitPass(ds[..z], cin, nbase).1
      invariant forall i :: z <= i < str.Length ==> str[i] == old(str[i])
      decreases r25
    {
      assert str[z] == ds[z];
      ghost var step := DigitStep(ds[z], carry, nbase);
      ghost var done := str[..z];
      var r23 := str[z];                                        // ld
      r23 := (2 * r23 + (if carry then 1 else 0)) % 0x100;      // rol
      if r23 + nbase >= 0x100 {                                 // add, brcs
        r23 := r23 + nbase - 0x100;
        carry := true;
      } else {                                                  // sub
        carry := false;
      }
      assert (r23, carry) == step;
      str[z] := r23;                                            // st Z+
      assert str[..z + 1] == done + [r23];
      assert ds[..z + 1] == ds[..z] + [ds[z]];
      DigitPassAppend(ds[..z], ds[z], cin, nbase);
      z := z + 1;
      r25 := r25 - 1;
    }
    assert ds[..z] == ds;
  }

  /** One pass of the bit loop (labels 1 to 5) on the n digits of str: lsl shifts the top
      bit of reg into the carry, the digit loop runs with it, and a carry left over becomes
      a new top digit 1 at str[n]. */
  method BitRound(str: array<uint8>, n: nat, reg: uint8, nbase: uint8) returns (n': nat, reg': uint8)
    requires n <= str.Length
    requires |BitPass(str[..n], reg >= 0x80, nbase)| <= str.Length
    modifies str
    ensures reg' == (2 * reg) % 0x100
    ensures n' <= str.Length
    ensures str[..n'] == BitPass(old(str[..n]), reg >= 0x80, nbase)
    ensures forall i :: n' <= i < str.Length ==> str[i] == old(str[i])
  {
    var bit := reg >= 0x80;                                     // lsl
    reg' := (2 * reg) % 0x100;
    var carry := DigitLoop(str, n, bit, nbase);
    n' := n;
    if carry {                                                  // brcc
      assert n < str.Length;
      ghost var front := str[..n];
      str[n] := 1;                                              // st Z
      n' := n + 1;                                              // inc r24
      assert str[..n'] == front + [1];
    }
  }

  /** The routine itself: n_digit digits of str are updated in place and the new count is
      returned. The caller provides the room for the new top digits, and the count must
      stay an 8-bit value. Nothing at or beyond the returned count is touched. */
  method BiBase(nDigit: uint8, bi: uint8, str: array<uint8>, nbase: uint8) returns (count: uint8)
    requires nDigit <= str.Length
    requires |Converted(str[..nDigit], bi, nbase)| <= str.Length
    requires |Converted(str[..nDigit], bi, nbase)| < 0x100
    modifies str
    ensures count as int == |Converted(old(str[..nDigit]), bi, nbase)|
    ensures str[..count] == Converted(old(str[..nDigit]), bi, nbase)
    ensures forall i :: count <= i < str.Length ==> str[i] == old(str[i])
  {
    ghost var target := Converted(str[..nDigit], bi, nbase);
    ConvertedLength(str[..nDigit], bi, nbase);
    ghost var cur := str[..nDigit];
    var r24: nat := nDigit;        // digit count
    var r22: uint8 := bi;          // bits still to shift out
    var r19: nat := BitsPerByte; // bit loop counter
    while r19 != 0
      invariant r24 == |cur| <= |target|
      invariant str[..r24] == cur
      invariant Accumulate(cur, r22, r19, nbase) == target
      invariant forall i :: r24 <= i < str.Length ==> str[i] == old(str[i])
      decreases r19
    {
      ghost var (prev, reg, k) := (cur, r22, r19);
      BitPassWithin(cur, r22, r19, nbase);
      r24, r22 := BitRound(str, r24, r22, nbase);
      r19 := r19 - 1;                                           // dec r19
      cur := BitPass(prev, reg >= 0x80, nbase);
      AccumulateStep(prev, reg, k, nbase, cur, r22, r19);
    }
    count := r24;
  }
}
