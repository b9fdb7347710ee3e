/** The arithmetic helper macros of the project header: unsigned divisions with
    three rounding modes, min/max, range limiting and the element count of an array. */
module Project {

  /** UDIV_FLOOR(a,b): the quotient truncated towards zero. */
  function UdivFloor(a: nat, b: nat): (q: nat)
    requires b > 0
    ensures q * b <= a < q * b + b
  {
    a / b
  }

  /** UDIV_ROUND(a,b): the quotient rounded to the nearest integer, halves rounded up
      (for odd b the two neighbours are never equally near). */
  function UdivRound(a: nat, b: nat): (q: nat)
    requires b > 0
    ensures q * b <= a + b / 2 < q * b + b
    ensures -(b / 2) <= a - q * b <= b / 2
  {
    (a + b / 2) / b
  }

  /** UDIV_CEILING(a,b): the least q whose multiple q*b reaches a. */
  function UdivCeiling(a: nat, b: nat): (q: nat)
    requires b > 0
    ensures q * b >= a
    ensures q == 0 || (q - 1) * b < a
  {
    (a + b - 1) / b
  }

  /** min(a,b): each argument is evaluated once, so a function over values is exact. */
  function Min(a: int, b: int): (m: int)
    ensures m == a || m == b
    ensures m <= a && m <= b
  {
    if a < b then a else b
  }

  /** max(a,b) */
  function Max(a: int, b: int): (m: int)
    ensures m == a || m == b
    ensures m >= a && m >= b
  {
    if a > b then a else b
  }

  /** min never exceeds max, whatever the arguments. */
  lemma MinAtMostMax(a: int, b: int)
    ensures Min(a, b) <= Max(a, b)
  {
  }

  /** limit_range(lo,n,hi) = min(max(lo,n),hi): n pushed into [lo, hi]; when lo > hi
      the outer min makes hi win. */
  function LimitRange(lo: int, n: int, hi: int): (r: int)
    ensures lo <= hi ==> lo <= r <= hi
    ensures lo <= n <= hi ==> r == n
    ensures n < lo && lo <= hi ==> r == lo
    ensures n > hi ==> r == hi
    ensures lo > hi ==> r == hi
  {
    Min(Max(lo, n), hi)
  }

  /** ARRAY_SIZE(a) = sizeof(a) / sizeof(*a): the number of elements of an array that
      occupies totalBytes bytes with elements of elemBytes bytes each. */
  function ArraySize(totalBytes: nat, elemBytes: nat): (n: nat)
    requires elemBytes > 0 && totalBytes % elemBytes == 0
    ensures n * elemBytes == totalBytes
  {
    totalBytes / elemBytes
  }

  /** TBTIMER_PRESCALER: the timebase timer counts once every 256 CPU clocks. */
  const TbtimerPrescaler: nat := 256

  /** TBTIMER: the timebase runs on timer 0. */
  const Tbtimer: nat := 0
}
