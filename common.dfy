/** Small helpers shared by the server and client models: JavaScript's optional
    values, decimal formatting of indices (used in entity ids), and the real-number
    operations the source takes from `Math`. */
module Common {

  /** A JavaScript value that may be `null` or `undefined`. */
  datatype Option<T> = None | Some(value: T)

  /** The outcome of an operation that can fail (a callback's `success: false`, or
      an exception). */
  datatype Result<T, E> = Ok(value: T) | Err(error: E)

  function Abs(x: real): (r: real)
    ensures r >= 0.0 && (r == x || r == -x)
  {
    if x < 0.0 then -x else x
  }

  function Min(a: real, b: real): (r: real)
    ensures r <= a && r <= b && (r == a || r == b)
  {
    if a <= b then a else b
  }

  function Max(a: real, b: real): (r: real)
    ensures r >= a && r >= b && (r == a || r == b)
  {
    if a >= b then a else b
  }

  /** `Math.ceil` on a real. */
  function Ceil(x: real): (r: int)
    ensures r as real >= x && (r - 1) as real < x
  {
    -((-x).Floor)
  }

  /** A `nat` below `n` read from a real: `Math.floor(x)` where `x` is known to be
      non-negative. */
  function FloorNat(x: real): (r: nat)
    requires x >= 0.0
    ensures r as real <= x < (r + 1) as real
  {
    x.Floor
  }

  /** JavaScript's `%` on a non-negative number and a positive modulus. */
  function Rem(a: real, m: real): (r: real)
    requires a >= 0.0 && m > 0.0
    ensures 0.0 <= r < m
    ensures a < m ==> r == a
  {
    QuotientBounds(a, m);
    a - FloorNat(a / m) as real * m
  }

  lemma QuotientBounds(a: real, m: real)
    requires a >= 0.0 && m > 0.0
    ensures var q := FloorNat(a / m); q as real * m <= a < (q + 1) as real * m
    ensures a < m ==> FloorNat(a / m) == 0
  {
    var d := a / m;
    assert d >= 0.0;
    assert d * m == a;
    var q := FloorNat(d);
    var q1 := (q + 1) as real;
    assert q as real <= d;
    assert d < q1;
    MulMonotone(q as real, d, m);
    MulMonotone(d, q1, m);
    assert d * m < q1 * m;
    assert a < q1 * m;
    if q >= 1 {
      MulMonotone(1.0, q as real, m);
      assert m <= q as real * m;
    }
  }

  lemma MulMonotone(x: real, y: real, m: real)
    requires m > 0.0
    ensures x <= y ==> x * m <= y * m
    ensures x < y ==> x * m < y * m
  {
  }

  /** A draw in [0, 1] scaled by a non-negative length stays within [0, length]. */
  lemma ScaleBounds(r: real, len: real)
    requires 0.0 <= r <= 1.0 && len >= 0.0
    ensures 0.0 <= r * len <= len
    ensures r < 1.0 && len > 0.0 ==> r * len < len
  {
    if len > 0.0 {
      MulMonotone(r, 1.0, len);
      MulMonotone(0.0, r, len);
    }
  }

  /** An interpolation `lo + r * (hi - lo)` with `r` in [0, 1] stays between `lo` and `hi`. */
  lemma InterpolateBetween(r: real, lo: real, hi: real)
    requires 0.0 <= r <= 1.0 && lo <= hi
    ensures lo <= lo + r * (hi - lo) <= hi
  {
    var d := hi - lo;
    ScaleBounds(r, d);
    var p := r * d;
    assert 0.0 <= p <= d;
  }

  /** Decimal digits of a natural number, as JavaScript's template literals print it. */
  function NatToString(n: nat): string
    decreases n
  {
    if n < 10 then [DigitChar(n)] else NatToString(n / 10) + [DigitChar(n % 10)]
  }

  /** The rendering is never empty, and is one character long exactly below 10. */
  lemma {:induction false} NatToStringLength(n: nat)
    ensures |NatToString(n)| >= 1
    ensures n < 10 <==> |NatToString(n)| == 1
    decreases n
  {
    if n >= 10 {
      NatToStringLength(n / 10);
    }
  }

  function DigitChar(d: nat): char
    requires d < 10
  {
    (48 + d) as char
  }

  /** Different numbers print differently, so ids built from distinct indices differ. */
  lemma {:induction false} NatToStringInjective(a: nat, b: nat)
    requires NatToString(a) == NatToString(b)
    ensures a == b
  {
    NatToStringLength(a);
    NatToStringLength(b);
    if a >= 10 && b >= 10 {
      var sa, sb := NatToString(a), NatToString(b);
      assert sa[|sa| - 1] == DigitChar(a % 10) && sb[|sb| - 1] == DigitChar(b % 10);
      assert sa[..|sa| - 1] == NatToString(a / 10) && sb[..|sb| - 1] == NatToString(b / 10);
      NatToStringInjective(a / 10, b / 10);
    } else if a < 10 && b < 10 {
      assert NatToString(a)[0] == DigitChar(a);
      assert NatToString(b)[0] == DigitChar(b);
    }
  }

  /** `prefix + i` as a template literal `${prefix}${i}`. */
  function IndexedId(prefix: string, i: nat): string
  {
    prefix + NatToString(i)
  }

  lemma IndexedIdInjective(prefix: string, i: nat, j: nat)
    ensures IndexedId(prefix, i) == IndexedId(prefix, j) <==> i == j
  {
    if IndexedId(prefix, i) == IndexedId(prefix, j) {
      assert NatToString(i) == IndexedId(prefix, i)[|prefix|..];
      assert NatToString(j) == IndexedId(prefix, j)[|prefix|..];
      NatToStringInjective(i, j);
    }
  }

  /** Lower-case hexadecimal digits of a natural number, as `Number.prototype.toString(16)`
      prints it (no leading zeroes, no padding). */
  function NatToHex(n: nat): (s: string)
    ensures |s| >= 1
    ensures n < 16 <==> |s| == 1
    decreases n
  {
    if n < 16 then [HexDigitChar(n)] else NatToHex(n / 16) + [HexDigitChar(n % 16)]
  }

  function HexDigitChar(d: nat): char
    requires d < 16
  {
    if d < 10 then (48 + d) as char else (87 + d) as char
  }

  /** A number below `10^k` has at most `k` decimal digits, and one of at least
      `10^(k-1)` has at least `k`. */
  lemma {:induction false} DecimalDigitCount(n: nat, k: nat)
    requires k >= 1
    ensures n < Pow10(k) ==> |NatToString(n)| <= k
    ensures n >= Pow10(k - 1) ==> |NatToString(n)| >= k
    decreases k
  {
    if k > 1 {
      DecimalDigitCount(n / 10, k - 1);
    }
  }

  function Pow10(k: nat): (p: nat)
    ensures p >= 1
  {
    if k == 0 then 1 else 10 * Pow10(k - 1)
  }

  /** A number below `16^k` has at most `k` hexadecimal digits, and one of at least
      `16^(k-1)` has at least `k`. */
  lemma {:induction false} HexDigitCount(n: nat, k: nat)
    requires k >= 1
    ensures n < Pow16(k) ==> |NatToHex(n)| <= k
    ensures n >= Pow16(k - 1) ==> |NatToHex(n)| >= k
    decreases k
  {
    if k > 1 {
      HexDigitCount(n / 16, k - 1);
    }
  }

  function Pow16(k: nat): (p: nat)
    ensures p >= 1
  {
    if k == 0 then 1 else 16 * Pow16(k - 1)
  }
}
