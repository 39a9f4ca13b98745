/** Shared vocabulary of the flight-computer model: optional values, machine
    integers, C's truncating division, and the numeric library routines that the
    model keeps uninterpreted. */
module Base {

  datatype Option<+T> = None | Some(value: T)

  /** An unsigned 8-bit value (`uint8_t`). */
  type Byte = x: int | 0 <= x < 256

  /** 2^32: the number of values of `uint32_t`. */
  const UInt32Modulus: int := 0x1_0000_0000

  /** The value a C conversion to `uint32_t` gives an integer (reduction modulo 2^32). */
  function ToUInt32(x: int): (r: nat)
    ensures r < UInt32Modulus
    ensures 0 <= x < UInt32Modulus ==> r == x
  {
    x % UInt32Modulus
  }

  /** C's integer division `a / b` for a positive divisor: the quotient truncates toward zero. */
  function CDiv(a: int, b: int): (q: int)
    requires b > 0
    ensures a >= 0 ==> q == a / b
    ensures a < 0 ==> q <= 0 && a <= q * b < a + b
  {
    if a >= 0 then a / b else -((-a) / b)
  }

  /** C's conversion of a real number to `int`: truncation toward zero. */
  function TruncReal(x: real): (n: int)
    ensures x >= 0.0 ==> n as real <= x < n as real + 1.0
    ensures x < 0.0 ==> n as real - 1.0 < x <= n as real
  {
    if x >= 0.0 then x.Floor else -((-x).Floor)
  }

  /** The first `n` elements of `s`, or all of `s` when it is shorter: what a
      `strncpy` into a zeroed buffer of `n + 1` characters keeps of a C string. */
  function Take<T>(s: seq<T>, n: nat): (r: seq<T>)
    ensures |r| == (if |s| < n then |s| else n)
    ensures r == s[..|r|]
  {
    if |s| <= n then s else s[..n]
  }

  /** Sum of a sequence of reals, accumulated left to right. */
  function Sum(s: seq<real>): real
  {
    if s == [] then 0.0 else Sum(s[..|s| - 1]) + s[|s| - 1]
  }

  lemma {:induction false} SumAppend(a: seq<real>, b: seq<real>)
    ensures Sum(a + b) == Sum(a) + Sum(b)
    decreases |b|
  {
    if b == [] {
      assert a + b == a;
    } else {
      assert (a + b)[..|a + b| - 1] == a + b[..|b| - 1];
      SumAppend(a, b[..|b| - 1]);
    }
  }

  lemma {:induction false} SumBounds(s: seq<real>, lo: real, hi: real)
    requires forall i :: 0 <= i < |s| ==> lo <= s[i] <= hi
    ensures |s| as real * lo <= Sum(s) <= |s| as real * hi
    decreases |s|
  {
    if s != [] {
      SumBounds(s[..|s| - 1], lo, hi);
    }
  }

  /** A total between n·lo and n·hi has its n-th part between lo and hi. */
  lemma MeanBetween(total: real, n: real, lo: real, hi: real)
    requires n > 0.0 && n * lo <= total <= n * hi
    ensures lo <= total / n <= hi
  {
    var a := total / n;
    assert total == a * n;
    assert (a - lo) * n >= 0.0 && (hi - a) * n >= 0.0;
  }

  /** The mean of a non-empty sequence lies between any bounds of its elements. */
  lemma MeanBounds(s: seq<real>, lo: real, hi: real)
    requires |s| > 0
    requires forall j :: 0 <= j < |s| ==> lo <= s[j] <= hi
    ensures lo <= Sum(s) / (|s| as real) <= hi
  {
    SumBounds(s, lo, hi);
    MeanBetween(Sum(s), |s| as real, lo, hi);
  }

  /** The numeric routines of the C and Python libraries that the model leaves
      uninterpreted: `atof`, `sqrt`, `cos`, `atan2` and `powf`. */
  datatype Libm = Libm(
    atof: string -> real,
    sqrt: real -> real,
    cos: real -> real,
    atan2: (real, real) -> real,
    pow: (real, real) -> real)
}
