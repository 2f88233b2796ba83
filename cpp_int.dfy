/** The C++ integer operations the server and the graphical client rely on, where they differ from Dafny's. */
module CppInt {
  function Abs(a: int): nat
  {
    if a < 0 then -a else a
  }

  /**
   * `a % n` on int: division truncates toward zero, so the remainder takes
   * the sign of a (Dafny's % never yields a negative value).
   */
  function Rem(a: int, n: int): (r: int)
    requires n != 0
    ensures Abs(r) < Abs(n)
    ensures a >= 0 ==> r >= 0
    ensures a <= 0 ==> r <= 0
  {
    if a >= 0 then a % Abs(n) else -((-a) % Abs(n))
  }

  /** On a non-negative left operand the C++ remainder is the mathematical one. */
  lemma RemNonNegative(a: int, n: int)
    requires a >= 0 && n > 0
    ensures Rem(a, n) == a % n
  {
  }

  /** A value below twice the period wraps at most once. */
  lemma WrapOnce(a: int, n: int)
    requires n > 0 && 0 <= a < 2 * n
    ensures a % n == if a < n then a else a - n
  {
    if a >= n {
      assert a == 1 * n + (a - n);
    }
  }

  /** The range of int: 32 bits, two's complement. */
  const IntMin: int := -0x8000_0000
  const IntMax: int := 0x7FFF_FFFF

  predicate InInt(v: int)
  {
    IntMin <= v <= IntMax
  }

  /**
   * What `stream >> n` stores into an int n for the value v it read: v
   * itself, or the nearest bound when v does not fit (the stream then
   * fails as well).
   */
  function Saturate(v: int): (r: int)
    ensures InInt(r)
    ensures InInt(v) ==> r == v
    ensures v > IntMax ==> r == IntMax
    ensures v < IntMin ==> r == IntMin
  {
    if v > IntMax then IntMax else if v < IntMin then IntMin else v
  }

  /** 2^64, the number of values of size_t. */
  const SizeModulus: nat := 0x1_0000_0000_0000_0000

  /**
   * The value an integer has once converted to size_t: the conversion to an
   * unsigned type is taken modulo 2^64, so a negative value wraps around.
   */
  function ToSize(a: int): (u: nat)
    ensures u < SizeModulus
    ensures 0 <= a < SizeModulus ==> u == a
    ensures -(SizeModulus as int) <= a < 0 ==> u == SizeModulus + a
  {
    a % SizeModulus
  }
}
