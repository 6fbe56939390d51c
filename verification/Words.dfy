/** Fixed-width machine arithmetic, as common/gcc-millicode uses it.

    A 32-bit word is an integer below 2^32, a digit is a half word (base 2^16).
    Operations that can wrap in C are written with an explicit remainder. */
module Words {

  /** The value C's unsigned int arithmetic leaves behind. */
  function U32(x: int): (r: int)
    ensures 0 <= r < 0x1_0000_0000
  {
    x % 0x1_0000_0000
  }

  /** The value C's unsigned long long arithmetic leaves behind. */
  function U64(x: int): (r: int)
    ensures 0 <= r < 0x1_0000_0000_0000_0000
  {
    x % 0x1_0000_0000_0000_0000
  }

  /** Reinterprets a 64-bit pattern as a signed long long. */
  function S64(x: int): (r: int)
    requires 0 <= x < 0x1_0000_0000_0000_0000
    ensures -0x8000_0000_0000_0000 <= r < 0x8000_0000_0000_0000
    ensures U64(r) == x
  {
    if x < 0x8000_0000_0000_0000 then x else x - 0x1_0000_0000_0000_0000
  }

  /** Reinterprets a 32-bit pattern as a signed int. */
  function S32(x: int): (r: int)
    requires 0 <= x < 0x1_0000_0000
    ensures -0x8000_0000 <= r < 0x8000_0000
    ensures U32(r) == x
  {
    if x < 0x8000_0000 then x else x - 0x1_0000_0000
  }

  predicate IsS64(x: int) {
    -0x8000_0000_0000_0000 <= x < 0x8000_0000_0000_0000
  }

  predicate IsDigit(x: int) {
    0 <= x < 0x1_0000
  }

  /** HHALF, LHALF and LHUP of longlong.h. */
  function Hhalf(x: nat): nat {
    x / 0x1_0000
  }

  function Lhalf(x: nat): nat {
    x % 0x1_0000
  }

  function Lhup(x: nat): nat {
    U32(x * 0x1_0000)
  }

  function Pow2(k: nat): (p: nat)
    ensures p >= 1
  {
    if k == 0 then 1 else 2 * Pow2(k - 1)
  }

  lemma {:induction false} Pow2Add(a: nat, b: nat)
    ensures Pow2(a + b) == Pow2(a) * Pow2(b)
  {
    if a > 0 {
      Pow2Add(a - 1, b);
      assert Pow2(a + b) == 2 * Pow2(a - 1 + b);
    }
  }

  lemma {:induction false} Pow2Mono(a: nat, b: nat)
    requires a <= b
    ensures Pow2(a) <= Pow2(b)
  {
    if a < b {
      Pow2Mono(a, b - 1);
    }
  }

  lemma Pow2Of16()
    ensures Pow2(16) == 0x1_0000 && Pow2(15) == 0x8000
  {
    assert Pow2(4) == 16;
    Pow2Add(4, 4);
    Pow2Add(8, 8);
  }

  /** Bitwise or, bit by bit. */
  function BitOr(a: nat, b: nat): nat {
    if a == 0 && b == 0 then 0
    else (if a % 2 == 1 || b % 2 == 1 then 1 else 0) + 2 * BitOr(a / 2, b / 2)
  }

  /** Or-ing bits below position k into a multiple of 2^k is an addition. */
  lemma {:induction false} OrOfDisjointBits(x: nat, k: nat, y: nat)
    requires y < Pow2(k)
    ensures BitOr(x * Pow2(k), y) == x * Pow2(k) + y
  {
    if k == 0 {
      OrWithZero(x);
    } else {
      var p := Pow2(k - 1);
      assert x * Pow2(k) == 2 * (x * p);
      OrOfDisjointBits(x, k - 1, y / 2);
      assert (x * Pow2(k)) / 2 == x * p;
    }
  }

  lemma {:induction false} OrWithZero(x: nat)
    ensures BitOr(x, 0) == x
  {
    if x > 0 {
      OrWithZero(x / 2);
    }
  }

  lemma {:induction false} OrComm(a: nat, b: nat)
    ensures BitOr(a, b) == BitOr(b, a)
  {
    if a != 0 || b != 0 {
      OrComm(a / 2, b / 2);
    }
  }

  /** COMBINE of qdivrem.c: two digits to one word. */
  function Combine(a: nat, b: nat): nat {
    BitOr(U32(a * 0x1_0000), b)
  }

  lemma CombineIsConcatenation(a: nat, b: nat)
    requires IsDigit(a) && IsDigit(b)
    ensures Combine(a, b) == a * 0x1_0000 + b < 0x1_0000_0000
  {
    Pow2Of16();
    OrOfDisjointBits(a, 16, b);
  }
}
