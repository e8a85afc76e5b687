// core/models/fields/PrimaryKeyField.py: ids made of the milliseconds since
// START_TIME shifted left by 23 bits, OR-ed with 23 random bits.  The clock
// and the random bits are parameters.
module PrimaryKey {

  const StartTime: int := 1537758068554
  const RandomBits: nat := 23

  function Pow2(n: nat): (p: nat)
    ensures p >= 1
  {
    if n == 0 then 1 else 2 * Pow2(n - 1)
  }

  /** Python's `<<` on a non-negative integer. */
  function ShiftLeft(x: nat, n: nat): (s: nat)
    ensures s == x * Pow2(n)
  {
    NonNegativeProduct(x, Pow2(n));
    x * Pow2(n)
  }

  lemma NonNegativeProduct(x: nat, y: nat)
    ensures x * y >= 0
  {
  }

  /** Python's `|` on non-negative integers, bit by bit. */
  function BitOr(a: nat, b: nat): nat
    decreases a + b
  {
    if a == 0 then b
    else if b == 0 then a
    else 2 * BitOr(a / 2, b / 2) + (if a % 2 == 1 || b % 2 == 1 then 1 else 0)
  }

  /** OR-ing bits below a multiple of 2^n is adding them. */
  lemma {:induction false} BitOrDisjoint(x: nat, n: nat, u: nat)
    requires u < Pow2(n)
    ensures BitOr(x * Pow2(n), u) == x * Pow2(n) + u
    decreases n
  {
    if n == 0 {
      assert u == 0;
    } else if x == 0 || u == 0 {
    } else {
      var a := x * Pow2(n);
      assert a == 2 * (x * Pow2(n - 1));
      assert a / 2 == x * Pow2(n - 1) && a % 2 == 0;
      BitOrDisjoint(x, n - 1, u / 2);
    }
  }

  /**
   * `make_id` at clock `nowMs` with random part `u` (`getrandbits(23)`):
   * `(t << 23) | u` where t is the milliseconds since StartTime.
   */
  function MakeId(nowMs: int, u: nat): (id: nat)
    requires nowMs >= StartTime && u < Pow2(RandomBits)
    ensures id == (nowMs - StartTime) * Pow2(RandomBits) + u
  {
    var t: nat := nowMs - StartTime;
    var shifted: nat := ShiftLeft(t, RandomBits);
    BitOrDisjoint(t, RandomBits, u);
    BitOr(shifted, u)
  }

  /** `reverse_id`: `big_id >> 23`, plus StartTime (Python's shift floors). */
  function ReverseId(bigId: int): int
  {
    bigId / Pow2(RandomBits) + StartTime
  }

  /** The creation time comes back out of an id. */
  lemma ReverseMakeId(nowMs: int, u: nat)
    requires nowMs >= StartTime && u < Pow2(RandomBits)
    ensures ReverseId(MakeId(nowMs, u)) == nowMs
  {
    RandomPartCount();
    var t := nowMs - StartTime;
    assert MakeId(nowMs, u) == t * 8388608 + u;
  }

  /** The low 23 bits of an id are its random part. */
  lemma LowBitsAreRandomPart(nowMs: int, u: nat)
    requires nowMs >= StartTime && u < Pow2(RandomBits)
    ensures MakeId(nowMs, u) % Pow2(RandomBits) == u
  {
    RandomPartCount();
    var t := nowMs - StartTime;
    assert MakeId(nowMs, u) == t * 8388608 + u;
  }

  /** An id from a strictly later millisecond is strictly larger, whatever the random bits. */
  lemma LaterIdIsLarger(t1: int, u1: nat, t2: int, u2: nat)
    requires StartTime <= t1 < t2 && u1 < Pow2(RandomBits) && u2 < Pow2(RandomBits)
    ensures MakeId(t1, u1) < MakeId(t2, u2)
  {
    RandomPartCount();
  }

  /** Two ids of the same millisecond coincide exactly when their random parts do. */
  lemma SameMillisecond(nowMs: int, u1: nat, u2: nat)
    requires nowMs >= StartTime && u1 < Pow2(RandomBits) && u2 < Pow2(RandomBits)
    ensures MakeId(nowMs, u1) == MakeId(nowMs, u2) <==> u1 == u2
  {
  }

  /**
   * An id fits in `w` bits exactly when the milliseconds since StartTime
   * fit in the `w - 23` bits above the random part.  The id goes into a
   * signed 64-bit BigIntegerField, w = 63: it fits while the milliseconds
   * stay below 2^40, about 35 years after StartTime.
   */
  lemma MakeIdFits(nowMs: int, u: nat, w: nat)
    requires nowMs >= StartTime && u < Pow2(RandomBits) && w >= RandomBits
    ensures MakeId(nowMs, u) < Pow2(w) <==> nowMs - StartTime < Pow2(w - RandomBits)
  {
    Pow2Add(w - RandomBits, RandomBits);
    IdBelow(MakeId(nowMs, u), nowMs - StartTime, u, Pow2(w - RandomBits), Pow2(RandomBits), Pow2(w));
  }

  lemma IdBelow(id: nat, t: nat, u: nat, m: nat, k: nat, bound: nat)
    requires id == t * k + u && u < k && bound == m * k
    ensures id < bound <==> t < m
  {
    ScaledBelow(t, u, m, k);
  }

  lemma {:induction false} Pow2Add(a: nat, b: nat)
    ensures Pow2(a + b) == Pow2(a) * Pow2(b)
  {
    if a > 0 {
      Pow2Add(a - 1, b);
    }
  }

  /** Below a multiple of `k`: a lower digit under `k` never carries. */
  lemma ScaledBelow(t: nat, u: nat, m: nat, k: nat)
    requires u < k
    ensures t * k + u < m * k <==> t < m
  {
    if t < m {
      MulSplit(t, m - t, k);
      NonNegativeProduct(m - t - 1, k);
      MulSplit(1, m - t - 1, k);
    } else {
      MulSplit(m, t - m, k);
      NonNegativeProduct(t - m, k);
    }
  }

  lemma MulSplit(a: nat, d: nat, k: nat)
    ensures (a + d) * k == a * k + d * k
  {
  }

  /** There are 2^23 = 8388608 random parts, the "1 in 8.3 million" of the documentation. */
  lemma RandomPartCount()
    ensures Pow2(RandomBits) == 8388608
  {
    assert Pow2(10) == 1024;
    assert Pow2(20) == 1048576;
  }
}
