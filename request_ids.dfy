/**
 * The correlation-id counter of TradeExecution: a static `std::atomic<int>`
 * that starts at 1 and is post-incremented for every request. Atomic
 * arithmetic on a signed integer wraps in two's complement, so the counter
 * is a 32-bit value whose successor of INT_MAX is INT_MIN.
 */
module RequestIds {

  const Modulus: int := 0x1_0000_0000
  const Int32Max: int := 0x7fff_ffff

  newtype int32 = x: int | -0x8000_0000 <= x < 0x8000_0000

  /** The value the counter holds after one post-increment. */
  function Successor(c: int32): (r: int32)
    ensures (r as int - c as int - 1) % Modulus == 0
    ensures c as int < Int32Max ==> r as int == c as int + 1
  {
    if c as int == Int32Max then -0x8000_0000 else c + 1
  }

  /** The ids handed out by `n` successive draws from a counter holding `start`. */
  function Drawn(start: int32, n: nat): (ids: seq<int32>)
    ensures |ids| == n
    decreases n
  {
    if n == 0 then [] else [start] + Drawn(Successor(start), n - 1)
  }

  /** Drawing one more id extends the earlier draws. */
  lemma {:induction false} DrawnPrefix(start: int32, n: nat)
    ensures Drawn(start, n + 1)[..n] == Drawn(start, n)
    decreases n
  {
    if n > 0 {
      DrawnPrefix(Successor(start), n - 1);
      assert Drawn(start, n + 1)[..n] == [start] + Drawn(Successor(start), n)[..n - 1];
    }
  }

  /** The k-th draw is `start + k` modulo 2^32. */
  lemma {:induction false} DrawnCongruent(start: int32, n: nat, k: nat)
    requires k < n
    ensures (Drawn(start, n)[k] as int - start as int - k) % Modulus == 0
    decreases k
  {
    if k > 0 {
      DrawnCongruent(Successor(start), n - 1, k - 1);
      var a := Drawn(start, n)[k] as int;
      var s := Successor(start) as int;
      assert (a - s - (k - 1)) % Modulus == 0;
      assert (s - start as int - 1) % Modulus == 0;
      assert a - start as int - k == (a - s - (k - 1)) + (s - start as int - 1);
      ModSum(a - s - (k - 1), s - start as int - 1);
    }
  }

  lemma ModSum(x: int, y: int)
    requires x % Modulus == 0 && y % Modulus == 0
    ensures (x + y) % Modulus == 0
  {
    assert x == (x / Modulus) * Modulus;
    assert y == (y / Modulus) * Modulus;
    assert x + y == (x / Modulus + y / Modulus) * Modulus;
  }

  /** Before the counter reaches INT_MAX the k-th draw is exactly `start + k`. */
  lemma {:induction false} DrawnWithoutWrap(start: int32, n: nat, k: nat)
    requires start as int + n <= Int32Max + 1
    requires k < n
    ensures Drawn(start, n)[k] as int == start as int + k
    decreases k
  {
    if k > 0 {
      DrawnWithoutWrap(Successor(start), n - 1, k - 1);
    }
  }

  /** Until the counter would pass INT_MAX, ids are strictly increasing in issuance order. */
  lemma DrawnIncreasing(start: int32, n: nat)
    requires start as int + n <= Int32Max + 1
    ensures forall i, j :: 0 <= i < j < n ==> Drawn(start, n)[i] < Drawn(start, n)[j]
  {
    forall i, j | 0 <= i < j < n ensures Drawn(start, n)[i] < Drawn(start, n)[j] {
      DrawnWithoutWrap(start, n, i);
      DrawnWithoutWrap(start, n, j);
    }
  }

  /** Any 2^32 consecutive draws are pairwise distinct. */
  lemma DrawnDistinct(start: int32, n: nat)
    requires n <= Modulus
    ensures forall i, j :: 0 <= i < j < n ==> Drawn(start, n)[i] != Drawn(start, n)[j]
  {
    forall i, j | 0 <= i < j < n ensures Drawn(start, n)[i] != Drawn(start, n)[j] {
      DrawnCongruent(start, n, i);
      DrawnCongruent(start, n, j);
      var a, b := Drawn(start, n)[i] as int, Drawn(start, n)[j] as int;
      ModDifference(b - start as int - j, a - start as int - i);
      assert (b - a) - (j - i) == (b - start as int - j) - (a - start as int - i);
      assert 0 < j - i < Modulus;
    }
  }

  lemma ModDifference(x: int, y: int)
    requires x % Modulus == 0 && y % Modulus == 0
    ensures (x - y) % Modulus == 0
  {
    assert x == (x / Modulus) * Modulus;
    assert y == (y / Modulus) * Modulus;
    assert x - y == (x / Modulus - y / Modulus) * Modulus;
  }

  /** The process-wide counter starts at 1, so the k-th request of the process gets id k + 1. */
  lemma FirstIds(n: nat, k: nat)
    requires n <= Int32Max && k < n
    ensures Drawn(1, n)[k] as int == k + 1
  {
    DrawnWithoutWrap(1, n, k);
  }

  /** Uniqueness is bounded: draw number 2^32 + 1 repeats the first id. */
  lemma IdRepeatsAfterWrap(start: int32, n: nat)
    requires n > Modulus
    ensures Drawn(start, n)[Modulus] == Drawn(start, n)[0]
  {
    DrawnCongruent(start, n, Modulus);
    DrawnCongruent(start, n, 0);
    var a := Drawn(start, n)[Modulus] as int;
    assert (a - start as int - Modulus) % Modulus == 0;
    assert -Modulus < a - start as int < Modulus;
  }

  /** The shared counter object (the static member `TradeExecution::request_id`). */
  class RequestCounter {
    var next: int32

    /** The counter as the process starts: `request_id{ 1 }`. */
    constructor ()
      ensures next == 1
    {
      next := 1;
    }

    /** `getNextRequestId`: returns the current value and advances the counter by one. */
    method GetNextRequestId() returns (id: int32)
      modifies this
      ensures id == old(next)
      ensures next == Successor(old(next))
    {
      id := next;
      next := Successor(next);
    }

    /**
     * The ids that `n` successive requests receive, in order: together with
     * the value left in the counter they are the first n + 1 draws, so no
     * two of them are equal while n stays within 2^32.
     */
    method GetNextRequestIds(n: nat) returns (ids: seq<int32>)
      modifies this
      ensures ids + [next] == Drawn(old(next), n + 1)
      ensures n <= Modulus ==> forall i, j :: 0 <= i < j < n ==> ids[i] != ids[j]
    {
      ghost var start := next;
      ids := [];
      var k := 0;
      while k < n
        invariant k <= n
        invariant ids + Drawn(next, n + 1 - k) == Drawn(start, n + 1)
      {
        var id := GetNextRequestId();
        assert Drawn(id, n + 1 - k) == [id] + Drawn(next, n - k);
        ids := ids + [id];
        k := k + 1;
      }
      assert Drawn(next, 1) == [next];
      if n <= Modulus {
        DrawnPrefix(start, n);
        assert ids == Drawn(start, n + 1)[..n];
        DrawnDistinct(start, n);
      }
    }
  }
}
