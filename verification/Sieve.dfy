/** The sieve of the guest test program. */
module Sieve {
  import opened Radix

  const INT_MAX: int := 0x7fff_ffff

  ghost predicate Prime(n: nat) {
    n >= 2 && forall d | 2 <= d < n :: n % d != 0
  }

  ghost function PrimesBelow(n: nat): nat {
    if n == 0 then 0 else PrimesBelow(n - 1) + if Prime(n - 1) then 1 else 0
  }

  /** `k` has no divisor below `i`, other than 1 and itself. */
  ghost predicate Survives(k: nat, i: nat) {
    k >= 2 && forall d | 2 <= d < i && d < k :: k % d != 0
  }

  lemma DividesThrough(d: nat, i: nat, k: nat)
    requires d > 0 && i > 0 && i % d == 0 && k % i == 0
    ensures k % d == 0
  {
    var p, q := i / d, k / i;
    assert k == q * i == q * (p * d) == (q * p) * d;
    DivIs(k, d, q * p, 0);
  }

  /** A number that did not survive needs no marking of its multiples: they are marked already. */
  lemma CompositeAddsNothing(i: nat, k: nat)
    requires i >= 2 && !Survives(i, i)
    ensures Survives(k, i + 1) <==> Survives(k, i)
  {
    if Survives(k, i) && !Survives(k, i + 1) {
      var d :| 2 <= d < i && i % d == 0;
      DividesThrough(d, i, k);
    }
  }

  /** Marking the proper multiples of `i` turns one round into the next. */
  lemma MarkingMultiples(i: nat, k: nat)
    requires i >= 2
    ensures Survives(k, i + 1) <==> Survives(k, i) && !(k > i && k % i == 0)
  {
  }

  /** Multiples of `i` are `i` apart. */
  lemma NoMultipleBetween(i: nat, m: nat, k: nat)
    requires i > 0 && i * m < k < i * m + i
    ensures k % i != 0
  {
    DivIs(k, i, m, k - i * m);
  }

  lemma NextMultiple(i: nat, m: nat)
    requires i > 0
    ensures i * (m + 1) == i * m + i && i * m % i == 0
  {
    DivIs(i * m, i, m, 0);
  }

  /** `now` is `before` with the proper multiples of `i` below `j` cleared. */
  ghost predicate ClearedBelow(before: seq<nat>, now: seq<nat>, i: nat, j: nat, size: nat)
    requires i > 0 && size <= |before|
  {
    && |now| == |before|
    && (forall k | 0 <= k < size :: now[k] == if i < k < j && k % i == 0 then 0 else before[k])
    && (forall k | size <= k < |now| :: now[k] == before[k])
  }

  /** Clearing one multiple goes on to the next. */
  lemma ClearOne(before: seq<nat>, now: seq<nat>, i: nat, m: nat, size: nat)
    requires i > 0 && m >= 2 && i * m < size <= |before| && ClearedBelow(before, now, i, i * m, size)
    ensures i * (m + 1) == i * m + i && ClearedBelow(before, now[i * m := 0], i, i * m + i, size)
  {
    NextMultiple(i, m);
    Beyond(i, m);
    forall k | 0 <= k < size
      ensures now[i * m := 0][k] == if i < k < i * m + i && k % i == 0 then 0 else before[k]
    {
      if i * m < k < i * m + i {
        NoMultipleBetween(i, m, k);
      }
    }
  }

  lemma Beyond(i: nat, m: nat)
    requires i > 0 && m >= 2
    ensures i * m >= i + i > i
  {
    assert i * (m - 2) >= 0;
  }

  lemma ClearNone(before: seq<nat>, i: nat, size: nat)
    requires i > 0 && size <= |before|
    ensures ClearedBelow(before, before, i, i * 2, size)
  {
    forall k | i < k < i * 2
      ensures k % i != 0
    {
      NoMultipleBetween(i, 1, k);
    }
  }

  /** The inner loop: clears the proper multiples of `i` below `size`. */
  method ClearMultiples(data: array<nat>, i: nat, size: nat)
    requires 2 <= i < size <= 0x4000_0000 && size <= data.Length
    modifies data
    ensures forall k | 0 <= k < size :: data[k] == if k > i && k % i == 0 then 0 else old(data[k])
    ensures forall k | size <= k < data.Length :: data[k] == old(data[k])
  {
    ClearNone(data[..], i, size);
    assert i * 2 <= INT_MAX;
    var j := i * 2;
    ghost var m := 2;
    while j < size
      invariant m >= 2 && j == i * m <= INT_MAX && ClearedBelow(old(data[..]), data[..], i, j, size)
      decreases size - j
    {
      hide ClearedBelow;
      ClearOne(old(data[..]), data[..], i, m, size);
      ghost var now := data[..];
      data[j] := 0;
      assert data[..] == now[j := 0];
      assert j + i <= INT_MAX;
      j := j + i;
      m := m + 1;
    }
    ghost var before, now := old(data[..]), data[..];
    assert forall k | 0 <= k < data.Length :: data[k] == now[k] && old(data[k]) == before[k];
  }

  /** `sieve`. A size below 2 counts no primes, and clears the first two elements all the same. */
  method Run(data: array<nat>, size: int) returns (r: nat)
    requires size <= 0x4000_0000 && size <= data.Length && data.Length >= 2
    modifies data
    ensures forall i | 0 <= i < data.Length && (i < size || i < 2) :: data[i] == if Prime(i) then 1 else 0
    ensures if size <= 0 then r == 0 else r == PrimesBelow(size) <= size
    ensures forall i | 0 <= i < data.Length && i >= size && i >= 2 :: data[i] == old(data[i])
  {
    r := 0;
    var i := 0;
    while i < size
      invariant 0 <= i && (i <= size || i == 0)
      invariant forall k | 0 <= k < i :: data[k] == 1
      invariant forall k | i <= k < data.Length && size <= k :: data[k] == old(data[k])
    {
      data[i] := 1;
      i := i + 1;
    }
    data[0], data[1] := 0, 0;
    FewPrimes();
    if size < 2 {
      return;
    }
    r := Sift(data, size);
  }

  lemma FewPrimes()
    ensures PrimesBelow(0) == PrimesBelow(1) == PrimesBelow(2) == 0
  {
    assert PrimesBelow(1) == 0;
  }

  lemma {:induction false} PrimesFewer(n: nat)
    ensures PrimesBelow(n) <= n
  {
    if n > 0 {
      PrimesFewer(n - 1);
    }
  }

  /** `now` marks with 1 what has survived the rounds below `i`. */
  ghost predicate Marks(now: seq<nat>, i: nat, size: nat)
    requires size <= |now|
  {
    forall k | 0 <= k < size :: now[k] == if Survives(k, i) then 1 else 0
  }

  lemma MarksNext(before: seq<nat>, now: seq<nat>, i: nat, size: nat)
    requires i >= 2 && size <= |before| == |now| && Marks(before, i, size) && Survives(i, i)
    requires forall k | 0 <= k < size :: now[k] == if k > i && k % i == 0 then 0 else before[k]
    ensures Marks(now, i + 1, size)
  {
    hide Survives;
    forall k | 0 <= k < size
      ensures now[k] == if Survives(k, i + 1) then 1 else 0
    {
      MarkingMultiples(i, k);
    }
  }

  lemma MarksSame(now: seq<nat>, i: nat, size: nat)
    requires i >= 2 && size <= |now| && Marks(now, i, size) && !Survives(i, i)
    ensures Marks(now, i + 1, size)
  {
    hide Survives;
    forall k | 0 <= k < size
      ensures now[k] == if Survives(k, i + 1) then 1 else 0
    {
      CompositeAddsNothing(i, k);
    }
  }

  /** The second loop of `sieve`. */
  method Sift(data: array<nat>, size: nat) returns (r: nat)
    requires 2 <= size <= 0x4000_0000 && size <= data.Length && data[0] == data[1] == 0
    requires forall k | 2 <= k < size :: data[k] == 1
    modifies data
    ensures forall i | 0 <= i < size :: data[i] == if Prime(i) then 1 else 0
    ensures r == PrimesBelow(size) <= size
    ensures forall i | size <= i < data.Length :: data[i] == old(data[i])
  {
    r := 0;
    FewPrimes();
    assert Marks(data[..], 2, size);
    for i := 2 to size
      invariant Marks(data[..], i, size) && r == PrimesBelow(i)
      invariant forall k | size <= k < data.Length :: data[k] == old(data[k])
    {
      hide Survives, Prime;
      SurvivesIsPrime(i);
      ghost var before := data[..];
      assert data[i] == before[i];
      if data[i] != 0 {
        r := r + 1;
        ClearMultiples(data, i, size);
        MarksNext(before, data[..], i, size);
      } else {
        MarksSame(before, i, size);
      }
    }
    PrimesFewer(size);
    ghost var now := data[..];
    forall k | 0 <= k < size
      ensures data[k] == if Prime(k) then 1 else 0
    {
      assert data[k] == now[k];
    }
  }

  lemma SurvivesIsPrime(i: nat)
    ensures Survives(i, i) <==> Prime(i)
  {
  }
}
