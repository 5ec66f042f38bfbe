/** The probing order of the task queue: `(offset + i) % n_queues_` over 32-bit unsigned
    integers, so the sum wraps before the remainder is taken. */
module Scan {

  const U32: nat := 0x1_0000_0000

  /** A 32-bit counter after a `fetch_add` of one. */
  function Next(index: nat): (next: nat)
    ensures next < U32
  {
    (index + 1) % U32
  }

  /** The queue visited by probe `i` of a scan that starts at `offset`. */
  function Probe(offset: nat, i: nat, n: nat): (q: nat)
    requires n > 0
    ensures q < n
  {
    ((offset + i) % U32) % n
  }

  /** Some probe of the scan looks at queue `q`. */
  ghost predicate Visits(offset: nat, n: nat, q: nat)
    requires n > 0
  {
    exists i: nat :: i < n && Probe(offset, i, n) == q
  }

  /** Every queue is visited by some probe of the scan. */
  ghost predicate Covers(offset: nat, n: nat)
    requires n > 0
  {
    forall q: nat :: q < n ==> Visits(offset, n, q)
  }

  /** No queue is visited twice. */
  ghost predicate NoRepeat(offset: nat, n: nat)
    requires n > 0
  {
    forall i: nat, j: nat :: i < j < n ==> Probe(offset, i, n) != Probe(offset, j, n)
  }

  /** The condition under which the 32-bit wrap is harmless. */
  predicate Harmless(offset: nat, n: nat)
    requires n > 0
  {
    offset + n - 1 < U32 || U32 % n == 0
  }

  /** How a multiple `d * n` compares with `n` itself. */
  lemma MultipleBounds(d: int, n: int)
    requires n > 0
    ensures d >= 1 ==> d * n >= n
    ensures d <= -1 ==> d * n <= -n
  {
    assert (d - 1) * n == d * n - n;
    assert (d + 1) * n == d * n + n;
  }

  lemma RemainderIsUnique(x: int, n: int, m: int, v: int)
    requires 0 <= v < n && x == m * n + v
    ensures x % n == v
  {
    var d := x / n - m;
    assert d * n == (x / n) * n - m * n;
    MultipleBounds(d, n);
  }

  /** A multiple of `n` can be dropped before taking the remainder. */
  lemma DropMultiple(x: nat, n: nat, k: nat)
    requires n > 0
    ensures (k * n + x) % n == x % n
  {
    var m := x / n;
    assert k * n + x == (k + m) * n + x % n;
    RemainderIsUnique(k * n + x, n, k + m, x % n);
  }

  /** When the wrap is harmless a probe is the plain remainder. */
  lemma HarmlessProbe(offset: nat, i: nat, n: nat)
    requires i < n < U32 && offset < U32 && Harmless(offset, n)
    ensures Probe(offset, i, n) == (offset + i) % n
  {
    if offset + i >= U32 {
      var x := (offset + i) % U32;
      var k := U32 / n;
      assert offset + i == k * n + x by { WrapIsMultiple(offset, i, n); }
      DropMultiple(x, n, k);
    }
  }

  lemma WrapIsMultiple(offset: nat, i: nat, n: nat)
    requires i < n < U32 && offset < U32 <= offset + i && Harmless(offset, n)
    ensures offset + i == (U32 / n) * n + (offset + i) % U32
  {
    assert U32 == (U32 / n) * n + U32 % n;
  }

  /** The plain remainder visits `q` at exactly one step of a window of length `n`. */
  lemma PlainHit(offset: nat, n: nat, q: nat) returns (i: nat)
    requires q < n
    ensures i < n && (offset + i) % n == q
  {
    var r := offset % n;
    var m := offset / n;
    assert offset == m * n + r;
    if q >= r {
      i := q - r;
      RemainderIsUnique(offset + i, n, m, q);
    } else {
      i := q + n - r;
      assert offset + i == (m + 1) * n + q;
      RemainderIsUnique(offset + i, n, m + 1, q);
    }
  }

  lemma PlainApart(offset: nat, n: nat, i: nat, j: nat)
    requires i < j < n
    ensures (offset + i) % n != (offset + j) % n
  {
    var a, b := offset + i, offset + j;
    var d := b / n - a / n;
    assert d * n == (b / n) * n - (a / n) * n;
    assert a == (a / n) * n + a % n && b == (b / n) * n + b % n;
    MultipleBounds(d, n);
  }

  /** The value of a probe before the wrap, counted from the wrap: `m * n + r` is 2^32 and the
      wrap is `k` steps away from the offset. */
  lemma ProbeBeforeWrap(i: nat, n: nat, m: nat, r: nat, k: nat)
    requires i < k < n && r < n && m * n + r >= k
    ensures (m * n + r - k + i) % n == if r - k + i >= 0 then r - k + i else r - k + i + n
  {
    var v := r - k + i;
    if v >= 0 {
      RemainderIsUnique(m * n + v, n, m, v);
    } else {
      assert m * n + v == (m - 1) * n + (v + n);
      RemainderIsUnique(m * n + v, n, m - 1, v + n);
    }
  }

  /** The first `k` probes run up to the wrap, the others restart at zero. */
  lemma WrappedProbe(offset: nat, i: nat, n: nat, k: nat, r: nat)
    requires offset < U32 <= offset + n - 1 && i < n < U32
    requires k == U32 - offset && r == U32 % n
    ensures Probe(offset, i, n) ==
            if i >= k then i - k else if r - k + i >= 0 then r - k + i else r - k + i + n
  {
    if i >= k {
      assert (offset + i) % U32 == i - k;
      RemainderIsUnique(i - k, n, 0, i - k);
    } else {
      assert (offset + i) % U32 == offset + i;
      var m := U32 / n;
      assert m * n + r == U32;
      ProbeBeforeWrap(i, n, m, r, k);
      assert m * n + r - k + i == offset + i;
    }
  }

  /** A harmful wrap leaves a queue that the whole scan never looks at. */
  lemma HarmfulWrapMisses(offset: nat, n: nat) returns (q: nat)
    requires 0 < n < U32 && offset < U32 && !Harmless(offset, n)
    ensures q < n && forall i: nat :: i < n ==> Probe(offset, i, n) != q
  {
    var k, r := U32 - offset, U32 % n;
    q := if r <= n - k then n - k else if r >= k then n - 1 else r;
    forall i: nat | i < n
      ensures Probe(offset, i, n) != q
    {
      WrappedProbe(offset, i, n, k, r);
    }
  }

  /** ... and a queue that it looks at twice. */
  lemma HarmfulWrapRepeats(offset: nat, n: nat) returns (i: nat, j: nat)
    requires 0 < n < U32 && offset < U32 && !Harmless(offset, n)
    ensures i < j < n && Probe(offset, i, n) == Probe(offset, j, n)
  {
    var k, r := U32 - offset, U32 % n;
    if r <= n - k {
      i, j := k - 1, k + r - 1;
    } else {
      i, j := n - 1 - r, n - 1;
    }
    WrappedProbe(offset, i, n, k, r);
    WrappedProbe(offset, j, n, k, r);
  }

  /** The `n` probes visit every queue exactly once if and only if the sum does not wrap
      during the scan or the queue count divides 2^32. */
  lemma CoverageIff(offset: nat, n: nat)
    requires 0 < n < U32 && offset < U32
    ensures Covers(offset, n) <==> Harmless(offset, n)
    ensures NoRepeat(offset, n) <==> Harmless(offset, n)
  {
    if Harmless(offset, n) {
      forall q: nat | q < n
        ensures Visits(offset, n, q)
      {
        var i := PlainHit(offset, n, q);
        HarmlessProbe(offset, i, n);
      }
      forall i: nat, j: nat | i < j < n
        ensures Probe(offset, i, n) != Probe(offset, j, n)
      {
        HarmlessProbe(offset, i, n);
        HarmlessProbe(offset, j, n);
        PlainApart(offset, n, i, j);
      }
    } else {
      var q := HarmfulWrapMisses(offset, n);
      assert !Visits(offset, n, q);
      var i, j := HarmfulWrapRepeats(offset, n);
    }
  }

  /** The constructor asks for `n_threads + 1` queues. Three queues (two workers) already have an
      offset whose scan looks at queue 0 twice and never at queue 2. */
  lemma ThreeQueuesCanMiss()
    ensures !Visits(U32 - 1, 3, 2) && !NoRepeat(U32 - 1, 3)
  {
    assert Probe(U32 - 1, 0, 3) == 0;
    assert Probe(U32 - 1, 1, 3) == 0;
    assert Probe(U32 - 1, 2, 3) == 1;
  }
}
