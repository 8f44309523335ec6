/**
 * `itertools.batched(items, n)` as main.py uses it: the items in consecutive
 * chunks of n, the last chunk holding the remainder. `batched` refuses
 * n < 1, so every member here requires a positive size; ValidBatchSize
 * adds the upper bound of the C integer the size is converted to.
 */
module Batching {

  function Min(a: int, b: int): int { if a <= b then a else b }

  /** The largest C `Py_ssize_t`, the type `batched` converts its size to. */
  const MaxBatchSize: int := 0x7fff_ffff_ffff_ffff

  /**
   * The sizes `batched` accepts: below 1 it raises ValueError, above
   * MaxBatchSize the conversion raises OverflowError.
   */
  predicate ValidBatchSize(n: int)
  {
    1 <= n <= MaxBatchSize
  }

  /** The chunks `batched(items, b)` yields, in order. */
  function Batch<T>(items: seq<T>, b: nat): (r: seq<seq<T>>)
    requires b >= 1
    ensures r == [] <==> items == []
    ensures forall i :: 0 <= i < |r| ==> 1 <= |r[i]| <= b
    decreases |items|
  {
    if items == [] then []
    else if |items| <= b then [items]
    else [items[..b]] + Batch(items[b..], b)
  }

  /** The chunks joined back together. */
  function Flatten<T>(chunks: seq<seq<T>>): seq<T>
  {
    if chunks == [] then [] else chunks[0] + Flatten(chunks[1..])
  }

  /** Number of chunks for n items: ceil(n / b). */
  function CeilDiv(n: nat, b: nat): nat
    requires b >= 1
  {
    (n + b - 1) / b
  }

  lemma {:induction false} FlattenAppend<T>(a: seq<seq<T>>, b: seq<seq<T>>)
    ensures Flatten(a + b) == Flatten(a) + Flatten(b)
  {
    if a == [] {
      assert a + b == b;
    } else {
      assert (a + b)[1..] == a[1..] + b;
      FlattenAppend(a[1..], b);
    }
  }

  /** Joining the chunks gives back the input, in order. */
  lemma {:induction false} BatchFlatten<T>(items: seq<T>, b: nat)
    requires b >= 1
    ensures Flatten(Batch(items, b)) == items
    decreases |items|
  {
    if items != [] && |items| > b {
      BatchFlatten(items[b..], b);
      assert items == items[..b] + items[b..];
    }
  }

  /** q is n / b when n lies in [q*b, q*b + b). */
  lemma DivBetween(n: nat, b: nat, q: nat)
    requires b >= 1
    requires q * b <= n < q * b + b
    ensures n / b == q
  {
    var d, r := n / b, n % b;
    assert n == d * b + r && 0 <= r < b;
    assert (d + 1) * b == d * b + b && (q + 1) * b == q * b + b;
    MulMonotone(d + 1, q, b);
    MulMonotone(q + 1, d, b);
  }

  lemma MulMonotone(x: nat, y: nat, b: nat)
    ensures x <= y ==> x * b <= y * b
  {
    if x <= y {
      assert y * b == x * b + (y - x) * b;
    }
  }

  /** The number of chunks is ceil(n / b): zero for no items. */
  lemma {:induction false} BatchCount<T>(items: seq<T>, b: nat)
    requires b >= 1
    ensures |Batch(items, b)| == CeilDiv(|items|, b)
    decreases |items|
  {
    if items == [] {
      DivBetween(b - 1, b, 0);
    } else if |items| <= b {
      DivBetween(|items| + b - 1, b, 1);
    } else {
      BatchCount(items[b..], b);
      DivAddOne(|items| - 1, b);
    }
  }

  lemma DivAddOne(m: nat, b: nat)
    requires b >= 1
    ensures (m + b) / b == m / b + 1
  {
    var q := m / b;
    assert m == q * b + m % b;
    assert (q + 1) * b == q * b + b;
    DivBetween(m + b, b, q + 1);
  }

  lemma MulSucc(i: nat, b: nat)
    requires i >= 1
    ensures (i - 1) * b + b == i * b
  {
  }

  /** Chunk i holds the items from i*b up to (i+1)*b, cut at the end of the input. */
  lemma {:induction false} BatchAt<T>(items: seq<T>, b: nat, i: nat)
    requires b >= 1 && i < |Batch(items, b)|
    ensures i * b < |items|
    ensures Batch(items, b)[i] == items[i * b .. Min(i * b + b, |items|)]
    decreases |items|
  {
    if i > 0 {
      assert |items| > b;
      var rest := items[b..];
      BatchAt(rest, b, i - 1);
      var k := (i - 1) * b;
      MulSucc(i, b);
      assert Batch(items, b)[i] == Batch(rest, b)[i - 1];
      assert rest[k .. Min(k + b, |rest|)] == items[k + b .. Min(k + b + b, |items|)];
    }
  }

  /** Every chunk but the last is full; the last holds between 1 and b items. */
  lemma {:induction false} BatchSizes<T>(items: seq<T>, b: nat)
    requires b >= 1
    ensures forall i :: 0 <= i < |Batch(items, b)| - 1 ==> |Batch(items, b)[i]| == b
    ensures items != [] ==> 1 <= |Batch(items, b)[|Batch(items, b)| - 1]| <= b
    decreases |items|
  {
    if |items| > b {
      BatchSizes(items[b..], b);
      var r, rest := Batch(items, b), Batch(items[b..], b);
      assert r == [items[..b]] + rest;
      forall i | 0 <= i < |r| - 1
        ensures |r[i]| == b
      {
        if i > 0 { assert r[i] == rest[i - 1]; }
      }
    }
  }

  /**
   * One step of consuming the input: the chunks of items[start..] are the
   * next at most b items followed by the chunks of what remains.
   */
  lemma BatchStep<T>(items: seq<T>, start: nat, b: nat)
    requires b >= 1 && start < |items|
    ensures Batch(items[start..], b)
         == [items[start..Min(start + b, |items|)]] + Batch(items[Min(start + b, |items|)..], b)
  {
    var rest := items[start..];
    if |rest| <= b {
      assert items[start..Min(start + b, |items|)] == rest;
      assert items[Min(start + b, |items|)..] == [];
    } else {
      assert rest[..b] == items[start..start + b];
      assert rest[b..] == items[start + b..];
    }
  }

  /**
   * The progress-bar total `int(n / b) + 1`: one more than the number of
   * chunks when b divides n (so also for n == 0), equal to it otherwise.
   */
  function EstimatedTotal(n: nat, b: nat): nat
    requires b >= 1
  {
    n / b + 1
  }

  lemma EstimatedTotalOvercount(n: nat, b: nat)
    requires b >= 1
    ensures EstimatedTotal(n, b) == CeilDiv(n, b) + (if n % b == 0 then 1 else 0)
  {
    var q := n / b;
    assert n == q * b + n % b;
    if n % b == 0 {
      DivBetween(n + b - 1, b, q);
    } else {
      assert (q + 1) * b == q * b + b;
      DivBetween(n + b - 1, b, q + 1);
    }
  }
}
