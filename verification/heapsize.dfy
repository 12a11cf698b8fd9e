/** The sizes a growable heap goes through (lima_heap_alloc in lima_gem.c), in pages. */
module HeapSize {

  /** The size lima_heap_alloc asks for: the initial one, then twice as much, up to the whole buffer. */
  function NextSize(pages: nat, init: nat, size: nat): nat {
    var want := if pages != 0 then pages * 2 else init;
    if want < size then want else size
  }

  function Pow2(n: nat): (r: nat)
    ensures r > 0
  {
    if n == 0 then 1 else 2 * Pow2(n - 1)
  }

  /** The populated size after `k` successful calls. */
  function SizeAfter(k: nat, init: nat, size: nat): nat {
    if k == 0 then 0 else NextSize(SizeAfter(k - 1, init, size), init, size)
  }

  function Min(a: nat, b: nat): nat { if a < b then a else b }

  lemma PowStep(init: nat, k: nat)
    requires k > 0
    ensures init * Pow2(k) == 2 * (init * Pow2(k - 1))
    ensures init > 0 ==> init * Pow2(k) > 0
  {
    assert init * (2 * Pow2(k - 1)) == 2 * (init * Pow2(k - 1));
  }

  /** Doubling with a ceiling: after k successes, min(init * 2^(k-1), size). */
  lemma {:induction false} SizeIsPower(k: nat, init: nat, size: nat)
    requires k > 0 && init > 0
    ensures SizeAfter(k, init, size) == Min(init * Pow2(k - 1), size)
  {
    if k > 1 {
      SizeIsPower(k - 1, init, size);
      PowStep(init, k - 1);
    }
  }

  /** Sizes never shrink, and stay within the buffer. */
  lemma {:induction false} SizesGrow(j: nat, k: nat, init: nat, size: nat)
    requires j <= k
    ensures SizeAfter(j, init, size) <= SizeAfter(k, init, size) <= size
  {
    if j < k {
      SizesGrow(j, k - 1, init, size);
    } else if k > 0 {
      SizesGrow(k - 1, k - 1, init, size);
    }
  }

  /** A heap of `first` pages after `n` growths. */
  function GrownSize(first: nat, n: nat, size: nat): nat {
    if n == 0 then first else NextSize(GrownSize(first, n - 1, size), 0, size)
  }

  /**
   Growths are bounded by a logarithm: if the n-th growth of a heap of `first` pages started from
   below the full size, then first * 2^(n - 1) is below it; and n growths make it min(first * 2^n, size).
   */
  lemma {:induction false} GrowthIsBounded(first: nat, n: nat, size: nat)
    requires 0 < first <= size
    ensures GrownSize(first, n, size) == Min(first * Pow2(n), size)
    ensures n > 0 && GrownSize(first, n - 1, size) < size ==> first * Pow2(n - 1) < size
  {
    if n > 0 {
      GrowthIsBounded(first, n - 1, size);
      PowStep(first, n);
    }
  }
}
