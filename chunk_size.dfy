/** The chunk-size calculator of `lib/translation.js`: given the number of
    tokens in a text and the per-chunk token limit, the target size handed
    to the text splitter. */
module ChunkSize {

  /** `Math.ceil(tokenCount / tokenLimit)` for a positive limit. On
      naturals, Dafny's `/` is JavaScript's `Math.floor` of the quotient. */
  function NumChunks(tokenCount: nat, tokenLimit: nat): (n: nat)
    requires tokenLimit > 0
    ensures tokenCount > 0 ==> n > 0
  {
    (tokenCount + tokenLimit - 1) / tokenLimit
  }

  /** `calculateChunkSize(tokenCount, tokenLimit)`, branch for branch.
      A zero limit follows the JavaScript arithmetic the code performs:
      `Math.ceil(T / 0)` is `Infinity`, `Math.floor(T / Infinity)` is 0 and
      `T % 0` is `NaN`, so the remainder guard fails and the result is 0. */
  function CalculateChunkSize(tokenCount: nat, tokenLimit: nat): (size: nat)
    ensures tokenCount <= tokenLimit ==> size == tokenCount
    ensures tokenLimit > 0 && tokenCount > 0 ==> size > 0
  {
    if tokenCount <= tokenLimit then
      tokenCount
    else if tokenLimit == 0 then
      0
    else
      var numChunks := NumChunks(tokenCount, tokenLimit);
      NumChunksAtMostCount(tokenCount, tokenLimit);
      var chunkSize := tokenCount / numChunks;
      var remainingTokens := tokenCount % tokenLimit;
      if remainingTokens > 0 then chunkSize + remainingTokens / numChunks else chunkSize
  }

  /** There are never more chunks than tokens, so every chunk gets at least
      one token of the even share. */
  lemma {:induction false} NumChunksAtMostCount(tokenCount: nat, tokenLimit: nat)
    requires 0 < tokenLimit < tokenCount
    ensures 0 < NumChunks(tokenCount, tokenLimit) <= tokenCount
    ensures tokenCount / NumChunks(tokenCount, tokenLimit) >= 1
  {
    var n := NumChunks(tokenCount, tokenLimit);
    NumChunksIsCeiling(tokenCount, tokenLimit);
    assert (n - 1) * tokenLimit >= n - 1 by {
      MulMonotone(n - 1, 1, tokenLimit);
    }
  }

  lemma {:induction false} MulMonotone(a: nat, b: nat, c: nat)
    requires b <= c
    ensures a * b <= a * c
  {
  }

  /** `NumChunks` is the ceiling of the quotient: `n` chunks of `tokenLimit`
      tokens hold the text, `n - 1` do not. */
  lemma {:induction false} NumChunksIsCeiling(tokenCount: nat, tokenLimit: nat)
    requires tokenLimit > 0
    ensures NumChunks(tokenCount, tokenLimit) * tokenLimit >= tokenCount
    ensures (NumChunks(tokenCount, tokenLimit) - 1) * tokenLimit < tokenCount || tokenCount == 0
  {
    var n := NumChunks(tokenCount, tokenLimit);
    var s := tokenCount + tokenLimit - 1;
    assert s == n * tokenLimit + s % tokenLimit;
    assert (n - 1) * tokenLimit == n * tokenLimit - tokenLimit;
  }

  /** The guarded addition is the same as adding the remainder share
      unconditionally: when the remainder is 0 its share is 0 too. */
  lemma {:induction false} ChunkSizeFormula(tokenCount: nat, tokenLimit: nat)
    requires 0 < tokenLimit < tokenCount
    ensures var n := NumChunks(tokenCount, tokenLimit);
      CalculateChunkSize(tokenCount, tokenLimit) == tokenCount / n + (tokenCount % tokenLimit) / n
  {
    NumChunksAtMostCount(tokenCount, tokenLimit);
  }

  /** Above the limit the size is at least the even share `T / n`, and `n`
      chunks of one token more than the size hold the whole text. */
  lemma {:induction false} ChunkSizeBounds(tokenCount: nat, tokenLimit: nat)
    requires 0 < tokenLimit < tokenCount
    ensures var n := NumChunks(tokenCount, tokenLimit);
      var size := CalculateChunkSize(tokenCount, tokenLimit);
      && tokenCount / n <= size
      && size <= tokenCount / n + (tokenLimit - 1) / n
      && tokenCount < n * (size + 1)
  {
    var n := NumChunks(tokenCount, tokenLimit);
    NumChunksAtMostCount(tokenCount, tokenLimit);
    ChunkSizeFormula(tokenCount, tokenLimit);
    ShareBounds(tokenCount, tokenLimit, n, CalculateChunkSize(tokenCount, tokenLimit));
  }

  /** The arithmetic behind `ChunkSizeBounds`, over plain numbers. */
  lemma {:induction false} ShareBounds(total: nat, limit: nat, n: nat, size: nat)
    requires limit > 0 && n > 0
    requires size == total / n + (total % limit) / n
    ensures total / n <= size <= total / n + (limit - 1) / n
    ensures total < n * (size + 1)
  {
    DivMonotone(total % limit, limit - 1, n);
    DivBelowNext(total, n);
    MulMonotone(n, total / n + 1, size + 1);
  }

  /** `n * (a / n + 1)` exceeds `a`. */
  lemma {:induction false} DivBelowNext(a: nat, n: nat)
    requires n > 0
    ensures a < n * (a / n + 1)
  {
    var q := a / n;
    assert a == q * n + a % n;
    assert n * (q + 1) == q * n + n;
  }

  lemma {:induction false} DivUnique(a: int, d: int, q: int, r: int)
    requires d > 0 && 0 <= r < d && a == q * d + r
    ensures a / d == q && a % d == r
  {
    var q', r' := a / d, a % d;
    assert a == q' * d + r';
    assert (q - q') * d == r' - r;
    if q > q' {
      MulMonotone(d, 1, q - q');
    } else if q < q' {
      MulMonotone(d, 1, q' - q);
    }
  }

  lemma {:induction false} DivMonotone(a: nat, b: nat, d: nat)
    requires a <= b && d > 0
    ensures a / d <= b / d
  {
    var qa, qb := a / d, b / d;
    assert a == qa * d + a % d;
    assert b == qb * d + b % d;
    assert (qb + 1) * d == qb * d + d;
    if qa > qb {
      MulMonotone(d, qb + 1, qa);
      assert false;
    }
  }

  /** When the limit divides the count, the text splits into chunks of
      exactly the limit. */
  lemma {:induction false} EvenDivisionGivesLimit(tokenCount: nat, tokenLimit: nat)
    requires 0 < tokenLimit < tokenCount && tokenCount % tokenLimit == 0
    ensures NumChunks(tokenCount, tokenLimit) == tokenCount / tokenLimit
    ensures CalculateChunkSize(tokenCount, tokenLimit) == tokenLimit
  {
    var q := tokenCount / tokenLimit;
    assert tokenCount == q * tokenLimit;
    DivUnique(tokenCount + tokenLimit - 1, tokenLimit, q, tokenLimit - 1);
    assert NumChunks(tokenCount, tokenLimit) == q;
    NumChunksAtMostCount(tokenCount, tokenLimit);
    DivUnique(tokenCount, q, tokenLimit, 0);
  }

  /** Concrete values of the code as written: (2500, 1000) gives 833 + 166,
      (2000, 1000) gives 1000 and (1900, 1000) gives 950 + 450 = 1400, more
      than the limit, so the size is not bounded by the limit. */
  lemma {:induction false} ChunkSizeExamples()
    ensures CalculateChunkSize(2500, 1000) == 999
    ensures CalculateChunkSize(2000, 1000) == 1000
    ensures CalculateChunkSize(1900, 1000) == 1400 > 1000
  {
  }

  /** `size * n >= tokenCount - tokenLimit` does not hold of the code:
      for (7, 2) there are 4 chunks of size 1, covering 4 < 7 - 2 tokens. */
  lemma {:induction false} ChunkCoverageCanFallShort()
    ensures NumChunks(7, 2) == 4 && CalculateChunkSize(7, 2) == 1
    ensures CalculateChunkSize(7, 2) * NumChunks(7, 2) < 7 - 2
  {
  }
}
