/**
 * Working-area sizing of chcore_v6m.h: `STACK_ALIGN`, `THD_WA_SIZE` and
 * `WORKING_AREA`. All arithmetic is on the 32-bit `size_t`.
 */
module StackSizing {
  import opened MachineWord
  import opened ContextFrames
  import opened PortConfig

  /** `sizeof(stkalign_t)`: the stack granule is a `uint64_t`. */
  const StkAlignSize: nat := 8

  /** The largest size `STACK_ALIGN` can round up without wrapping to 0. */
  const MaxAlignable: nat := WordModulus - StkAlignSize

  /**
   * `x | (sizeof(stkalign_t) - 1)` on an unsigned word: the three low bits
   * are set and the others kept.
   */
  function SetGranuleBits(x: Word): (r: Word)
    ensures r / StkAlignSize == x / StkAlignSize
    ensures r % StkAlignSize == StkAlignSize - 1
  {
    x - x % StkAlignSize + (StkAlignSize - 1)
  }

  /**
   * `STACK_ALIGN(n)`, the bit trick `((n - 1) | 7) + 1` on a 32-bit size.
   * It yields a multiple of the granule; for 0 < n <= MaxAlignable it is the
   * least such multiple that is at least n. 0 stays 0, and a size above
   * MaxAlignable wraps to 0.
   */
  function StackAlign(n: Word): (r: Word)
    ensures r % StkAlignSize == 0
    ensures 0 < n <= MaxAlignable ==> n <= r < n + StkAlignSize
    ensures n % StkAlignSize == 0 ==> r == n
    ensures n > MaxAlignable ==> r == 0
  {
    Wrap(SetGranuleBits(Wrap(n - 1)) + 1)
  }

  /** Reference definition: the least multiple of `a` that is at least `x`. */
  function RoundUp(x: int, a: nat): int
    requires a > 0
  {
    ((x + a - 1) / a) * a
  }

  lemma StackAlignIsRoundUp(n: Word)
    ensures StackAlign(n) == RoundUp(n, StkAlignSize) % WordModulus
  {
  }

  /** For every size that does not wrap, `STACK_ALIGN` is the least aligned size above it. */
  lemma StackAlignIsLeast(n: Word, m: int)
    requires n <= MaxAlignable
    requires m % StkAlignSize == 0 && n <= m
    ensures StackAlign(n) <= m
  {
  }

  /** Aligning twice is aligning once. */
  lemma StackAlignIdempotent(n: Word)
    ensures StackAlign(StackAlign(n)) == StackAlign(n)
  {
  }

  /** Every byte `THD_WA_SIZE` must cover, summed without wrap-around. */
  function WaRequired(cfg: Config, threadSize: Word, n: Word): nat
  {
    threadSize + IntCtxSize + ExtCtxSize + n + cfg.intRequiredStack
  }

  /** The required bytes can be aligned on a 32-bit `size_t` without wrapping. */
  predicate WaFits(cfg: Config, threadSize: Word, n: Word)
  {
    WaRequired(cfg, threadSize, n) <= MaxAlignable
  }

  /**
   * `THD_WA_SIZE(n)`, with `threadSize` standing for `sizeof(thread_t)`: the
   * aligned sum of the thread structure, both frames, the requested stack and
   * the interrupt reserve. When that sum fits, the result covers it and
   * wastes less than one granule.
   */
  function ThdWaSize(cfg: Config, threadSize: Word, n: Word): (r: Word)
    ensures r % StkAlignSize == 0
    ensures WaFits(cfg, threadSize, n) ==>
              WaRequired(cfg, threadSize, n) <= r < WaRequired(cfg, threadSize, n) + StkAlignSize
  {
    StackAlign(Wrap(WaRequired(cfg, threadSize, n)))
  }

  /** A larger requested stack never gives a smaller working area. */
  lemma ThdWaSizeMonotone(cfg: Config, threadSize: Word, n1: Word, n2: Word)
    requires n1 <= n2
    requires WaFits(cfg, threadSize, n2)
    ensures ThdWaSize(cfg, threadSize, n1) <= ThdWaSize(cfg, threadSize, n2)
  {
  }

  /**
   * `WORKING_AREA(s, n)` declares an array of this many `stkalign_t`
   * elements; the division truncates nothing, so the array has exactly
   * `THD_WA_SIZE(n)` bytes.
   */
  function WorkingAreaLength(cfg: Config, threadSize: Word, n: Word): (len: nat)
    ensures len * StkAlignSize == ThdWaSize(cfg, threadSize, n)
  {
    ThdWaSize(cfg, threadSize, n) / StkAlignSize
  }
}

