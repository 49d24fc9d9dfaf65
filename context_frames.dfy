/**
 * The two saved-register frames of the ARMv6-M port and their memory layout
 * as sequences of 32-bit words, in the field order of `struct intctx` and
 * `struct extctx`.
 */
module ContextFrames {
  import opened MachineWord

  /**
   * `struct intctx`: the frame the context switch pushes itself. ARMv6-M
   * cannot push r8-r11 directly, so they are moved to low registers and
   * pushed last, ending up at the lowest addresses.
   */
  datatype IntCtx = IntCtx(
    r8: Word, r9: Word, r10: Word, r11: Word,
    r4: Word, r5: Word, r6: Word, r7: Word,
    lr: Word)

  /** `struct extctx`: the frame the processor pushes on exception entry. */
  datatype ExtCtx = ExtCtx(
    r0: Word, r1: Word, r2: Word, r3: Word,
    r12: Word, lrThd: Word, pc: Word, xpsr: Word)

  /** Number of words in each frame. */
  const IntCtxSlots: nat := 9
  const ExtCtxSlots: nat := 8

  /** `sizeof(struct intctx)` and `sizeof(struct extctx)` in bytes. */
  const IntCtxSize: nat := IntCtxSlots * RegSize
  const ExtCtxSize: nat := ExtCtxSlots * RegSize

  /** Word positions of the three fields thread creation initialises. */
  const R4Slot: nat := 4
  const R5Slot: nat := 5
  const LrSlot: nat := 8

  /** The frame as it lies in memory, lowest address first. */
  function IntCtxWords(c: IntCtx): (ws: seq<Word>)
    ensures |ws| == IntCtxSlots && |ws| * RegSize == IntCtxSize
    ensures ws[R4Slot] == c.r4 && ws[R5Slot] == c.r5 && ws[LrSlot] == c.lr
  {
    [c.r8, c.r9, c.r10, c.r11, c.r4, c.r5, c.r6, c.r7, c.lr]
  }

  /** Reads a frame back from the words it occupies. */
  function IntCtxOfWords(ws: seq<Word>): (c: IntCtx)
    requires |ws| == IntCtxSlots
    ensures IntCtxWords(c) == ws
  {
    IntCtx(ws[0], ws[1], ws[2], ws[3], ws[4], ws[5], ws[6], ws[7], ws[8])
  }

  lemma IntCtxRoundTrip(c: IntCtx)
    ensures IntCtxOfWords(IntCtxWords(c)) == c
  {
  }

  /** The hardware frame as it lies in memory, lowest address first. */
  function ExtCtxWords(c: ExtCtx): (ws: seq<Word>)
    ensures |ws| == ExtCtxSlots && |ws| * RegSize == ExtCtxSize
    ensures ws[0] == c.r0 && ws[ExtCtxSlots - 1] == c.xpsr
  {
    [c.r0, c.r1, c.r2, c.r3, c.r12, c.lrThd, c.pc, c.xpsr]
  }
}
