/**
 * The port-specific part of a thread and the creation-time set-up of its
 * first context frame (`SETUP_CONTEXT`). A working area is modelled as an
 * array of 32-bit words that starts at byte address `wsAddr`.
 */
module ThreadContext {
  import opened MachineWord
  import opened ContextFrames

  /**
   * The fields of `thread_t` this port reads or writes: `p_ctx.r13`, the
   * address of the thread's saved `intctx`, and `p_stklimit`, the lowest
   * address its stack may reach (filled in by the kernel, not by the port).
   */
  class Thread {
    var r13: Word
    var stklimit: Word

    constructor (r13: Word, stklimit: Word)
      ensures this.r13 == r13 && this.stklimit == stklimit
    {
      this.r13 := r13;
      this.stklimit := stklimit;
    }
  }

  /** Byte address of the initial frame: the last `sizeof(struct intctx)` bytes. */
  function InitialFrameAddr(wsAddr: Word, wsize: nat): (a: Word)
    requires IntCtxSize <= wsize && wsAddr + wsize <= WordModulus
    ensures wsAddr <= a && a + IntCtxSize == wsAddr + wsize
  {
    wsAddr + wsize - IntCtxSize
  }

  /** The frame stored from word index `i` of a working area. */
  function FrameAt(ws: seq<Word>, i: nat): (c: IntCtx)
    requires i + IntCtxSlots <= |ws|
    ensures IntCtxWords(c) == ws[i..i + IntCtxSlots]
  {
    IntCtxOfWords(ws[i..i + IntCtxSlots])
  }

  /**
   * `SETUP_CONTEXT(workspace, wsize, pf, arg)` for thread `tp`: points the
   * thread's saved stack pointer at an `intctx` occupying the top of the
   * working area and stores the entry function in its r4 slot, the argument
   * in its r5 slot and the `_port_thread_start` trampoline (whose address
   * is `threadStart`) in its lr slot. Nothing else in the working area is
   * written, so the frame's r8-r11, r6 and r7 keep whatever the area held.
   */
  method SetupContext(tp: Thread, workspace: array<Word>, wsAddr: Word, wsize: nat,
                      pf: Word, arg: Word, threadStart: Word)
    requires IntCtxSize <= wsize <= RegSize * workspace.Length
    requires wsize % RegSize == 0
    requires wsAddr + wsize <= WordModulus
    modifies tp`r13, workspace
    ensures tp.r13 == InitialFrameAddr(wsAddr, wsize)
    ensures var i := (tp.r13 - wsAddr) / RegSize;
            i + IntCtxSlots == wsize / RegSize &&
            FrameAt(workspace[..], i) == old(FrameAt(workspace[..], i)).(r4 := pf, r5 := arg, lr := threadStart)
    ensures forall k :: 0 <= k < workspace.Length && (k - (wsize - IntCtxSize) / RegSize) !in {R4Slot, R5Slot, LrSlot}
              ==> workspace[k] == old(workspace[k])
  {
    tp.r13 := wsAddr + wsize - IntCtxSize;
    var i := (tp.r13 - wsAddr) / RegSize;
    workspace[i + R4Slot] := pf;
    workspace[i + R5Slot] := arg;
    workspace[i + LrSlot] := threadStart;
  }
}
