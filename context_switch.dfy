/**
 * `port_switch(ntp, otp)`: the stack check the port performs before handing
 * over to the assembly routine `_port_switch`, whose body is not part of
 * this model.
 */
module ContextSwitch {
  import opened MachineWord
  import opened ContextFrames
  import opened PortConfig
  import opened StackSizing
  import opened ThreadContext

  /** What `port_switch` leads to. */
  datatype SwitchOutcome =
    | Halted(reason: string)               // chSysHalt(reason); never returns
    | Switched(ntp: Thread, otp: Thread)   // _port_switch(ntp, otp)

  /**
   * `(struct intctx *)psp - 1`: where the outgoing thread's frame would start
   * once pushed, as a 32-bit address.
   */
  function PushedFrameAddr(psp: Word): (a: Word)
    ensures IntCtxSize <= psp ==> a + IntCtxSize == psp
  {
    Wrap(psp - IntCtxSize)
  }

  /** The stack-check condition: the pushed frame would start below the limit. */
  predicate StackOverflows(psp: Word, stklimit: Word)
  {
    PushedFrameAddr(psp) < stklimit
  }

  /**
   * `port_switch(ntp, otp)` with the outgoing thread's process stack pointer
   * `psp`. With the stack check built in, it halts with "stack overflow"
   * exactly when pushing an `intctx` would cross `otp`'s stack limit, and it
   * decides this before `_port_switch` runs; otherwise, and always when the
   * check is not built in, it is `_port_switch(ntp, otp)`.
   */
  method PortSwitch(cfg: Config, ntp: Thread, otp: Thread, psp: Word) returns (o: SwitchOutcome)
    ensures o.Halted? <==> cfg.stackCheck && StackOverflows(psp, otp.stklimit)
    ensures o.Halted? ==> o.reason == "stack overflow"
    ensures o.Switched? ==> o.ntp == ntp && o.otp == otp
  {
    if cfg.stackCheck {
      var r13 := PushedFrameAddr(psp);
      if r13 < otp.stklimit {
        return Halted("stack overflow");
      }
    }
    o := Switched(ntp, otp);
  }

  /**
   * For a stack pointer that leaves room for a frame, the check is a plain
   * comparison; a frame starting exactly at the limit is allowed.
   */
  lemma StackOverflowsExactly(psp: Word, stklimit: Word)
    requires IntCtxSize <= psp
    ensures StackOverflows(psp, stklimit) <==> psp < stklimit + IntCtxSize
    ensures psp == stklimit + IntCtxSize ==> !StackOverflows(psp, stklimit)
  {
  }

  /**
   * A working area of `THD_WA_SIZE(n)` bytes is large enough: if the stack
   * limit is the end of the `thread_t` at the base of the area, a thread
   * that has used no more than its requested stack plus one hardware frame
   * plus the interrupt reserve can always be switched out without halting.
   */
  lemma SizedWorkingAreaNeverHalts(cfg: Config, threadSize: Word, n: Word,
                                    wsAddr: Word, stklimit: Word, psp: Word)
    requires WaFits(cfg, threadSize, n)
    requires wsAddr + ThdWaSize(cfg, threadSize, n) <= WordModulus
    requires stklimit == wsAddr + threadSize
    requires wsAddr + ThdWaSize(cfg, threadSize, n) - (n + ExtCtxSize + cfg.intRequiredStack) <= psp
    ensures !StackOverflows(psp, stklimit)
  {
  }
}
