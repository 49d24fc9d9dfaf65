/**
 * Interrupt status and critical sections of the ARMv6-M port. The only
 * interrupt gate on this architecture is the PM bit (bit 0) of PRIMASK;
 * the current exception number is read from IPSR.
 */
module Interrupts {
  import opened PortConfig

  /** `syssts_t`: the 32-bit interrupt status word, a copy of PRIMASK. */
  type StatusWord = bv32

  /**
   * `port_irq_enabled(sts)`: a status word says interrupts are enabled
   * exactly when its PM bit, bit 0, is clear; no other bit matters.
   */
  function IrqEnabled(sts: StatusWord): (enabled: bool)
    ensures enabled <==> sts % 2 == 0
  {
    sts & 1 == 0
  }

  lemma IrqEnabledIgnoresUpperBits(a: StatusWord, b: StatusWord)
    requires a % 2 == b % 2
    ensures IrqEnabled(a) == IrqEnabled(b)
  {
  }

  /** The exception number ARMv6-M keeps in IPSR bits [5:0]; 0 is Thread mode. */
  function ExceptionNumber(ipsr: bv32): (e: bv32)
    ensures e < 64
  {
    ipsr & 0x3F
  }

  /** The critical-section operations of the port. */
  datatype CritOp = Lock | Unlock | LockFromIsr | UnlockFromIsr | Disable | Suspend | Enable

  /**
   * Whether an operation sets PM: `port_lock`, `port_lock_from_isr`,
   * `port_disable` and `port_suspend` all execute `cpsid i`, and the other
   * three `cpsie i`.
   */
  predicate Masks(op: CritOp)
  {
    op in {Lock, LockFromIsr, Disable, Suspend}
  }

  /** PRIMASK after one operation: it depends on the operation only. */
  function Apply(op: CritOp, primask: bv32): (r: bv32)
    ensures IrqEnabled(r) <==> !Masks(op)
    ensures r == 0 || r == 1
  {
    if Masks(op) then 1 else 0
  }

  /** PRIMASK after a sequence of operations, first to last. */
  function Run(primask: bv32, ops: seq<CritOp>): bv32
    decreases |ops|
  {
    if ops == [] then primask else Run(Apply(ops[0], primask), ops[1..])
  }

  /**
   * Nothing counts nesting: after any non-empty sequence, the interrupt
   * state is the one the last operation sets.
   */
  lemma {:induction false} RunIsLastOp(primask: bv32, ops: seq<CritOp>)
    requires ops != []
    ensures Run(primask, ops) == Apply(ops[|ops| - 1], primask)
    decreases |ops|
  {
    if |ops| > 1 {
      RunIsLastOp(Apply(ops[0], primask), ops[1..]);
      assert ops[1..][|ops[1..]| - 1] == ops[|ops| - 1];
    }
  }

  /** Lock then unlock, from the enabled state, leaves interrupts enabled. */
  lemma LockUnlockRestores(primask: bv32)
    requires primask == 0
    ensures Run(primask, [Lock, Unlock]) == primask
    ensures Run(primask, [LockFromIsr, UnlockFromIsr]) == primask
  {
  }

  /** `k` copies of one operation. */
  function Repeat(op: CritOp, k: nat): (ops: seq<CritOp>)
    ensures |ops| == k && forall i :: 0 <= i < k ==> ops[i] == op
  {
    if k == 0 then [] else Repeat(op, k - 1) + [op]
  }

  /** One unlock re-enables interrupts however many locks preceded it. */
  lemma OneUnlockEnables(primask: bv32, k: nat)
    ensures IrqEnabled(Run(primask, Repeat(Lock, k) + [Unlock]))
  {
    RunIsLastOp(primask, Repeat(Lock, k) + [Unlock]);
  }

  /**
   * The processor registers the port reads and writes. PRIMASK bits [31:1]
   * and IPSR bits [31:6] are reserved and read as zero. `pendsvPriority` is
   * the priority level the NVIC holds for the PendSV exception.
   */
  class Cpu {
    var primask: bv32
    var ipsr: bv32
    var pendsvPriority: nat

    ghost predicate Valid()
      reads this
    {
      (primask == 0 || primask == 1) && ipsr < 64
    }

    constructor (ipsr: bv32)
      requires ipsr < 64
      ensures Valid() && this.ipsr == ipsr && primask == 0
    {
      primask := 0;
      this.ipsr := ipsr;
    }

    /**
     * `port_init()`: gives PendSV the fixed level `CORTEX_PRIORITY_PENDSV`,
     * the most urgent one; the interrupt state is left as it was.
     */
    method PortInit()
      modifies this`pendsvPriority
      ensures pendsvPriority == PriorityPendSV == 0
    {
      pendsvPriority := PriorityPendSV;
    }

    /** `__disable_irq()`: `cpsid i`. */
    method DisableIrq()
      modifies this`primask
      ensures primask == 1
    {
      primask := 1;
    }

    /** `__enable_irq()`: `cpsie i`. */
    method EnableIrq()
      modifies this`primask
      ensures primask == 0
    {
      primask := 0;
    }

    /**
     * `port_get_irq_status()`: the PRIMASK register, which says interrupts
     * are enabled exactly when PM is clear.
     */
    method GetIrqStatus() returns (sts: StatusWord)
      requires Valid()
      ensures sts == primask
      ensures IrqEnabled(sts) <==> primask == 0
    {
      sts := primask;
    }

    /**
     * `port_is_isr_context()`: tests IPSR bits [8:0]; on ARMv6-M this is
     * exactly "the processor is handling an exception", and false in
     * Thread mode.
     */
    method IsIsrContext() returns (isr: bool)
      requires Valid()
      ensures isr <==> ExceptionNumber(ipsr) != 0
    {
      isr := ipsr & 0x1FF != 0;
    }

    method PortLock()
      requires Valid()
      modifies this`primask
      ensures Valid() && primask == Apply(Lock, old(primask)) && !IrqEnabled(primask)
    {
      DisableIrq();
    }

    method PortUnlock()
      requires Valid()
      modifies this`primask
      ensures Valid() && primask == Apply(Unlock, old(primask)) && IrqEnabled(primask)
    {
      EnableIrq();
    }

    method PortLockFromIsr()
      requires Valid()
      modifies this`primask
      ensures Valid() && primask == Apply(LockFromIsr, old(primask)) && !IrqEnabled(primask)
    {
      PortLock();
    }

    method PortUnlockFromIsr()
      requires Valid()
      modifies this`primask
      ensures Valid() && primask == Apply(UnlockFromIsr, old(primask)) && IrqEnabled(primask)
    {
      PortUnlock();
    }

    method PortDisable()
      requires Valid()
      modifies this`primask
      ensures Valid() && primask == Apply(Disable, old(primask)) && !IrqEnabled(primask)
    {
      DisableIrq();
    }

    method PortSuspend()
      requires Valid()
      modifies this`primask
      ensures Valid() && primask == Apply(Suspend, old(primask)) && !IrqEnabled(primask)
    {
      DisableIrq();
    }

    method PortEnable()
      requires Valid()
      modifies this`primask
      ensures Valid() && primask == Apply(Enable, old(primask)) && IrqEnabled(primask)
    {
      EnableIrq();
    }
  }
}
