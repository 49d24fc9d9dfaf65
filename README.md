# ChibiOS/RT ARMv6-M port core, modelled in Dafny

This project models the architecture-dependent core of the ChibiOS/RT port
for ARMv6-M (Cortex-M0 and Cortex-M0+), `os/rt/ports/ARMCMx/chcore_v6m.h`:

- working-area sizing: `STACK_ALIGN`, `THD_WA_SIZE` and `WORKING_AREA`,
  computed on the 32-bit `size_t` with its wrap-around written out;
- the saved-register frames `struct intctx` and `struct extctx` and their
  word layout;
- `SETUP_CONTEXT`, which places a thread's first `intctx` at the top of its
  working area and preloads r4 (entry function), r5 (argument) and lr (the
  `_port_thread_start` trampoline);
- the stack check that `port_switch` performs before `_port_switch` when the
  kernel is built with `CH_DBG_ENABLE_STACK_CHECK`;
- the interrupt status word (PRIMASK), the ISR-context test (IPSR) and the
  lock/unlock/disable/suspend/enable family, as a one-bit state machine;
- the build-time options and the constants derived from them
  (`CORTEX_MAX_KERNEL_PRIORITY`, `CH_PORT_INFO`, `CORTEX_PRIORITY_PENDSV`, the
  idle `WFI` choice).

Modules, one per component: `MachineWord` (32-bit words), `PortConfig`,
`ContextFrames`, `StackSizing`, `ThreadContext`, `ContextSwitch`,
`Interrupts`.

Modelling choices:

- `size_t`, pointers and `regarm_t` are 32-bit; they are integers in
  [0, 2^32) (`MachineWord.Word`) and every operation that can leave that
  range wraps explicitly. `x | 7` on an unsigned word is written as "set the
  three low bits" (`StackSizing.SetGranuleBits`). The PRIMASK and IPSR
  registers are `bv32`.
- A working area is an array of 32-bit words beginning at byte address
  `wsAddr`; the address of `_port_thread_start` is a parameter, since the
  linker fixes it.
- `sizeof(thread_t)` is a parameter (`threadSize`); `p_stklimit` is a field of
  `ThreadContext.Thread` that the kernel fills in. Where a lemma needs its
  value, it is a precondition.
- `_port_switch` and `chSysHalt` are outcomes of `ContextSwitch.PortSwitch`
  (`Switched` and `Halted`), not executed code.
- Under `CORTEX_ALTERNATE_SWITCH`, PendSV runs at priority 0, the most urgent
  level (`CORTEX_PRIORITY_PENDSV`, line 83, applied at line 314). Kernel-aware
  handlers use level 1 or a less urgent one (line 139). The model follows the
  code.

## Model

| member | source | states |
|---|---|---|
| StackSizing.SetGranuleBits | os/rt/ports/ARMCMx/chcore_v6m.h:216 | the bitwise OR of x with sizeof(stkalign_t) - 1 keeps x's granule index and sets the offset within the 8-byte granule to 7 |
| StackSizing.StackAlign | os/rt/ports/ARMCMx/chcore_v6m.h:216 | the result is a multiple of 8; for 0 < n <= 2^32 - 8 it lies in [n, n + 8); an aligned n (0 included) is returned unchanged; a larger n wraps to 0 |
| StackSizing.StackAlignIsRoundUp | os/rt/ports/ARMCMx/chcore_v6m.h:216 | for every 32-bit n, the bit trick equals the reference round-up ((n + 7) / 8) * 8 taken modulo 2^32 |
| StackSizing.StackAlignIsLeast | os/rt/ports/ARMCMx/chcore_v6m.h:216 | without wrap-around, no multiple of 8 that is >= n is smaller than STACK_ALIGN(n) |
| StackSizing.StackAlignIdempotent | os/rt/ports/ARMCMx/chcore_v6m.h:216 | aligning an aligned size changes nothing |
| StackSizing.ThdWaSize | os/rt/ports/ARMCMx/chcore_v6m.h:221-224 | THD_WA_SIZE(n) is a multiple of 8, and when the sum fits it covers sizeof(thread_t) + 36 + 32 + n + CH_PORT_INT_REQUIRED_STACK with less than 8 bytes to spare |
| StackSizing.ThdWaSizeMonotone | os/rt/ports/ARMCMx/chcore_v6m.h:221-224 | a larger requested stack never gives a smaller working area (when the larger one fits) |
| StackSizing.WorkingAreaLength | os/rt/ports/ARMCMx/chcore_v6m.h:231 | the array WORKING_AREA declares has exactly THD_WA_SIZE(n) bytes: the division by sizeof(stkalign_t) truncates nothing |
| ContextFrames.IntCtxWords | os/rt/ports/ARMCMx/chcore_v6m.h:172-182 | an intctx takes 9 words (36 bytes), with r4 in word 4, r5 in word 5 and lr in word 8 |
| ContextFrames.IntCtxOfWords | os/rt/ports/ARMCMx/chcore_v6m.h:172-182 | reading an intctx from 9 words and laying it out again gives back the same words |
| ContextFrames.IntCtxRoundTrip | os/rt/ports/ARMCMx/chcore_v6m.h:172-182 | laying out an intctx and reading it back gives the same frame |
| ContextFrames.ExtCtxWords | os/rt/ports/ARMCMx/chcore_v6m.h:161-170 | the hardware frame takes 8 words (32 bytes), r0 first and xpsr last |
| ThreadContext.Thread.constructor | os/rt/ports/ARMCMx/chcore_v6m.h:186-193 | a thread carries `p_ctx.r13`, the address of its saved intctx, and `p_stklimit`, its stack limit |
| ThreadContext.InitialFrameAddr | os/rt/ports/ARMCMx/chcore_v6m.h:205-207 | the initial frame starts sizeof(struct intctx) bytes before the end of the working area, so it ends exactly at the end and starts inside it |
| ThreadContext.SetupContext | os/rt/ports/ARMCMx/chcore_v6m.h:204-211 | r13 points at the top 36 bytes of the workspace; the frame there has r4 = pf, r5 = arg, lr = _port_thread_start and keeps its old r8-r11, r6, r7; every other word of the workspace is unchanged |
| ContextSwitch.PushedFrameAddr | os/rt/ports/ARMCMx/chcore_v6m.h:277-278 | `r13 - 1` on a `struct intctx *` is the 32-bit address 36 bytes below the stack pointer |
| ContextSwitch.PortSwitch | os/rt/ports/ARMCMx/chcore_v6m.h:273-282 | with the stack check built in, port_switch halts with "stack overflow" exactly when PSP - 36 is below otp's stack limit, before _port_switch; otherwise, and always without the check, it hands ntp and otp to _port_switch |
| ContextSwitch.StackOverflowsExactly | os/rt/ports/ARMCMx/chcore_v6m.h:278 | when PSP >= 36 the check halts iff PSP < limit + 36; a frame starting exactly at the limit does not halt |
| ContextSwitch.SizedWorkingAreaNeverHalts | os/rt/ports/ARMCMx/chcore_v6m.h:221-224 | with the stack limit at the end of thread_t, a thread in a THD_WA_SIZE(n) area that has used at most n + 32 + CH_PORT_INT_REQUIRED_STACK bytes below the area's end is never halted by the check |
| PortConfig.Defaults | os/rt/ports/ARMCMx/chcore_v6m.h:98-129 | options left undefined take the port's defaults: idle stack 16, interrupt reserve 32, no WFI, NMI preemption |
| PortConfig.PreemptionOf | os/rt/ports/ARMCMx/chcore_v6m.h:122-129 | CORTEX_ALTERNATE_SWITCH selects preemption through PendSV, and its absence through the NMI |
| PortConfig.MaxKernelPriority | os/rt/ports/ARMCMx/chcore_v6m.h:138-142 | CORTEX_MAX_KERNEL_PRIORITY is one level below PendSV's (that is, 1) under PendSV preemption and 0 under NMI preemption |
| PortConfig.PortInfo | os/rt/ports/ARMCMx/chcore_v6m.h:65-69 | CH_PORT_INFO is "Preemption through NMI" exactly under NMI preemption and "Preemption through PendSV" exactly under PendSV preemption |
| PortConfig.WaitForInterrupt | os/rt/ports/ARMCMx/chcore_v6m.h:423-428 | the idle wait issues WFI exactly when CORTEX_ENABLE_WFI_IDLE is on, and otherwise returns at once |
| PortConfig.DefaultsPreemptThroughNmi | os/rt/ports/ARMCMx/chcore_v6m.h:127-129 | by default the port preempts through the NMI, allows kernel priority 0 and never blocks when idle |
| Interrupts.IrqEnabled | os/rt/ports/ARMCMx/chcore_v6m.h:336-339 | a status word means "enabled" exactly when it is even, i.e. bit 0 is clear |
| Interrupts.IrqEnabledIgnoresUpperBits | os/rt/ports/ARMCMx/chcore_v6m.h:336-339 | two status words with the same bit 0 decode alike |
| Interrupts.ExceptionNumber | os/rt/ports/ARMCMx/chcore_v6m.h:348-351 | the ARMv6-M exception number is below 64 |
| Interrupts.Apply | os/rt/ports/ARMCMx/chcore_v6m.h:357-413 | after an operation interrupts are disabled exactly when it is a lock, lock-from-ISR, disable or suspend; PRIMASK stays 0 or 1 |
| Interrupts.RunIsLastOp | os/rt/ports/ARMCMx/chcore_v6m.h:357-413 | with no nesting count, after any non-empty sequence of critical-section operations the state is the one the last operation sets |
| Interrupts.LockUnlockRestores | os/rt/ports/ARMCMx/chcore_v6m.h:357-389 | lock then unlock (from thread or ISR) from the enabled state restores the enabled state |
| Interrupts.OneUnlockEnables | os/rt/ports/ARMCMx/chcore_v6m.h:357-369 | one unlock re-enables interrupts however many locks preceded it |
| Interrupts.Cpu.PortInit | os/rt/ports/ARMCMx/chcore_v6m.h:312-315 | port_init gives PendSV the level CORTEX_PRIORITY_PENDSV (line 83), which is always 0, the most urgent; PRIMASK and IPSR are untouched |
| Interrupts.Cpu.DisableIrq | os/rt/ports/ARMCMx/chcore_v6m.h:359 | `__disable_irq` sets PRIMASK.PM |
| Interrupts.Cpu.EnableIrq | os/rt/ports/ARMCMx/chcore_v6m.h:368 | `__enable_irq` clears PRIMASK.PM |
| Interrupts.Cpu.GetIrqStatus | os/rt/ports/ARMCMx/chcore_v6m.h:322-325 | the status word is PRIMASK, and it decodes as enabled exactly when PM is clear |
| Interrupts.Cpu.IsIsrContext | os/rt/ports/ARMCMx/chcore_v6m.h:348-351 | the 9-bit IPSR test is true exactly when the ARMv6-M exception number is non-zero, so false in Thread mode |
| Interrupts.Cpu.PortLock | os/rt/ports/ARMCMx/chcore_v6m.h:357-360 | disables interrupts; IPSR is untouched |
| Interrupts.Cpu.PortUnlock | os/rt/ports/ARMCMx/chcore_v6m.h:366-369 | enables interrupts |
| Interrupts.Cpu.PortLockFromIsr | os/rt/ports/ARMCMx/chcore_v6m.h:376-379 | the same as port_lock: disables interrupts |
| Interrupts.Cpu.PortUnlockFromIsr | os/rt/ports/ARMCMx/chcore_v6m.h:386-389 | the same as port_unlock: enables interrupts |
| Interrupts.Cpu.PortDisable | os/rt/ports/ARMCMx/chcore_v6m.h:394-397 | disables interrupts |
| Interrupts.Cpu.PortSuspend | os/rt/ports/ARMCMx/chcore_v6m.h:402-405 | disables interrupts (this port has no intermediate level) |
| Interrupts.Cpu.PortEnable | os/rt/ports/ARMCMx/chcore_v6m.h:410-413 | enables interrupts |

## Left out

- `_port_switch`, `_port_irq_epilogue`, `_port_switch_from_isr`, `_port_exit_from_isr`, `_port_thread_start` and `port_halt` (lines 295-300): only declared here, their assembly bodies are not part of this model; `_port_switch` and the halt appear only as outcomes of `PortSwitch`.
- `PORT_IRQ_PROLOGUE`/`PORT_IRQ_EPILOGUE` (lines 238-247): an inline-assembly capture of lr handed to `_port_irq_epilogue`; no behaviour to state without that routine.
- `PORT_IRQ_HANDLER` and `PORT_FAST_IRQ_HANDLER` (lines 254-261): function-declaration macros with no behaviour.
- `port_init` (lines 312-315): modelled as the write of PendSV's priority level; the NVIC register encoding behind `NVIC_SetPriority` is hardware and is not modelled.
- `port_wait_for_interrupt` (lines 423-428): the `WFI` instruction itself is hardware; only the choice of whether it is issued is modelled.
- The `systick.h` include (lines 284-286), interrupt arrival, preemption timing and concurrency in general: hardware behaviour, not sequential logic.
- The architecture and variant name strings (lines 40-60) and `CH_PORT_SUPPORTS_RT` (line 75): constants with no behaviour.
- Where `p_stklimit` is filled in and the layout of `thread_t`: defined outside this file, so they are a field and a parameter.
- ThreadContext.SetupContext: requires `wsize` to be a multiple of 4, at least 36 and within the workspace; the C macro has no check and writes out of bounds (or misaligned) otherwise, which the model does not represent.
- ThreadContext.SetupContext: `tp` is a separate `Thread` object outside the workspace array, although in the kernel the `thread_t` sits at the base of its working area, below the frame; so the store to `tp->p_ctx.r13` is not shown as a write into the workspace, and the non-overlap of `thread_t` and the frame is not stated.
- Interrupts.Cpu.IsIsrContext: assumes IPSR's reserved bits [31:6] read as zero, as ARMv6-M guarantees; the C test on bits [8:0] is not modelled for other values.
