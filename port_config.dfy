/**
 * Build-time settings of the ARMv6-M port and the constants derived from
 * them: the preemption strategy selected by `CORTEX_ALTERNATE_SWITCH`, the
 * maximum kernel priority, the port information string and the idle wait.
 */
module PortConfig {
  import opened MachineWord

  /** The build-time options this port reads. */
  datatype Config = Config(
    alternateSwitch: bool,     // CORTEX_ALTERNATE_SWITCH
    enableWfiIdle: bool,       // CORTEX_ENABLE_WFI_IDLE
    idleThreadStackSize: Word, // CH_PORT_IDLE_THREAD_STACK_SIZE
    intRequiredStack: Word,    // CH_PORT_INT_REQUIRED_STACK
    stackCheck: bool)          // CH_DBG_ENABLE_STACK_CHECK, a kernel debug option

  /**
   * The values the port uses for every option the build leaves undefined;
   * the stack check is a kernel option with no default in this port.
   */
  function Defaults(stackCheck: bool): (cfg: Config)
    ensures !cfg.alternateSwitch && !cfg.enableWfiIdle
    ensures cfg.idleThreadStackSize == 16 && cfg.intRequiredStack == 32
    ensures cfg.stackCheck == stackCheck
  {
    Config(false, false, 16, 32, stackCheck)
  }

  /** The two mutually exclusive ways the port triggers a preemption. */
  datatype Preemption = ThroughNmi | ThroughPendSV

  function PreemptionOf(cfg: Config): (p: Preemption)
    ensures p == ThroughPendSV <==> cfg.alternateSwitch
  {
    if cfg.alternateSwitch then ThroughPendSV else ThroughNmi
  }

  /** `CORTEX_PRIORITY_PENDSV`: PendSV always runs at the highest level, 0. */
  const PriorityPendSV: nat := 0

  /**
   * `CORTEX_MAX_KERNEL_PRIORITY`, the most urgent priority (lowest number) an
   * interrupt handler that calls the kernel may use. Through PendSV, such
   * handlers sit one level below PendSV; through the NMI, which no priority
   * masks, every level is usable.
   */
  function MaxKernelPriority(cfg: Config): (p: nat)
    ensures PreemptionOf(cfg) == ThroughPendSV ==> p == PriorityPendSV + 1
    ensures PreemptionOf(cfg) == ThroughNmi ==> p == 0
  {
    if cfg.alternateSwitch then 1 else 0
  }

  /** `CH_PORT_INFO`: names the preemption mechanism the build selected. */
  function PortInfo(cfg: Config): (s: string)
    ensures s == "Preemption through NMI" <==> PreemptionOf(cfg) == ThroughNmi
    ensures s == "Preemption through PendSV" <==> PreemptionOf(cfg) == ThroughPendSV
  {
    if !cfg.alternateSwitch then "Preemption through NMI" else "Preemption through PendSV"
  }

  /** What `port_wait_for_interrupt` does on the processor. */
  datatype IdleAction = ExecuteWfi | ReturnAtOnce

  /**
   * `port_wait_for_interrupt`: a `WFI` instruction when the option is on,
   * otherwise an empty body that returns immediately.
   */
  function WaitForInterrupt(cfg: Config): (a: IdleAction)
    ensures a == ExecuteWfi <==> cfg.enableWfiIdle
    ensures a == ReturnAtOnce <==> !cfg.enableWfiIdle
  {
    if cfg.enableWfiIdle then ExecuteWfi else ReturnAtOnce
  }

  /** By default the idle path never blocks, and preemption uses the NMI. */
  lemma DefaultsPreemptThroughNmi(stackCheck: bool)
    ensures PortInfo(Defaults(stackCheck)) == "Preemption through NMI"
    ensures MaxKernelPriority(Defaults(stackCheck)) == 0
    ensures WaitForInterrupt(Defaults(stackCheck)) == ReturnAtOnce
  {
  }
}
