/**
 * 32-bit machine quantities of the ARMv6-M port: `size_t`, pointers and the
 * generic register type `regarm_t` are all 32 bits wide on this architecture.
 * They are modelled as unbounded integers restricted to [0, 2^32), and every
 * operation that can leave that range wraps explicitly, as unsigned C
 * arithmetic does.
 */
module MachineWord {

  /** 2^32: the number of distinct 32-bit values. */
  const WordModulus: int := 0x1_0000_0000

  /** An unsigned 32-bit value (`size_t`, an address, a register). */
  type Word = x: int | 0 <= x < WordModulus

  /** Unsigned 32-bit wrap-around of an integer result. */
  function Wrap(x: int): (w: Word)
    ensures 0 <= x < WordModulus ==> w == x
    ensures (w - x) % WordModulus == 0
  {
    x % WordModulus
  }

  /** Size in bytes of `regarm_t` (a `void *` on ARMv6-M). */
  const RegSize: nat := 4
}
