/**
 * Register layout of a PCI type-0 configuration header as the passthrough
 * device model uses it: the macros of the ACRN header pci_priv.h, the BAR
 * descriptor and the physical device handle.
 *
 * pci_priv.h is not part of this model; the values below are the ones of
 * the PCI Local Bus Specification 3.0 (section 6.2.5.1 for the BAR layout,
 * section 3.2.2.3.2 for Configuration Mechanism #1) that its macros name.
 */
module PciRegs {

  /** Number of base address registers in a type-0 header (PCI_BAR_COUNT). */
  const PCI_BAR_COUNT: nat := 6

  /** Offset of BAR 0 in configuration space (PCIR_BARS). */
  const PCIR_BARS: bv32 := 0x10

  /** Offset of the command register (PCIR_COMMAND). */
  const PCIR_COMMAND: bv32 := 0x04

  /** Memory-space enable bit of the command register (PCIM_CMD_MEMEN). */
  const PCIM_CMD_MEMEN: bv32 := 0x0002

  /** BAR bit 0 is 0 for a memory BAR (PCIM_BAR_MEM_SPACE). */
  const PCIM_BAR_MEM_SPACE: bv32 := 0

  /** BAR bits 2:1 are 00 for a 32-bit memory BAR (PCIM_BAR_MEM_32). */
  const PCIM_BAR_MEM_32: bv32 := 0

  /** The base-address field of a memory BAR: everything above the 4 flag bits. */
  const PCIM_BAR_MEM_BASE: bv32 := 0xFFFF_FFF0

  /** Enable bit 31 of the CONFIG_ADDRESS word (PCI_CFG_ENABLE). */
  const PCI_CFG_ENABLE: bv32 := 0x8000_0000

  /** The host's CONFIG_ADDRESS and CONFIG_DATA I/O ports. */
  const PCI_CONFIG_ADDR: bv16 := 0xCF8
  const PCI_CONFIG_DATA: bv16 := 0xCFC

  /** One BAR slot: `base` is 0 when unmapped, `size` is fixed at discovery. */
  datatype Bar = Bar(base: bv32, size: bv32, kind: bv32)

  /** The physical function: its bus/device/function key and its physical BARs. */
  datatype PhysDevice = PhysDevice(bdf: bv16, bar: seq<Bar>)

  /** PCIR_BAR(i): configuration offset of BAR i. */
  function PcirBar(i: bv32): bv32
  {
    PCIR_BARS + i * 4
  }

  /** PCI_BAR_BASE(v): a BAR register value with its flag bits cleared. */
  function BarBase(v: bv32): (r: bv32)
    ensures r & 0xF == 0
    ensures r | (v & 0xF) == v
  {
    v & PCIM_BAR_MEM_BASE
  }

  /** PCI_BAR(base, type): the register value for a base and a type. */
  function BarValue(base: bv32, kind: bv32): bv32
  {
    base | kind
  }

  /** PCI_BUS(bdf): the bus number, the high byte of the key. */
  function PciBus(bdf: bv16): bv8
  {
    (bdf >> 8) as bv8
  }

  /** LOBYTE(bdf): device and function, the low byte of the key. */
  function LoByte(bdf: bv16): bv8
  {
    (bdf & 0xFF) as bv8
  }

  /** Width in bytes of the data-port access for a requested `bytes`:
      1 and 2 are served as such, every other value as a 4-byte access. */
  function AccessWidth(bytes: bv32): (w: nat)
    ensures w == 1 || w == 2 || w == 4
    ensures bytes == 4 ==> w == 4
  {
    if bytes == 1 then 1 else if bytes == 2 then 2 else 4
  }

  /** The part of `val` an access of that width carries: its low byte,
      its low 16 bits, or all of it. */
  function Truncate(val: bv32, bytes: bv32): bv32
  {
    if bytes == 1 then val & 0xFF else if bytes == 2 then val & 0xFFFF else val
  }
}
