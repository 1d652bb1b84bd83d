/**
 * The pure decisions of the configuration-space dispatcher: the alignment
 * rule, the BAR window test and the BAR index, and reads of the shadow
 * configuration space.
 *
 * The shadow configuration space (pci_vdev_read_cfg, pci_vdev_write_cfg_u32)
 * is not part of this model; it is modelled as a map from configuration
 * offset (as a number) to the 32-bit word last stored there.
 */
module ConfigSpace {
  import opened PciRegs

  /** The alignment test of vdev_pt_cfgread/vdev_pt_cfgwrite. */
  function Misaligned(offset: bv32, bytes: bv32): (r: bool)
    ensures bytes == 1 ==> !r
    ensures bytes == 2 ==> (r <==> offset % 2 != 0)
    ensures bytes == 4 ==> (r <==> offset % 4 != 0)
  {
    offset & (bytes - 1) != 0
  }

  /** bar_access: the offset lies in the six BAR registers. */
  function BarAccess(coff: bv32): (r: bool)
    ensures r <==> 0x10 <= coff <= 0x27
  {
    PcirBar(0) <= coff < PcirBar(PCI_BAR_COUNT as bv32)
  }

  /** The BAR an offset in the BAR window belongs to. */
  function BarIndex(coff: bv32): (idx: bv32)
    requires BarAccess(coff)
    ensures idx < PCI_BAR_COUNT as bv32
  {
    (coff - PcirBar(0)) >> 2
  }

  /** A read of the shadow configuration space: the word last stored at
      `offset` (0 if none was), cut to the access width. */
  function ShadowRead(cfg: map<nat, bv32>, offset: bv32, bytes: bv32): (r: bv32)
    ensures offset as nat !in cfg ==> r == 0
    ensures bytes == 1 ==> r <= 0xFF
    ensures bytes == 2 ==> r <= 0xFFFF
    ensures offset as nat in cfg && bytes == 4 ==> r == cfg[offset as nat]
  {
    Truncate(if offset as nat in cfg then cfg[offset as nat] else 0, bytes)
  }

  /** A width of 0 makes `bytes - 1` wrap to all ones, so the alignment
      test passes only offset 0. */
  lemma ZeroWidthAlignment(offset: bv32)
    ensures !Misaligned(offset, 0) <==> offset == 0
  {
  }

  /** Every offset in the BAR window lies in the 4-byte register of the
      BAR BarIndex names. */
  lemma BarWindow(coff: bv32)
    ensures BarAccess(coff) ==>
      PcirBar(BarIndex(coff)) <= coff < PcirBar(BarIndex(coff)) + 4
  {
  }
}
