/**
 * The physical configuration-port driver: PCI Configuration Mechanism #1
 * (PCI Local Bus Specification 3.0, section 3.2.2.3.2).  An access writes
 * an address word to CONFIG_ADDRESS (0xCF8) and then makes one data access
 * in the CONFIG_DATA window (0xCFC-0xCFF).  The host-wide lock held around
 * the pair is not modelled: each access is one atomic step.
 */
module PortIo {
  import opened PciRegs
  import opened Platform

  /** pci_pdev_calc_address: the CONFIG_ADDRESS word for a function and an offset. */
  function CalcAddress(bdf: bv16, offset: bv32): (addr: bv32)
    ensures addr & PCI_CFG_ENABLE == PCI_CFG_ENABLE
    ensures addr & 0xFF == offset & 0xFF
    ensures offset < 0x100 ==> (addr >> 8) & 0xFFFF == bdf as bv32
  {
    ((bdf as bv32) << 8) | (offset | PCI_CFG_ENABLE)
  }

  /** The CONFIG_DATA port a `bytes`-wide access at `offset` uses. */
  function DataPort(offset: bv32, bytes: bv32): (p: bv16)
    ensures PCI_CONFIG_DATA <= p <= PCI_CONFIG_DATA + 3
    ensures bytes == 2 ==> p == PCI_CONFIG_DATA || p == PCI_CONFIG_DATA + 2
    ensures bytes != 1 && bytes != 2 ==> p == PCI_CONFIG_DATA
  {
    if bytes == 1 then PCI_CONFIG_DATA + (offset & 3) as bv16
    else if bytes == 2 then PCI_CONFIG_DATA + (offset & 2) as bv16
    else PCI_CONFIG_DATA
  }

  /** What a data-port read of that width yields: pio_read8/16 zero-extend. */
  function PortValue(answer: bv32, bytes: bv32): (v: bv32)
    ensures bytes == 1 ==> v < 0x100
    ensures bytes == 2 ==> v < 0x1_0000
  {
    Truncate(answer, bytes)
  }

  /** The two port accesses of a configuration read. */
  function PortReadEvents(bdf: bv16, offset: bv32, bytes: bv32): seq<Event>
  {
    [PioWrite(PCI_CONFIG_ADDR, 4, CalcAddress(bdf, offset)),
     PioRead(DataPort(offset, bytes), AccessWidth(bytes))]
  }

  /** The two port accesses of a configuration write. */
  function PortWriteEvents(bdf: bv16, offset: bv32, bytes: bv32, val: bv32): seq<Event>
  {
    [PioWrite(PCI_CONFIG_ADDR, 4, CalcAddress(bdf, offset)),
     PioWrite(DataPort(offset, bytes), AccessWidth(bytes), Truncate(val, bytes))]
  }

  /** pci_pdev_read_cfg: `answer` is what the device drives on the data port. */
  method PdevReadCfg(pdev: PhysDevice, offset: bv32, bytes: bv32, answer: bv32)
    returns (val: bv32, events: seq<Event>)
    ensures events == PortReadEvents(pdev.bdf, offset, bytes)
    ensures val == PortValue(answer, bytes)
  {
    var addr := CalcAddress(pdev.bdf, offset);
    var port: bv16, width: nat;
    if bytes == 1 {
      port, width := PCI_CONFIG_DATA + (offset & 3) as bv16, 1;
      val := answer & 0xFF;
    } else if bytes == 2 {
      port, width := PCI_CONFIG_DATA + (offset & 2) as bv16, 2;
      val := answer & 0xFFFF;
    } else {
      port, width := PCI_CONFIG_DATA, 4;
      val := answer;
    }
    events := [PioWrite(PCI_CONFIG_ADDR, 4, addr), PioRead(port, width)];
  }

  /** pci_pdev_write_cfg: pio_write8/16 take only the low byte(s) of `val`. */
  method PdevWriteCfg(pdev: PhysDevice, offset: bv32, bytes: bv32, val: bv32)
    returns (events: seq<Event>)
    ensures events == PortWriteEvents(pdev.bdf, offset, bytes, val)
  {
    var addr := CalcAddress(pdev.bdf, offset);
    events := [PioWrite(PCI_CONFIG_ADDR, 4, addr)];
    if bytes == 1 {
      events := events + [PioWrite(PCI_CONFIG_DATA + (offset & 3) as bv16, 1, val & 0xFF)];
    } else if bytes == 2 {
      events := events + [PioWrite(PCI_CONFIG_DATA + (offset & 2) as bv16, 2, val & 0xFFFF)];
    } else {
      events := events + [PioWrite(PCI_CONFIG_DATA, 4, val)];
    }
  }

  /** The address word carries the fields of Configuration Mechanism #1:
      enable in bit 31, bits 30:24 reserved as 0, bus in 23:16, device in
      15:11, function in 10:8 and the register number in 7:2.  Bits 1:0,
      which the mechanism fixes at 00, carry `offset & 3`: the whole offset
      is ORed in, so a 1- or 2-byte access off a 4-byte boundary sets them. */
  lemma ConfigAddressFields(bdf: bv16, offset: bv32)
    requires offset < 0x100
    ensures var a := CalcAddress(bdf, offset);
      a >> 31 == 1 &&
      (a >> 24) & 0x7F == 0 &&
      (a >> 16) & 0xFF == PciBus(bdf) as bv32 &&
      (a >> 11) & 0x1F == (LoByte(bdf) >> 3) as bv32 &&
      (a >> 8) & 0x7 == (LoByte(bdf) & 0x7) as bv32 &&
      (a >> 2) & 0x3F == offset >> 2 &&
      a & 3 == offset & 3
  {
  }

  /** Every data access stays inside the 4-byte CONFIG_DATA window, and an
      aligned 1-, 2- or 4-byte access lands on byte lane `offset mod 4`. */
  lemma DataAccessInWindow(offset: bv32, bytes: bv32)
    ensures PCI_CONFIG_DATA <= DataPort(offset, bytes)
    ensures DataPort(offset, bytes) as int + AccessWidth(bytes) <= PCI_CONFIG_DATA as int + 4
    ensures (bytes == 1 || bytes == 2 || bytes == 4) && offset & (bytes - 1) == 0 ==>
              DataPort(offset, bytes) == PCI_CONFIG_DATA + (offset & 3) as bv16
  {
  }
}
