# Passthrough PCI device emulation of the ACRN hypervisor, in Dafny

This project models `hypervisor/dm/vpci/pci_pt.c`, the configuration-space
emulation ACRN uses for a PCI device passed through to a guest. The model
covers the file's four parts:

- **Physical port driver** (`PortIo`). `pci_pdev_calc_address`,
  `pci_pdev_read_cfg` and `pci_pdev_write_cfg` implement PCI Configuration
  Mechanism #1 (PCI Local Bus Specification 3.0, section 3.2.2.3.2). Each
  access is one 4-byte write of the address word to CONFIG_ADDRESS, then
  one 1-, 2- or 4-byte access in the CONFIG_DATA window.
- **Dispatcher** (`ConfigSpace`, plus `CfgRead`/`CfgWrite` in
  `PassThrough`). It rejects misaligned accesses. It serves the six BAR
  registers (section 6.2.5.1 of the same specification) from the shadow
  configuration space. Every other access goes to the physical device.
- **BAR reprogram engine** (`BarEngine`, plus `CfgWriteBar`, `RemapBar` and
  `MemEn`). It decodes the written value through the BAR size mask, drops
  writes that keep the base, and moves the guest's EPT window when memory
  decode is on and the write is not a sizing probe.
- **Lifecycle** (`Lifecycle`, plus `InitValidate`, `InitBarRegisters`,
  `Init` and `Deinit`). Init checks that every BAR is a 32-bit memory BAR.
  It creates the VM's IOMMU domain (and EPT root) if the VM has none yet,
  attaches the device, and fills the shadow BAR registers.

`PassThrough.PassthroughDevice` is the device record (`struct pci_vdev`). Its
BAR descriptors are an `array<Bar>` and its shadow configuration space is
a `map` field, both updated in place. `PassThrough.Vm` holds the VM id and
the two VM fields that init updates: the IOMMU domain and the EPT root.

Each method returns the calls it makes into port I/O, the EPT and the
IOMMU, in order, as a list of `Event`s. Whatever those calls answer is a
parameter of the method: the value the device drives on the data port,
the command register, the EPT and IOMMU result codes, the allocated root,
the created domain, and HVA2HPA. The methods are proved equal to
value-level functions: `WriteBar`, `RemapSpec`, `InitSpec`, `BarImage` and
the port event lists. The lemmas state the properties the code promises
about those functions.

The macros of `pci_priv.h` are not part of this model. Their values are
taken from the PCI specification:

- `PCIR_BAR(i) = 0x10 + 4*i` and `PCI_BAR_COUNT = 6`;
- `PCIR_COMMAND = 4` and `PCIM_CMD_MEMEN = 2`;
- `PCIM_BAR_MEM_SPACE = PCIM_BAR_MEM_32 = 0`;
- `PCI_BAR_BASE(v) = v & 0xFFFFFFF0` and `PCI_BAR(base, type) = base | type`;
- `PCI_CFG_ENABLE = 0x80000000`, CONFIG_ADDRESS 0xCF8 and CONFIG_DATA 0xCFC.

EPT_RD, EPT_WR and EPT_UNCACHED are 1, 2 and 0, following the Intel SDM
EPT entry layout.

Three behaviours of the code are easy to miss, and the model states each
of them:

- **Init after a failed attach.** `vdev_pt_init` writes the shadow BAR
  registers even when `assign_iommu_device` fails (pci_pt.c:154-159). See
  `InitGetOrCreate`.
- **Probe writes.** A probe write (all ones) whose decoded base differs from
  the current base still sets `bar[idx].base` to that decoded base. Only the
  remap is skipped (pci_pt.c:247-264). See `ProbeNeverRemaps`.
- **Port access on BAR writes.** A BAR write that changes the base reads the
  physical command register through the port driver (pci_pt.c:232, 255).
  See `WriteBarReadsOnlyCommand`.

A consequence of the probe behaviour follows. A BAR mapped at 0x80000000 is
probed, which moves its base to the size mask 0xFFFF0000 while the EPT
still maps 0x80000000. A later move then deletes a window at 0xFFFF0000
and leaves the old mapping in place. `ProbeThenMoveScenario` states this.

## Model

| member | source | states |
|---|---|---|
| PortIo.CalcAddress | hypervisor/dm/vpci/pci_pt.c:43-51 | the address word always has the enable bit set and carries the register offset in its low byte; for offsets below 0x100 it carries the bus/device/function key in bits 23:8 |
| PortIo.ConfigAddressFields | hypervisor/dm/vpci/pci_pt.c:43-51 | for offsets below 0x100 the address word follows the Configuration Mechanism #1 layout (enable bit 31, reserved bits 30:24 zero, bus, device and function fields from the key, register number offset >> 2 in bits 7:2) except that bits 1:0, which the mechanism fixes at 00, carry offset & 3 |
| PortIo.PortValue | hypervisor/dm/vpci/pci_pt.c:67-77 | a 1-byte read yields a value below 0x100, a 2-byte read a value below 0x10000 (pio_read8/16 zero-extend) |
| PortIo.PdevReadCfg | hypervisor/dm/vpci/pci_pt.c:53-81 | a physical read is exactly one 4-byte write of the address word to 0xCF8, then one read of the access width at 0xCFC+(offset&3) for 1 byte, 0xCFC+(offset&2) for 2 bytes, 0xCFC otherwise; the result is the data-port value at that width |
| PortIo.PdevWriteCfg | hypervisor/dm/vpci/pci_pt.c:83-108 | a physical write is exactly the address write, then one data write at the same port and width carrying the low byte, low 16 bits or all of the value |
| PortIo.DataAccessInWindow | hypervisor/dm/vpci/pci_pt.c:67-77 | every data access stays inside the 4-byte CONFIG_DATA window, and an aligned 1-, 2- or 4-byte access lands on byte lane offset mod 4 |
| PortIo.DataPort | hypervisor/dm/vpci/pci_pt.c:67-77 | the data port is always one of 0xCFC-0xCFF; a 2-byte access uses 0xCFC or 0xCFE, and any width other than 1 or 2 uses 0xCFC |
| ConfigSpace.Misaligned | hypervisor/dm/vpci/pci_pt.c:186 | the misalignment test never rejects a 1-byte access, and rejects a 2- or 4-byte access exactly when the offset is not a multiple of the width |
| ConfigSpace.BarAccess | hypervisor/dm/vpci/pci_pt.c:173-180 | bar_access holds exactly for offsets 0x10 to 0x27, the six BAR registers |
| ConfigSpace.ShadowRead | hypervisor/dm/vpci/pci_pt.c:193 | a shadow read of a never-written offset yields 0; a 1-byte read is at most 0xFF, a 2-byte read at most 0xFFFF; a 4-byte read returns the stored word |
| ConfigSpace.BarIndex | hypervisor/dm/vpci/pci_pt.c:245 | an offset in the BAR window names one of the six BARs |
| ConfigSpace.BarWindow | hypervisor/dm/vpci/pci_pt.c:173-180 | each offset in the BAR window lies in the 4-byte register of the BAR its index names |
| ConfigSpace.ZeroWidthAlignment | hypervisor/dm/vpci/pci_pt.c:186-189 | for a width of 0, bytes - 1 wraps to all ones and the alignment test passes only offset 0 |
| BarEngine.RemapSpec | hypervisor/dm/vpci/pci_pt.c:201-228 | the remap makes at most two calls, all of them EPT edits, and returns 0 or the result of one of them |
| BarEngine.WriteBar | hypervisor/dm/vpci/pci_pt.c:236-265 | a BAR write keeps six BARs and never changes any BAR's size or type; it makes no call exactly when it leaves the state unchanged |
| BarEngine.NewBaseAligned | hypervisor/dm/vpci/pci_pt.c:246-249 | the decoded base has no bit set below the BAR size or in the four flag bits, and never exceeds the value written |
| BarEngine.ProbeReadsBackSize | hypervisor/dm/vpci/pci_pt.c:246-249 | for a power-of-two size of at least 16, an all-ones write produces the size mask, from which ~(value & ~0xF) + 1 recovers the size |
| BarEngine.RemapOrder | hypervisor/dm/vpci/pci_pt.c:201-228 | at most one delete and one add; the delete is issued exactly when the old base is non-zero, at the old base and size, and comes first; the add is issued exactly when the new base is non-zero and no delete failed, and maps the physical base at the new base for the BAR size, read/write/uncached; the error returned is the failing call's, and 0 when no call fails or none is made |
| BarEngine.SameBaseWriteIsNoop | hypervisor/dm/vpci/pci_pt.c:245-253 | a write whose decoded base equals the current base changes no state and makes no call, not even the command-register read |
| BarEngine.WriteBarNewState | hypervisor/dm/vpci/pci_pt.c:263-264 | any other write sets its own BAR's base to the decoded base and stores the new register value at the written offset; no other BAR, size, type or shadow offset changes |
| BarEngine.WriteBarKeepsAlignment | hypervisor/dm/vpci/pci_pt.c:245-264 | if every BAR base is aligned to its size before a BAR write, every base is aligned after it |
| BarEngine.RemapGate | hypervisor/dm/vpci/pci_pt.c:255-261 | the EPT is edited only if the base changes, the physical command register has MEMEN set and the value is not all ones; then the edits are exactly those of the remap |
| BarEngine.WriteBarReadsOnlyCommand | hypervisor/dm/vpci/pci_pt.c:251-261 | a BAR write makes no call exactly when it keeps the base; otherwise its only port traffic is one 2-byte read of the physical command register, first, and every later call is an EPT edit |
| BarEngine.ProbeNeverRemaps | hypervisor/dm/vpci/pci_pt.c:247-264 | an all-ones write never edits the EPT, yet moves the base to the size mask whenever that differs from the current base |
| BarEngine.WriteThenRead | hypervisor/dm/vpci/pci_pt.c:263 | a 4-byte read of the written offset returns the new register value, or the old contents when the write changed nothing |
| BarEngine.ReprogramScenario | hypervisor/dm/vpci/pci_pt.c:236-265 | an unmapped 64 KiB BAR 0 at physical 0xF0000000, with decode on, written 0x80000000: one command read, one EPT add of 0xF0000000 at 0x80000000, no delete, and the register reads back 0x80000000 |
| BarEngine.ProbeThenMoveScenario | hypervisor/dm/vpci/pci_pt.c:247-264 | probing that BAR at 0x80000000 makes no EPT call and moves the base to 0xFFFF0000; moving it to 0x90000000 afterwards deletes at 0xFFFF0000, not at 0x80000000 |
| Lifecycle.PcirBarKey | hypervisor/dm/vpci/pci_pt.c:129 | PCIR_BAR(i) is the offset 0x10 + 4i for each of the six BARs and the end of the window |
| Lifecycle.BarImage | hypervisor/dm/vpci/pci_pt.c:123-132 | the registers written for the first n BARs include no register of a later BAR |
| Lifecycle.DomainSetup | hypervisor/dm/vpci/pci_pt.c:145-152 | a VM with a domain is left alone with no call; otherwise the VM gets the created domain, its root becomes the allocated one exactly when it had none, and the last call creates the domain over that root's host-physical address with a 48-bit width |
| Lifecycle.InitSpec | hypervisor/dm/vpci/pci_pt.c:134-160 | init writes the shadow BARs exactly when every BAR is a 32-bit memory BAR; otherwise it returns -EINVAL with the VM unchanged and no call; when it proceeds it returns the attach result and its last call is the attach |
| Lifecycle.BarImageAt | hypervisor/dm/vpci/pci_pt.c:123-132 | the registers the init loop writes are exactly PCIR_BAR(i) of the BARs given, each holding PCI_BAR(base, type) |
| Lifecycle.InitShadowRegisters | hypervisor/dm/vpci/pci_pt.c:123-132 | after init every BAR register i holds PCI_BAR(bar[i].base, bar[i].type) and every offset outside the BAR registers keeps its contents |
| Lifecycle.InitRejectsNonMem32 | hypervisor/dm/vpci/pci_pt.c:139-143 | if any BAR is not a 32-bit memory BAR, init returns -EINVAL, leaves the VM unchanged, makes no call and writes no register |
| Lifecycle.InitGetOrCreate | hypervisor/dm/vpci/pci_pt.c:145-159 | with all BARs valid, init returns the attach result and shadows the BARs whatever it is; its last call attaches the device to the VM's domain; a root is allocated exactly when the VM has neither domain nor root, a domain created exactly when it has none, an allocated root becomes the VM's root, and an existing root or domain is never replaced |
| Lifecycle.RepeatedInitCreatesNoSecondDomain | hypervisor/dm/vpci/pci_pt.c:145-155 | after an init that created a domain, a second init in the same VM allocates nothing, creates no domain and attaches to the same domain |
| PassThrough.PassthroughDevice.WriteCfgU32 | hypervisor/dm/vpci/pci_pt.c:263 | a shadow write stores the word at that offset and changes no other offset |
| PassThrough.PassthroughDevice.InitValidate | hypervisor/dm/vpci/pci_pt.c:110-121 | returns 0 exactly when all six BARs are 32-bit memory BARs, and -EINVAL otherwise |
| PassThrough.PassthroughDevice.InitBarRegisters | hypervisor/dm/vpci/pci_pt.c:123-132 | the shadow space becomes the old one overlaid with PCI_BAR(base, type) at every PCIR_BAR(i) |
| PassThrough.PassthroughDevice.Init | hypervisor/dm/vpci/pci_pt.c:134-160 | result, calls and new VM domain and root are those of InitSpec on the VM's old state; the shadow BARs are written exactly when validation passes |
| PassThrough.PassthroughDevice.Deinit | hypervisor/dm/vpci/pci_pt.c:162-171 | the only call is the unassign of the device's bus and devfn from the VM's domain, and its result is returned |
| PassThrough.PassthroughDevice.CfgRead | hypervisor/dm/vpci/pci_pt.c:182-199 | a misaligned read yields 0xFFFFFFFF and -EINVAL with no call; an aligned BAR read returns the shadow contents at that width with no port access; any other aligned read is one physical read; aligned reads return 0 |
| PassThrough.PassthroughDevice.RemapBar | hypervisor/dm/vpci/pci_pt.c:201-228 | error and EPT calls are those of RemapSpec for the BAR's current descriptor, its physical base and the VM's EPT root |
| PassThrough.PassthroughDevice.MemEn | hypervisor/dm/vpci/pci_pt.c:230-234 | one 2-byte physical read of the command register; the result is non-zero exactly when the device answers with MEMEN set |
| PassThrough.PassthroughDevice.CfgWriteBar | hypervisor/dm/vpci/pci_pt.c:236-265 | new BAR descriptors, shadow space and calls are those of WriteBar on the old state, whatever the remap returns; BAR alignment is preserved |
| PassThrough.PassthroughDevice.CfgWrite | hypervisor/dm/vpci/pci_pt.c:267-284 | a misaligned write returns -EINVAL and changes and calls nothing; an aligned non-BAR write is one physical write and leaves BARs and shadow space unchanged; an aligned BAR write is WriteBar; aligned writes return 0 |

## Left out

- The host-wide `pci_device_lock` around each physical access is not modelled (pci_pt.c:40, 59, 78, 88, 107). It only serves concurrency, so each address-then-data pair is one atomic step.
- `pio_write`, `pio_read8/16/32` are foreign port I/O. Each call is an `Event`, and the value a read returns is a parameter.
- `ept_mr_add`, `ept_mr_del`, `create_iommu_domain`, `assign_iommu_device`, `unassign_iommu_device`, `alloc_paging_struct` and `HVA2HPA` are not part of this model. Each is an `Event` whose answer is a parameter; HVA2HPA is a function parameter.
- `pci_vdev_read_cfg` and `pci_vdev_write_cfg_u32` are not part of this model. The shadow space is a map from offset to the 32-bit word last stored at that offset, and a read returns that word cut to the access width (0 if nothing was stored). So a 1- or 2-byte read inside a word stored at another offset (for example offset 0x11 after a store at 0x10) is not modelled. Writes lose the same overlap: a 1- or 2-byte BAR write at an offset that is not a multiple of 4 (for example 0x13) stores the whole new 32-bit register value under that one key, where `pci_vdev_write_cfg_u32` (pci_pt.c:263) would write four bytes from 0x13 and reach into the next BAR's register at 0x14. So WriteBarNewState's "no other shadow offset changes" holds for the map, not for a byte image of the configuration space.
- `pr_err` logging (pci_pt.c:141, 259) has no effect on state and is left out. A failed remap is ignored in the same way.
- The `pci_ops_vdev_pt` ops table (pci_pt.c:286-291) is wiring only. Its four entries are `Init`, `Deinit`, `CfgRead` and `CfgWrite`.
- BAR base and size are 32-bit (`bv32`), as the code requires: validation rejects every BAR that is not a 32-bit memory BAR.
- PortIo.CalcAddress: the bus/device/function field is stated only for offsets below 0x100, the range of a type-0 header. For larger offsets the code ORs offset bits into that field, and the model computes exactly that.
- VM fields other than the VM id, the IOMMU domain and the EPT root are left out; this file reads no others.
