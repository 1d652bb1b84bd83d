/**
 * The passthrough PCI device of hypervisor/dm/vpci/pci_pt.c: the device
 * record with its six BAR descriptors and its shadow configuration space,
 * the owning VM's IOMMU domain and EPT root, and the operations of the
 * device's ops table (init, deinit, cfgread, cfgwrite) with the helpers
 * they call.
 *
 * Each operation returns, as `events`, the calls it made into port I/O,
 * the EPT and the IOMMU, in order; what those calls answer is passed in.
 */
module PassThrough {
  import opened PciRegs
  import opened Platform
  import opened PortIo
  import opened ConfigSpace
  import opened BarEngine
  import opened Lifecycle

  /** The fields of `struct vm` the device model reads and writes. */
  class Vm {
    const vmId: nat
    var iommu: Option<Domain>
    var nworldEptp: bv64

    constructor (vmId: nat, iommu: Option<Domain>, nworldEptp: bv64)
      ensures this.vmId == vmId && this.iommu == iommu && this.nworldEptp == nworldEptp
    {
      this.vmId := vmId;
      this.iommu := iommu;
      this.nworldEptp := nworldEptp;
    }

    function View(): VmView
      reads this
    {
      VmView(iommu, nworldEptp)
    }
  }

  /** `struct pci_vdev` of a passthrough device: the physical function, the
      owning VM, the guest-visible BAR descriptors and the shadow
      configuration space. */
  class PassthroughDevice {
    const pdev: PhysDevice
    const vm: Vm
    const bar: array<Bar>
    var cfg: map<nat, bv32>

    ghost predicate Valid()
    {
      bar.Length == PCI_BAR_COUNT && |pdev.bar| == PCI_BAR_COUNT
    }

    /** The BAR descriptors and the shadow space as one value. */
    ghost function State(): ShadowState
      reads this, bar
    {
      ShadowState(bar[..], cfg)
    }

    constructor (pdev: PhysDevice, vm: Vm, bars: seq<Bar>)
      requires |pdev.bar| == PCI_BAR_COUNT && |bars| == PCI_BAR_COUNT
      ensures Valid() && fresh(bar)
      ensures this.pdev == pdev && this.vm == vm && bar[..] == bars && cfg == map[]
    {
      this.pdev := pdev;
      this.vm := vm;
      this.bar := new Bar[PCI_BAR_COUNT](i requires 0 <= i < PCI_BAR_COUNT => bars[i]);
      this.cfg := map[];
    }

    /** pci_vdev_write_cfg_u32: store a 32-bit word in the shadow space. */
    method WriteCfgU32(offset: bv32, val: bv32)
      modifies this
      ensures cfg == old(cfg)[offset as nat := val]
    {
      cfg := cfg[offset as nat := val];
    }

    /** vdev_pt_init_validate: 0 exactly when every BAR is a 32-bit memory BAR. */
    method InitValidate() returns (ret: int)
      requires Valid()
      ensures ret == 0 || ret == -EINVAL
      ensures ret == 0 <==> AllMem32(bar[..])
    {
      var idx := 0;
      while idx < PCI_BAR_COUNT
        invariant 0 <= idx <= PCI_BAR_COUNT
        invariant forall i :: 0 <= i < idx ==> bar[i].kind == PCIM_BAR_MEM_32
      {
        if bar[idx].kind != PCIM_BAR_MEM_32 {
          return -EINVAL;
        }
        idx := idx + 1;
      }
      return 0;
    }

    /** vdev_pt_init_bar_registers: PCI_BAR(base, type) into every BAR register. */
    method InitBarRegisters()
      requires Valid()
      modifies this
      ensures cfg == old(cfg) + BarImage(bar[..])
    {
      var idx := 0;
      while idx < PCI_BAR_COUNT
        invariant 0 <= idx <= PCI_BAR_COUNT
        invariant cfg == old(cfg) + BarImage(bar[..idx])
      {
        PcirBarKey(idx);
        WriteCfgU32(PcirBar(idx as bv32), BarValue(bar[idx].base, bar[idx].kind));
        assert bar[..idx + 1][..idx] == bar[..idx];
        idx := idx + 1;
      }
      assert bar[..idx] == bar[..];
    }

    /** vdev_pt_init.  alloc_paging_struct answers `allocRoot`, HVA2HPA is
        `hva2hpa`, create_iommu_domain answers `created` and
        assign_iommu_device answers `attachResult`. */
    method Init(allocRoot: bv64, hva2hpa: bv64 -> bv64, created: Option<Domain>, attachResult: int)
      returns (ret: int, events: seq<Event>)
      requires Valid()
      modifies this, vm
      ensures var o := InitSpec(bar[..], pdev.bdf, vm.vmId, old(vm.View()), allocRoot, hva2hpa, created, attachResult);
        ret == o.ret && events == o.events && vm.View() == o.vm &&
        cfg == (if o.shadowed then old(cfg) + BarImage(bar[..]) else old(cfg))
    {
      ret := InitValidate();
      if ret != 0 {
        return ret, [];
      }

      events := [];
      if vm.iommu.None? {
        if vm.nworldEptp == 0 {
          vm.nworldEptp := allocRoot;
          events := events + [AllocPagingStruct];
        }
        vm.iommu := created;
        events := events + [CreateIommuDomain(vm.vmId, hva2hpa(vm.nworldEptp), IOMMU_ADDR_WIDTH)];
      }

      ret := attachResult;
      events := events + [AssignIommuDevice(vm.iommu, PciBus(pdev.bdf), LoByte(pdev.bdf))];

      InitBarRegisters();
    }

    /** vdev_pt_deinit: only the detach, whose result it returns. */
    method Deinit(unassignResult: int) returns (ret: int, events: seq<Event>)
      ensures ret == unassignResult
      ensures events == [UnassignIommuDevice(vm.iommu, PciBus(pdev.bdf), LoByte(pdev.bdf))]
    {
      ret := unassignResult;
      events := [UnassignIommuDevice(vm.iommu, PciBus(pdev.bdf), LoByte(pdev.bdf))];
    }

    /** vdev_pt_cfgread: `answer` is what the device drives on the data port. */
    method CfgRead(offset: bv32, bytes: bv32, answer: bv32) returns (ret: int, val: bv32, events: seq<Event>)
      ensures Misaligned(offset, bytes) ==> ret == -EINVAL && val == 0xFFFF_FFFF && events == []
      ensures !Misaligned(offset, bytes) ==> ret == 0
      ensures !Misaligned(offset, bytes) && BarAccess(offset) ==>
        events == [] && val == ShadowRead(cfg, offset, bytes)
      ensures !Misaligned(offset, bytes) && !BarAccess(offset) ==>
        events == PortReadEvents(pdev.bdf, offset, bytes) && val == PortValue(answer, bytes)
    {
      if offset & (bytes - 1) != 0 {
        return -EINVAL, 0xFFFF_FFFF, [];
      }

      if BarAccess(offset) {
        val := ShadowRead(cfg, offset, bytes);
        events := [];
      } else {
        val, events := PdevReadCfg(pdev, offset, bytes, answer);
      }
      ret := 0;
    }

    /** vdev_pt_remap_bar: move BAR idx's EPT window to `newBase`.
        ept_mr_del answers `delResult`, ept_mr_add answers `addResult`. */
    method RemapBar(idx: nat, newBase: bv32, delResult: int, addResult: int) returns (error: int, events: seq<Event>)
      requires Valid() && idx < PCI_BAR_COUNT
      ensures (error, events) == RemapSpec(bar[idx], pdev.bar[idx].base, vm.nworldEptp, newBase, delResult, addResult)
    {
      error, events := 0, [];
      if bar[idx].base != 0 {
        error := delResult;
        events := [EptMrDel(vm.nworldEptp, bar[idx].base, bar[idx].size)];
        if error != 0 {
          return;
        }
      }

      if newBase != 0 {
        error := addResult;
        events := events + [EptMrAdd(vm.nworldEptp, pdev.bar[idx].base, newBase, bar[idx].size,
                                     EPT_WR | EPT_RD | EPT_UNCACHED)];
        if error != 0 {
          return;
        }
      }
    }

    /** memen: the memory-decode bit of the physical command register. */
    method MemEn(answer: bv32) returns (en: bv32, events: seq<Event>)
      ensures events == PortReadEvents(pdev.bdf, PCIR_COMMAND, 2)
      ensures en != 0 <==> answer & PCIM_CMD_MEMEN != 0
      ensures en == PortValue(answer, 2) & PCIM_CMD_MEMEN
    {
      var cmd;
      cmd, events := PdevReadCfg(pdev, PCIR_COMMAND, 2, answer);
      en := cmd & PCIM_CMD_MEMEN;
    }

    /** vdev_pt_cfgwrite_bar.  `bytes` is not used: the whole new register
        value is stored at `offset`.  The command register answers
        `cmdAnswer`; a remap error is only logged. */
    method CfgWriteBar(offset: bv32, bytes: bv32, newBarUos: bv32, cmdAnswer: bv32, delResult: int, addResult: int)
      returns (events: seq<Event>)
      requires Valid() && BarAccess(offset)
      modifies this, bar
      ensures (State(), events) ==
              WriteBar(old(State()), pdev, vm.nworldEptp, offset, newBarUos, cmdAnswer, delResult, addResult)
      ensures BasesAligned(old(bar[..])) ==> BasesAligned(bar[..])
    {
      ghost var s := State();
      var idx := BarIndex(offset);
      var barUpdateNormal := newBarUos != PROBE;
      var newBar := NewBarValue(newBarUos, bar[idx].size);

      if BarBase(newBar) == bar[idx].base {
        return [];
      }

      var en;
      en, events := MemEn(cmdAnswer);
      var doMap := en != 0 && barUpdateNormal;
      if doMap {
        var error, remapEvents := RemapBar(idx as nat, BarBase(newBar), delResult, addResult);
        events := events + remapEvents;
      }
      assert events == WriteBar(s, pdev, vm.nworldEptp, offset, newBarUos, cmdAnswer, delResult, addResult).1;

      WriteCfgU32(offset, newBar);
      bar[idx] := bar[idx].(base := BarBase(newBar));
      assert State().bars == s.bars[idx := s.bars[idx].(base := BarBase(newBar))];
      if BasesAligned(s.bars) {
        WriteBarKeepsAlignment(s, pdev, vm.nworldEptp, offset, newBarUos, cmdAnswer, delResult, addResult);
      }
    }

    /** vdev_pt_cfgwrite: misaligned writes fail, BAR writes go to the BAR
        engine, all others to the physical device. */
    method CfgWrite(offset: bv32, bytes: bv32, val: bv32, cmdAnswer: bv32, delResult: int, addResult: int)
      returns (ret: int, events: seq<Event>)
      requires Valid()
      modifies this, bar
      ensures Misaligned(offset, bytes) ==> ret == -EINVAL && events == [] && State() == old(State())
      ensures !Misaligned(offset, bytes) ==> ret == 0
      ensures !Misaligned(offset, bytes) && !BarAccess(offset) ==>
        events == PortWriteEvents(pdev.bdf, offset, bytes, val) && State() == old(State())
      ensures !Misaligned(offset, bytes) && BarAccess(offset) ==>
        (State(), events) == WriteBar(old(State()), pdev, vm.nworldEptp, offset, val, cmdAnswer, delResult, addResult)
    {
      if offset & (bytes - 1) != 0 {
        return -EINVAL, [];
      }

      if BarAccess(offset) {
        events := CfgWriteBar(offset, bytes, val, cmdAnswer, delResult, addResult);
      } else {
        events := PdevWriteCfg(pdev, offset, bytes, val);
      }
      ret := 0;
    }
  }
}
