/**
 * The lifecycle of a passthrough device as functions of the VM's state:
 * the BAR type check, the get-or-create of the VM's IOMMU domain and EPT
 * root, the device attach, and the shadow BAR registers written by init.
 * PassThrough.PassthroughDevice.Init is proved against InitSpec.
 */
module Lifecycle {
  import opened PciRegs
  import opened Platform

  /** The fields of the VM that init reads and writes: vm->iommu (None for
      NULL) and vm->arch_vm.nworld_eptp (0 while not allocated). */
  datatype VmView = VmView(iommu: Option<Domain>, nworldEptp: bv64)

  /** What init returns, the VM state it leaves, the calls it makes, and
      whether it wrote the shadow BAR registers. */
  datatype InitOutcome = InitOutcome(ret: int, vm: VmView, events: seq<Event>, shadowed: bool)

  /** Every BAR is a 32-bit memory BAR: the check of vdev_pt_init_validate. */
  predicate AllMem32(bars: seq<Bar>)
  {
    forall i :: 0 <= i < |bars| ==> bars[i].kind == PCIM_BAR_MEM_32
  }

  /** The configuration offset of BAR i as a shadow-space key.  The shadow
      space is keyed by offsets as numbers, and stating PCIR_BAR(i) in
      integer arithmetic keeps the induction of BarImageAt free of
      bit-vector reasoning; PcirBarKey ties the two together. */
  function BarKey(i: nat): nat
  {
    PCIR_BARS as nat + 4 * i
  }

  /** PCIR_BAR(i) is that offset for every i up to PCI_BAR_COUNT. */
  lemma PcirBarKey(i: nat)
    requires i <= PCI_BAR_COUNT
    ensures PcirBar(i as bv32) as nat == BarKey(i)
  {
  }

  /** The IOMMU domain set-up of vdev_pt_init: when the VM has no domain,
      allocate the EPT root if it has none (alloc_paging_struct answers
      `allocRoot`), then create a domain over the root's host-physical
      address (`hva2hpa` stands for HVA2HPA; create_iommu_domain answers
      `created`, None for NULL). */
  function DomainSetup(vmId: nat, vm: VmView, allocRoot: bv64, hva2hpa: bv64 -> bv64,
                       created: Option<Domain>): (r: (VmView, seq<Event>))
    ensures vm.iommu.Some? ==> r == (vm, [])
    ensures vm.iommu.None? ==>
      r.0.iommu == created &&
      r.0.nworldEptp == (if vm.nworldEptp == 0 then allocRoot else vm.nworldEptp) &&
      |r.1| >= 1 && r.1[|r.1| - 1] == CreateIommuDomain(vmId, hva2hpa(r.0.nworldEptp), IOMMU_ADDR_WIDTH)
  {
    if vm.iommu.Some? then (vm, [])
    else
      var eptp := if vm.nworldEptp == 0 then allocRoot else vm.nworldEptp;
      var alloc := if vm.nworldEptp == 0 then [AllocPagingStruct] else [];
      (VmView(created, eptp), alloc + [CreateIommuDomain(vmId, hva2hpa(eptp), IOMMU_ADDR_WIDTH)])
  }

  /** vdev_pt_init as a function; assign_iommu_device answers `attachResult`. */
  function InitSpec(bars: seq<Bar>, bdf: bv16, vmId: nat, vm: VmView, allocRoot: bv64,
                    hva2hpa: bv64 -> bv64, created: Option<Domain>, attachResult: int): (r: InitOutcome)
    ensures r.shadowed <==> AllMem32(bars)
    ensures !r.shadowed ==> r.ret == -EINVAL && r.vm == vm && r.events == []
    ensures r.shadowed ==>
      (r.ret == attachResult && |r.events| >= 1 &&
       r.events[|r.events| - 1] == AssignIommuDevice(r.vm.iommu, PciBus(bdf), LoByte(bdf)))
  {
    if !AllMem32(bars) then InitOutcome(-EINVAL, vm, [], false)
    else
      var (vm', ev) := DomainSetup(vmId, vm, allocRoot, hva2hpa, created);
      InitOutcome(attachResult, vm', ev + [AssignIommuDevice(vm'.iommu, PciBus(bdf), LoByte(bdf))], true)
  }

  /** The shadow registers vdev_pt_init_bar_registers writes for the first
      |bars| BARs: PCI_BAR(base, type) at PCIR_BAR(i). */
  function BarImage(bars: seq<Bar>): (r: map<nat, bv32>)
    requires |bars| <= PCI_BAR_COUNT
    ensures forall i :: |bars| <= i ==> BarKey(i) !in r
  {
    if bars == [] then map[]
    else
      var last := |bars| - 1;
      BarImage(bars[..last])[BarKey(last) := BarValue(bars[last].base, bars[last].kind)]
  }

  /** BarImage holds exactly the registers of the BARs it was given, each
      with PCI_BAR(base, type). */
  lemma {:induction false} BarImageAt(bars: seq<Bar>)
    requires |bars| <= PCI_BAR_COUNT
    ensures forall k :: k in BarImage(bars) <==> exists i :: 0 <= i < |bars| && k == BarKey(i)
    ensures forall i :: 0 <= i < |bars| ==>
      BarKey(i) in BarImage(bars) && BarImage(bars)[BarKey(i)] == BarValue(bars[i].base, bars[i].kind)
  {
    if bars != [] {
      var last := |bars| - 1;
      BarImageAt(bars[..last]);
    }
  }

  /** Init shadows every BAR register and leaves every other offset of the
      shadow space as it was. */
  lemma InitShadowRegisters(cfg: map<nat, bv32>, bars: seq<Bar>)
    requires |bars| == PCI_BAR_COUNT
    ensures forall i :: 0 <= i < PCI_BAR_COUNT ==>
      BarKey(i) in cfg + BarImage(bars) &&
      (cfg + BarImage(bars))[BarKey(i)] == BarValue(bars[i].base, bars[i].kind)
    ensures forall k :: k in cfg && (k < 0x10 || 0x28 <= k || k % 4 != 0) ==> (cfg + BarImage(bars))[k] == cfg[k]
  {
    BarImageAt(bars);
  }

  /** A BAR of another type stops init with -EINVAL before it touches the
      VM, allocates, creates a domain, attaches or writes a register. */
  lemma InitRejectsNonMem32(bars: seq<Bar>, bdf: bv16, vmId: nat, vm: VmView, allocRoot: bv64,
                            hva2hpa: bv64 -> bv64, created: Option<Domain>, attachResult: int, i: nat)
    requires i < |bars| && bars[i].kind != PCIM_BAR_MEM_32
    ensures InitSpec(bars, bdf, vmId, vm, allocRoot, hva2hpa, created, attachResult)
            == InitOutcome(-EINVAL, vm, [], false)
  {
  }

  /** With every BAR of type MEM32, init returns the attach result and writes
      the shadow registers whatever that result is; it attaches the device
      to the VM's domain as its last call; it allocates a root only if the
      VM has neither domain nor root, creates a domain only if the VM has
      none, and never replaces an existing root or domain. */
  lemma InitGetOrCreate(bars: seq<Bar>, bdf: bv16, vmId: nat, vm: VmView, allocRoot: bv64,
                        hva2hpa: bv64 -> bv64, created: Option<Domain>, attachResult: int)
    requires AllMem32(bars)
    ensures var o := InitSpec(bars, bdf, vmId, vm, allocRoot, hva2hpa, created, attachResult);
      o.ret == attachResult && o.shadowed &&
      |o.events| >= 1 &&
      o.events[|o.events| - 1] == AssignIommuDevice(o.vm.iommu, PciBus(bdf), LoByte(bdf)) &&
      (AllocPagingStruct in o.events <==> vm.iommu.None? && vm.nworldEptp == 0) &&
      ((exists k :: 0 <= k < |o.events| && o.events[k].CreateIommuDomain?) <==> vm.iommu.None?) &&
      (vm.iommu.Some? ==> o.vm == vm) &&
      (vm.iommu.None? ==>
         (o.vm.iommu == created &&
          o.events[|o.events| - 2] == CreateIommuDomain(vmId, hva2hpa(o.vm.nworldEptp), IOMMU_ADDR_WIDTH))) &&
      (vm.nworldEptp != 0 ==> o.vm.nworldEptp == vm.nworldEptp) &&
      (vm.iommu.None? && vm.nworldEptp == 0 ==> o.vm.nworldEptp == allocRoot)
  {
    var o := InitSpec(bars, bdf, vmId, vm, allocRoot, hva2hpa, created, attachResult);
    if vm.iommu.None? {
      assert o.events[|o.events| - 2].CreateIommuDomain?;
    }
  }

  /** Once an init has created a domain for the VM, no later init for any
      device of that VM allocates a root or creates a domain again, and
      that device is attached to the same domain. */
  lemma RepeatedInitCreatesNoSecondDomain(
      bars: seq<Bar>, bdf: bv16, vmId: nat, vm: VmView, allocRoot: bv64,
      hva2hpa: bv64 -> bv64, created: Option<Domain>, attachResult: int,
      bars2: seq<Bar>, bdf2: bv16, allocRoot2: bv64, created2: Option<Domain>, attachResult2: int)
    requires AllMem32(bars) && created.Some?
    ensures var o1 := InitSpec(bars, bdf, vmId, vm, allocRoot, hva2hpa, created, attachResult);
      var o2 := InitSpec(bars2, bdf2, vmId, o1.vm, allocRoot2, hva2hpa, created2, attachResult2);
      o2.vm == o1.vm &&
      (forall k :: 0 <= k < |o2.events| ==> !o2.events[k].CreateIommuDomain? && !o2.events[k].AllocPagingStruct?) &&
      (o2.shadowed ==> o2.events == [AssignIommuDevice(o1.vm.iommu, PciBus(bdf2), LoByte(bdf2))])
  {
  }
}
