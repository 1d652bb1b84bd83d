/**
 * The BAR reprogram engine as a function of the device's shadow state:
 * what a guest write to a BAR register does to the six BAR descriptors,
 * to the shadow configuration space and to the guest's EPT.
 * The methods of PassThrough.PassthroughDevice are proved against it.
 */
module BarEngine {
  import opened PciRegs
  import opened Platform
  import opened PortIo
  import opened ConfigSpace

  /** The guest-visible BAR state of one device: the six BAR descriptors
      (vdev->bar) and the shadow configuration space. */
  datatype ShadowState = ShadowState(bars: seq<Bar>, cfg: map<nat, bv32>)

  /** The all-ones value a guest writes to size a BAR. */
  const PROBE: bv32 := 0xFFFF_FFFF

  /** The EPT permissions and memory type of a BAR window. */
  const BAR_PROT: bv64 := EPT_WR | EPT_RD | EPT_UNCACHED

  /** The address bits a BAR of that size decodes: ~(size - 1). */
  function SizeMask(size: bv32): bv32
  {
    !(size - 1)
  }

  /** The register value a guest write of `val` becomes (new_bar). */
  function NewBarValue(val: bv32, size: bv32): bv32
  {
    (val & SizeMask(size)) | PCIM_BAR_MEM_SPACE | PCIM_BAR_MEM_32
  }

  /** A BAR whose base has no bit set below its size. */
  predicate Aligned(b: Bar)
  {
    b.base & (b.size - 1) == 0
  }

  predicate BasesAligned(bars: seq<Bar>)
  {
    forall i :: 0 <= i < |bars| ==> Aligned(bars[i])
  }

  /** A power of two, as a bit pattern. */
  predicate IsPow2(size: bv32)
  {
    size != 0 && size & (size - 1) == 0
  }

  /** vdev_pt_remap_bar as a function of the old descriptor `vbar`, the
      physical base `hpa`, the EPT root and the new base: the error it
      returns and the EPT calls it makes, given what ept_mr_del and
      ept_mr_add answer. */
  function RemapSpec(vbar: Bar, hpa: bv32, root: bv64, newBase: bv32,
                     delResult: int, addResult: int): (r: (int, seq<Event>))
    ensures |r.1| <= 2
    ensures forall i :: 0 <= i < |r.1| ==> IsEptEdit(r.1[i])
    ensures r.0 == 0 || r.0 == delResult || r.0 == addResult
  {
    var dels := if vbar.base != 0 then [EptMrDel(root, vbar.base, vbar.size)] else [];
    if vbar.base != 0 && delResult != 0 then (delResult, dels)
    else if newBase != 0 then (addResult, dels + [EptMrAdd(root, hpa, newBase, vbar.size, BAR_PROT)])
    else (0, dels)
  }

  /** True when the write changes nothing: the decoded base is the current one. */
  predicate SameBase(s: ShadowState, offset: bv32, val: bv32)
    requires BarAccess(offset) && |s.bars| == PCI_BAR_COUNT
  {
    var b := s.bars[BarIndex(offset)];
    BarBase(NewBarValue(val, b.size)) == b.base
  }

  /** vdev_pt_cfgwrite_bar as a function: the new shadow state and the calls
      made, given the command-register value `cmd` the device answers and
      the answers of ept_mr_del and ept_mr_add. */
  function WriteBar(s: ShadowState, pdev: PhysDevice, root: bv64, offset: bv32, val: bv32,
                    cmd: bv32, delResult: int, addResult: int): (r: (ShadowState, seq<Event>))
    requires BarAccess(offset)
    requires |s.bars| == PCI_BAR_COUNT && |pdev.bar| == PCI_BAR_COUNT
    ensures |r.0.bars| == PCI_BAR_COUNT
    ensures forall i :: 0 <= i < PCI_BAR_COUNT ==>
      r.0.bars[i].size == s.bars[i].size && r.0.bars[i].kind == s.bars[i].kind
    ensures r.1 == [] <==> r.0 == s
  {
    var idx := BarIndex(offset);
    var newBar := NewBarValue(val, s.bars[idx].size);
    if BarBase(newBar) == s.bars[idx].base then (s, [])
    else
      var doMap := PortValue(cmd, 2) & PCIM_CMD_MEMEN != 0 && val != PROBE;
      var remap := if doMap then RemapSpec(s.bars[idx], pdev.bar[idx].base, root, BarBase(newBar), delResult, addResult).1
                   else [];
      (ShadowState(s.bars[idx := s.bars[idx].(base := BarBase(newBar))], s.cfg[offset as nat := newBar]),
       PortReadEvents(pdev.bdf, PCIR_COMMAND, 2) + remap)
  }

  /** The base a write decodes to is clear below the BAR size and in the four
      flag bits, and never above the value written. */
  lemma NewBaseAligned(val: bv32, size: bv32)
    ensures BarBase(NewBarValue(val, size)) & (size - 1) == 0
    ensures BarBase(NewBarValue(val, size)) & 0xF == 0
    ensures BarBase(NewBarValue(val, size)) <= val
  {
  }

  /** Sizing: after an all-ones write to a BAR of power-of-two size of at
      least 16 bytes, the register reads back as the size mask, from which
      the guest recovers the size as ~(value & ~0xF) + 1. */
  lemma ProbeReadsBackSize(size: bv32)
    requires IsPow2(size) && size >= 16
    ensures NewBarValue(PROBE, size) == SizeMask(size)
    ensures !BarBase(NewBarValue(PROBE, size)) + 1 == size
  {
  }

  /** vdev_pt_remap_bar: at most one delete and one add, the delete (issued
      only for a non-zero old base, at that base) comes before the add, a
      failed delete skips the add, and the add (issued only for a non-zero
      new base) maps the physical BAR at the new base for the BAR's size,
      readable, writable and uncached. */
  lemma RemapOrder(vbar: Bar, hpa: bv32, root: bv64, newBase: bv32, delResult: int, addResult: int)
    ensures var (err, ev) := RemapSpec(vbar, hpa, root, newBase, delResult, addResult);
      var added := newBase != 0 && (vbar.base == 0 || delResult == 0);
      |ev| <= 2 &&
      (forall i :: 0 <= i < |ev| ==> IsEptEdit(ev[i])) &&
      (forall i, j :: 0 <= i < j < |ev| ==> ev[i].EptMrDel? && ev[j].EptMrAdd?) &&
      ((|ev| > 0 && ev[0].EptMrDel?) <==> vbar.base != 0) &&
      (|ev| > 0 && ev[0].EptMrDel? ==> ev[0] == EptMrDel(root, vbar.base, vbar.size)) &&
      ((|ev| > 0 && ev[|ev| - 1].EptMrAdd?) <==> added) &&
      (added ==> ev[|ev| - 1] == EptMrAdd(root, hpa, newBase, vbar.size, BAR_PROT)) &&
      (err != 0 ==> err == delResult || err == addResult) &&
      (vbar.base != 0 && delResult != 0 ==> err == delResult) &&
      (added ==> err == addResult) &&
      (!added && !(vbar.base != 0 && delResult != 0) ==> err == 0)
  {
  }

  /** A write whose decoded base equals the current base changes nothing
      and calls nothing, not even the command-register read. */
  lemma SameBaseWriteIsNoop(s: ShadowState, pdev: PhysDevice, root: bv64, offset: bv32, val: bv32,
                            cmd: bv32, delResult: int, addResult: int)
    requires BarAccess(offset)
    requires |s.bars| == PCI_BAR_COUNT && |pdev.bar| == PCI_BAR_COUNT
    requires SameBase(s, offset, val)
    ensures WriteBar(s, pdev, root, offset, val, cmd, delResult, addResult) == (s, [])
  {
  }

  /** Any other write sets the base of its own BAR to the decoded base and
      stores the new register value at the written offset itself; no other
      BAR, and no size or type, changes. */
  lemma WriteBarNewState(s: ShadowState, pdev: PhysDevice, root: bv64, offset: bv32, val: bv32,
                         cmd: bv32, delResult: int, addResult: int)
    requires BarAccess(offset)
    requires |s.bars| == PCI_BAR_COUNT && |pdev.bar| == PCI_BAR_COUNT
    requires !SameBase(s, offset, val)
    ensures var t := WriteBar(s, pdev, root, offset, val, cmd, delResult, addResult).0;
      var idx := BarIndex(offset);
      var size := s.bars[idx].size;
      t.bars[idx] == Bar(BarBase(NewBarValue(val, size)), size, s.bars[idx].kind) &&
      t.bars[idx].base != s.bars[idx].base &&
      (forall j :: 0 <= j < PCI_BAR_COUNT && j != idx as int ==> t.bars[j] == s.bars[j]) &&
      t.cfg.Keys == s.cfg.Keys + {offset as nat} &&
      t.cfg[offset as nat] == NewBarValue(val, size) &&
      (forall k :: k in s.cfg && k != offset as nat ==> t.cfg[k] == s.cfg[k])
  {
  }

  /** Reprogramming keeps every BAR base aligned to its size. */
  lemma WriteBarKeepsAlignment(s: ShadowState, pdev: PhysDevice, root: bv64, offset: bv32, val: bv32,
                               cmd: bv32, delResult: int, addResult: int)
    requires BarAccess(offset)
    requires |s.bars| == PCI_BAR_COUNT && |pdev.bar| == PCI_BAR_COUNT
    requires BasesAligned(s.bars)
    ensures BasesAligned(WriteBar(s, pdev, root, offset, val, cmd, delResult, addResult).0.bars)
  {
    var idx := BarIndex(offset);
    NewBaseAligned(val, s.bars[idx].size);
  }

  /** The EPT is edited only when the device's command register has memory
      decode enabled, the value is not the all-ones probe and the base
      changes; in that case the edits are exactly those of vdev_pt_remap_bar. */
  lemma RemapGate(s: ShadowState, pdev: PhysDevice, root: bv64, offset: bv32, val: bv32,
                  cmd: bv32, delResult: int, addResult: int)
    requires BarAccess(offset)
    requires |s.bars| == PCI_BAR_COUNT && |pdev.bar| == PCI_BAR_COUNT
    ensures var ev := WriteBar(s, pdev, root, offset, val, cmd, delResult, addResult).1;
      var idx := BarIndex(offset);
      var doMap := !SameBase(s, offset, val) && cmd & PCIM_CMD_MEMEN != 0 && val != PROBE;
      ((exists k :: 0 <= k < |ev| && IsEptEdit(ev[k])) ==> doMap) &&
      (doMap ==> ev[2..] == RemapSpec(s.bars[idx], pdev.bar[idx].base, root,
                                      BarBase(NewBarValue(val, s.bars[idx].size)), delResult, addResult).1)
  {
  }

  /** The only physical configuration access a BAR write makes is the one
      2-byte read of the command register, made whenever the base changes;
      every other call edits the EPT. */
  lemma WriteBarReadsOnlyCommand(s: ShadowState, pdev: PhysDevice, root: bv64, offset: bv32, val: bv32,
                                 cmd: bv32, delResult: int, addResult: int)
    requires BarAccess(offset)
    requires |s.bars| == PCI_BAR_COUNT && |pdev.bar| == PCI_BAR_COUNT
    ensures var ev := WriteBar(s, pdev, root, offset, val, cmd, delResult, addResult).1;
      (ev == [] <==> SameBase(s, offset, val)) &&
      (ev != [] ==> |ev| >= 2 && ev[..2] == PortReadEvents(pdev.bdf, PCIR_COMMAND, 2)) &&
      (forall k :: 2 <= k < |ev| ==> IsEptEdit(ev[k]))
  {
    var idx := BarIndex(offset);
    RemapOrder(s.bars[idx], pdev.bar[idx].base, root, BarBase(NewBarValue(val, s.bars[idx].size)), delResult, addResult);
  }

  /** A probe never edits the EPT; when its decoded base differs from the
      current one, the base still moves to the size mask. */
  lemma ProbeNeverRemaps(s: ShadowState, pdev: PhysDevice, root: bv64, offset: bv32,
                         cmd: bv32, delResult: int, addResult: int)
    requires BarAccess(offset)
    requires |s.bars| == PCI_BAR_COUNT && |pdev.bar| == PCI_BAR_COUNT
    ensures var (t, ev) := WriteBar(s, pdev, root, offset, PROBE, cmd, delResult, addResult);
      var idx := BarIndex(offset);
      (forall k :: 0 <= k < |ev| ==> !IsEptEdit(ev[k])) &&
      t.bars[idx].base == (if SameBase(s, offset, PROBE) then s.bars[idx].base
                           else BarBase(SizeMask(s.bars[idx].size)))
  {
  }

  /** A 4-byte read of the written offset returns the new register value,
      or the old one when the write changed nothing. */
  lemma WriteThenRead(s: ShadowState, pdev: PhysDevice, root: bv64, offset: bv32, val: bv32,
                      cmd: bv32, delResult: int, addResult: int)
    requires BarAccess(offset)
    requires |s.bars| == PCI_BAR_COUNT && |pdev.bar| == PCI_BAR_COUNT
    ensures var t := WriteBar(s, pdev, root, offset, val, cmd, delResult, addResult).0;
      ShadowRead(t.cfg, offset, 4) ==
        if SameBase(s, offset, val) then ShadowRead(s.cfg, offset, 4)
        else NewBarValue(val, s.bars[BarIndex(offset)].size)
  {
  }

  /** BAR 0 of 64 KiB at physical 0xF0000000, unmapped, memory decode on:
      writing 0x80000000 reads the command register, maps the window once
      (no delete, the old base being 0) and reads back 0x80000000. */
  lemma ReprogramScenario(s: ShadowState, pdev: PhysDevice, root: bv64, addResult: int)
    requires |s.bars| == PCI_BAR_COUNT && |pdev.bar| == PCI_BAR_COUNT
    requires s.bars[0] == Bar(0, 0x1_0000, PCIM_BAR_MEM_32)
    requires pdev.bar[0].base == 0xF000_0000
    ensures var (t, ev) := WriteBar(s, pdev, root, PcirBar(0), 0x8000_0000, PCIM_CMD_MEMEN, 0, addResult);
      ev == PortReadEvents(pdev.bdf, PCIR_COMMAND, 2) +
            [EptMrAdd(root, 0xF000_0000, 0x8000_0000, 0x1_0000, BAR_PROT)] &&
      t.bars[0].base == 0x8000_0000 &&
      ShadowRead(t.cfg, PcirBar(0), 4) == 0x8000_0000
  {
  }

  /** The same BAR, now at 0x80000000 with memory decode on, is probed:
      no EPT call, the register reads back 0xFFFF0000 and the base moves
      to 0xFFFF0000 although the EPT still maps 0x80000000.  A following
      write of 0x90000000 then deletes a window at 0xFFFF0000, not at
      0x80000000. */
  lemma ProbeThenMoveScenario(s: ShadowState, pdev: PhysDevice, root: bv64)
    requires |s.bars| == PCI_BAR_COUNT && |pdev.bar| == PCI_BAR_COUNT
    requires s.bars[0] == Bar(0x8000_0000, 0x1_0000, PCIM_BAR_MEM_32)
    requires pdev.bar[0].base == 0xF000_0000
    ensures var (t, ev) := WriteBar(s, pdev, root, PcirBar(0), PROBE, PCIM_CMD_MEMEN, 0, 0);
      ev == PortReadEvents(pdev.bdf, PCIR_COMMAND, 2) &&
      t.bars[0].base == 0xFFFF_0000 &&
      ShadowRead(t.cfg, PcirBar(0), 4) == 0xFFFF_0000 &&
      WriteBar(t, pdev, root, PcirBar(0), 0x9000_0000, PCIM_CMD_MEMEN, 0, 0).1 ==
        PortReadEvents(pdev.bdf, PCIR_COMMAND, 2) +
        [EptMrDel(root, 0xFFFF_0000, 0x1_0000), EptMrAdd(root, 0xF000_0000, 0x9000_0000, 0x1_0000, BAR_PROT)]
  {
  }
}
