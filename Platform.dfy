/**
 * The hypervisor services the passthrough device model calls but does not
 * implement: raw port I/O, EPT (second-level translation) edits, IOMMU
 * domains and paging-structure allocation.  Each call is recorded as an
 * Event; whatever a call answers is supplied to the model as a parameter.
 */
module Platform {

  datatype Option<T> = None | Some(value: T)

  /** A handle to an IOMMU domain (a non-NULL `struct iommu_domain *`). */
  datatype Domain = Domain(id: nat)

  /** The errno value behind -EINVAL. */
  const EINVAL: int := 22

  /** EPT entry bits: read, write, and memory type UC (0 in bits 5:3). */
  const EPT_RD: bv64 := 1
  const EPT_WR: bv64 := 2
  const EPT_UNCACHED: bv64 := 0

  /** Address width given to create_iommu_domain. */
  const IOMMU_ADDR_WIDTH: nat := 48

  /** One call into a collaborator, in the order it was issued. */
  datatype Event =
    | PioWrite(port: bv16, width: nat, value: bv32)        // pio_write, pio_write8/16/32
    | PioRead(port: bv16, width: nat)                      // pio_read8/16/32
    | AllocPagingStruct                                    // alloc_paging_struct()
    | CreateIommuDomain(vmId: nat, rootHpa: bv64, addrWidth: nat)
    | AssignIommuDevice(domain: Option<Domain>, bus: bv8, devfn: bv8)
    | UnassignIommuDevice(domain: Option<Domain>, bus: bv8, devfn: bv8)
    | EptMrDel(root: bv64, gpa: bv32, size: bv32)
    | EptMrAdd(root: bv64, hpa: bv32, gpa: bv32, size: bv32, prot: bv64)

  /** True of the events that edit the guest's second-level tables. */
  predicate IsEptEdit(e: Event)
  {
    e.EptMrDel? || e.EptMrAdd?
  }
}
