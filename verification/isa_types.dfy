/**
 * Machine words and records of the sparc64 ISA bus (sys/sparc64/isa/isa.c):
 * the unsigned 64-bit arithmetic of u_long, the four resource types, the
 * firmware `ranges` rows, the per-child resource-list entries and what the
 * parent bus hands back.
 */
module IsaTypes {
  import opened Options

  /** 2^64: u_long and u_int64_t are 64 bits wide on sparc64. */
  const WORD: int := 0x1_0000_0000_0000_0000
  /** ~0UL */
  const ULONG_MAX: int := WORD - 1

  type u64 = x: int | 0 <= x < 0x1_0000_0000_0000_0000
  type u32 = x: int | 0 <= x < 0x1_0000_0000
  type int32 = x: int | -0x8000_0000 <= x < 0x8000_0000

  /** u_long addition: wraps modulo 2^64. */
  function Add(a: u64, b: u64): u64 {
    if a + b < WORD then a + b else a + b - WORD
  }

  /** u_long subtraction: wraps modulo 2^64. */
  function Sub(a: u64, b: u64): u64 {
    if a >= b then a - b else a - b + WORD
  }

  /** ulmin */
  function Min(a: u64, b: u64): u64 {
    if a < b then a else b
  }

  /** ulmax */
  function Max(a: u64, b: u64): u64 {
    if a > b then a else b
  }

  /** The C conversion of an int to u_long (sign extension). */
  function ULong(v: int32): u64 {
    if v < 0 then v + WORD else v
  }

  /** INRANGE(x, start, end) */
  predicate InRange(x: u64, start: u64, end: u64) {
    start <= x <= end
  }

  /** The interrupt number ofw_pci_route_intr2 answers for "no mapping". */
  const UNMAPPED: int32 := 255

  /**
   * SYS_RES_IRQ, SYS_RES_DRQ, SYS_RES_MEMORY, SYS_RES_IOPORT, or any other
   * type code. The four known codes are kept abstract, so `Unknown(code)`
   * stands only for a code that differs from all four.
   */
  datatype ResType = Irq | Drq | Memory | IoPort | Unknown(code: int)

  /** ISAR_SPACE_IO and ISAR_SPACE_MEM: the space codes of a `ranges` row. */
  const SPACE_IO: nat := 1
  const SPACE_MEM: nat := 2

  /**
   * One row of the bridge's firmware `ranges` property (struct isa_ranges);
   * the child-address words are not read by the bus and are left out.
   */
  datatype RangeRow = RangeRow(physHi: u32, physMid: u32, physLo: u32, size: u32)
  {
    /** ISAB_RANGE_SPACE: bits 24-25 of phys_hi. */
    function Space(): nat {
      (physHi / 0x100_0000) % 4
    }

    /** ISAB_RANGE_PHYS: phys_mid in the high word, phys_lo in the low word. */
    function Phys(): u64 {
      physMid * 0x1_0000_0000 + physLo
    }
  }

  /**
   * A discovered address window: `isa_*_base` and `isa_*_limit`. Despite its
   * name the second global holds the row's size; the allocator computes the
   * real limit as base + size, in u_long arithmetic.
   */
  datatype Window = Window(base: u64, size: u64)
  {
    function Limit(): u64 {
      Add(base, size)
    }
  }

  /** What the parent bus hands back: rman_get_start and rman_get_end of the resource. */
  datatype Resource = Resource(start: u64, end: u64)

  /** The key of a resource-list entry. */
  datatype Key = Key(rtype: ResType, rid: int)

  /** struct resource_list_entry: child-relative bounds, count, and the live resource if busy. */
  datatype Entry = Entry(start: u64, end: u64, count: u64, res: Option<Resource>)

  /** The arguments of BUS_ALLOC_RESOURCE on the parent bus. */
  datatype ParentRequest = ParentRequest(rtype: ResType, rid: int, start: u64, end: u64, count: u64, flags: nat)

  /**
   * The arguments of isa_alloc_resource; `passthrough` stands for
   * device_get_parent(child) != bus, which the device tree decides.
   */
  datatype AllocRequest = AllocRequest(passthrough: bool, rtype: ResType, rid: int,
                                       start: u64, end: u64, count: u64, flags: nat)
  {
    /** start == 0UL && end == ~0UL: "whatever the child was configured with". */
    predicate IsDefault() {
      start == 0 && end == ULONG_MAX
    }

    function Slot(): Key {
      Key(rtype, rid)
    }
  }

  /** The reasons isa_alloc_resource panics. */
  datatype Panic =
    | IrqRangeUnsupported      // isa_route_intr_res with start != end
    | DefaultIrqPassthrough    // a default IRQ request from a deeper bus
    | UnsupportedType          // a type other than MEMORY, IOPORT, IRQ at the dispatch
    | EntryBusy                // the entry already holds a live resource
    | EntryOutOfRange          // a configured entry lies outside the window

  /** The three outcomes of isa_alloc_resource: a resource, NULL, or panic. */
  datatype AllocResult = Granted(res: Resource) | NoResource | Fatal(why: Panic)
}
