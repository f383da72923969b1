/**
 * The state of the sparc64 ISA bus and the operations that change or read
 * it in place: isa_init fills the legacy line table and discovers the two
 * windows, isa_irq_pending folds the table into a word, and
 * isa_alloc_resource updates a child's resource list. Each method is
 * proved against the functions of IsaSpec.
 */
module IsaBridge {
  import opened Options
  import opened IsaTypes
  import opened IsaSpec

  /**
   * What isa_init obtains from the firmware: whether the bridge's `reg`
   * property could be read, the rows of its `ranges` property (an absent
   * property reads as no rows), whether an interrupt map was found, and the
   * router ofw_pci_route_intr2 applies with that map.
   */
  datatype Firmware = Firmware(regFound: bool, ranges: seq<RangeRow>, imapFound: bool, route: u64 -> int32)

  /** The three panics of isa_init. */
  datatype InitPanic = NoRegProperty | NoRangesProperty | NoInterruptMap

  datatype InitResult = InitDone | InitFatal(why: InitPanic)

  /** A child's resource list (struct resource_list), keyed by type and rid. */
  class ResourceList {
    var entries: map<Key, Entry>

    /** A list holding the entries the child was statically configured with. */
    constructor (configured: map<Key, Entry>)
      ensures entries == configured
    {
      entries := configured;
    }
  }

  /** The globals of isa.c: there is one ISA bus, so one Bridge. */
  class Bridge {
    var ioMapped: bool     // isa_io_bt != NULL
    var ioBase: u64        // isa_io_base
    var ioLimit: u64       // isa_io_limit (the window's size)
    var memMapped: bool    // isa_mem_bt != NULL
    var memBase: u64       // isa_mem_base
    var memLimit: u64      // isa_mem_limit (the window's size)
    /** ofw_pci_route_intr2 with the bridge's reg, interrupt map and mask. */
    var route: u64 -> int32
    /** isa_ino: the platform interrupt number of each legacy line, UNMAPPED when it has none. */
    const ino: array<int32>

    ghost predicate Valid()
      reads this
    {
      ino.Length == 8
    }

    /** The windows and the router the allocator reads. */
    function View(): BusView
      reads this
    {
      BusView(if ioMapped then Some(Window(ioBase, ioLimit)) else None,
              if memMapped then Some(Window(memBase, memLimit)) else None,
              route)
    }

    /**
     * The bus before isa_init: no window, zeroed globals and a zeroed line
     * table. No interrupt map has been read yet; the model takes the router
     * to answer UNMAPPED for every line until isa_init installs the
     * firmware's.
     */
    constructor ()
      ensures Valid() && fresh(ino)
      ensures !ioMapped && !memMapped && ioBase == 0 && ioLimit == 0 && memBase == 0 && memLimit == 0
      ensures forall x :: route(x) == UNMAPPED
      ensures forall i :: 0 <= i < 8 ==> ino[i] == 0
    {
      ioMapped, ioBase, ioLimit := false, 0, 0;
      memMapped, memBase, memLimit := false, 0, 0;
      route := (x: u64) => UNMAPPED;
      ino := new int32[8](i => 0);
    }

    /**
     * isa_init: panic when a firmware property is missing; otherwise route
     * the eight legacy lines into isa_ino and fold the `ranges` rows, last
     * to first, into the two windows.
     */
    method Init(fw: Firmware) returns (r: InitResult)
      requires Valid()
      modifies this, ino
      ensures Valid()
      ensures !fw.regFound ==> r == InitFatal(NoRegProperty)
      ensures fw.regFound && |fw.ranges| == 0 ==> r == InitFatal(NoRangesProperty)
      ensures fw.regFound && |fw.ranges| > 0 && !fw.imapFound ==> r == InitFatal(NoInterruptMap)
      ensures r == InitDone <==> fw.regFound && |fw.ranges| > 0 && fw.imapFound
      ensures r.InitFatal? ==> unchanged(this) && unchanged(ino)
      ensures r.InitDone? ==> route == fw.route
      ensures r.InitDone? ==> forall i :: 0 <= i < 8 ==> ino[i] == fw.route(i)
      ensures r.InitDone? ==> (ioMapped, ioBase, ioLimit) ==
                              FoldedSpace(fw.ranges, 0, SPACE_IO, old((ioMapped, ioBase, ioLimit)))
      ensures r.InitDone? ==> (memMapped, memBase, memLimit) ==
                              FoldedSpace(fw.ranges, 0, SPACE_MEM, old((memMapped, memBase, memLimit)))
    {
      if !fw.regFound {
        return InitFatal(NoRegProperty);
      }
      if |fw.ranges| == 0 {
        return InitFatal(NoRangesProperty);
      }
      if !fw.imapFound {
        return InitFatal(NoInterruptMap);
      }
      route := fw.route;
      for i := 0 to 8
        modifies ino
        invariant forall j :: 0 <= j < i ==> ino[j] == fw.route(j)
      {
        ino[i] := fw.route(i);
      }
      ghost var io0 := (ioMapped, ioBase, ioLimit);
      ghost var mem0 := (memMapped, memBase, memLimit);
      var rows := fw.ranges;
      var nbr := |rows| - 1;
      while nbr >= 0
        invariant -1 <= nbr < |rows|
        invariant route == fw.route
        invariant forall j :: 0 <= j < 8 ==> ino[j] == fw.route(j)
        invariant (ioMapped, ioBase, ioLimit) == FoldedSpace(rows, nbr + 1, SPACE_IO, io0)
        invariant (memMapped, memBase, memLimit) == FoldedSpace(rows, nbr + 1, SPACE_MEM, mem0)
        modifies this
        decreases nbr
      {
        var row := rows[nbr];
        if row.Space() == SPACE_IO {
          ioBase := row.Phys();
          ioLimit := row.size;
          ioMapped := true;
        } else if row.Space() == SPACE_MEM {
          memBase := row.Phys();
          memLimit := row.size;
          memMapped := true;
        }
        nbr := nbr - 1;
      }
      return InitDone;
    }

    /**
     * isa_irq_pending: from line 7 down to line 0, shift the word left and
     * OR in whether the line is mapped and pending; `intrPending` stands for
     * SPARCBUS_INTR_PENDING.
     */
    method IrqPending(intrPending: int32 -> bool) returns (pending: nat)
      requires Valid()
      ensures pending == PendingMask(ino[..], intrPending)
      ensures pending < 256
      ensures forall i :: 0 <= i < 8 ==> (Bit(pending, i) <==> ino[i] != UNMAPPED && intrPending(ino[i]))
    {
      var lines := ino[..];
      pending := 0;
      var i := 8;
      while i > 0
        invariant 0 <= i <= 8
        invariant pending == PendingMask(lines[i..], intrPending)
      {
        i := i - 1;
        ghost var word := pending;
        pending := pending * 2;
        if lines[i] != UNMAPPED {
          pending := pending + (if intrPending(lines[i]) then 1 else 0);
        }
        ShiftInLine(lines, i, intrPending, word, pending);
      }
      assert lines[0..] == lines;
      LineTableMask(lines, intrPending);
    }

    /**
     * isa_alloc_resource for a child whose resource list is `rl`; `parent`
     * stands for BUS_ALLOC_RESOURCE on the bridge's parent bus.
     */
    method AllocResource(rl: ResourceList, q: AllocRequest, parent: ParentRequest -> Option<Resource>)
      returns (r: AllocResult, ghost call: Option<ParentRequest>)
      requires Valid()
      modifies rl
      ensures r == AllocSpec(View(), old(rl.entries), q, parent).result
      ensures rl.entries == AllocSpec(View(), old(rl.entries), q, parent).entries
      ensures call == AllocSpec(View(), old(rl.entries), q, parent).call
    {
      var passthrough := q.passthrough;
      var isdefault := q.start == 0 && q.end == ULONG_MAX;
      var rtype, rid, start, end, count := q.rtype, q.rid, q.start, q.end, q.count;
      var key := Key(rtype, rid);

      if !passthrough && !isdefault {
        if key !in rl.entries {
          if rid < 0 {
            return NoResource, None;
          }
          match rtype {
            case Irq =>
              if rid >= ISA_NIRQ { return NoResource, None; }
            case Drq =>
              if rid >= ISA_NDRQ { return NoResource, None; }
            case Memory =>
              if rid >= ISA_NMEM { return NoResource, None; }
            case IoPort =>
              if rid >= ISA_NPORT { return NoResource, None; }
            case Unknown(_) =>
              return NoResource, None;
          }
          rl.entries := rl.entries[key := Entry(start, end, count, None)];
        }
      }
      ghost var listed := rl.entries;
      assert Materialize(old(rl.entries), q) == Some(listed);

      var d := SwitchOnType(q);
      if d.DispatchRefused? {
        return NoResource, None;
      } else if d.DispatchHalted? {
        return Fatal(d.why), None;
      }
      var base, limit := d.base, d.limit;
      start, end := d.start, d.end;

      if passthrough {
        call := Some(ParentRequest(rtype, rid, start, end, count, q.flags));
        var res := parent(ParentRequest(rtype, rid, start, end, count, q.flags));
        return if res.Some? then Granted(res.value) else NoResource, call;
      }

      if key !in rl.entries {
        return NoResource, None;
      }
      var rle := rl.entries[key];
      if rle.res.Some? {
        return Fatal(EntryBusy), None;
      }

      var resolved := ResolveDefault(q, rle, base, limit, start, end);
      if resolved.ResolveRefused? {
        return NoResource, None;
      } else if resolved.ResolveHalted? {
        return Fatal(resolved.why), None;
      }
      start, end, count := resolved.start, resolved.end, resolved.count;

      call := Some(ParentRequest(rtype, rid, start, end, count, q.flags));
      var res := parent(ParentRequest(rtype, rid, start, end, count, q.flags));
      if res.Some? {
        // Record the new range, relative to the window again.
        rl.entries := rl.entries[key := Entry(Sub(res.value.start, base), Sub(res.value.end, base), count, res)];
        return Granted(res.value), call;
      }
      return NoResource, call;
    }
    /**
     * The first switch of isa_alloc_resource: refuse MEMORY or IOPORT when
     * the window was never found, route an explicit IRQ, panic on any other
     * type, then add the base and clamp to the limit.
     */
    method SwitchOnType(q: AllocRequest) returns (d: Dispatch)
      ensures d == TypeDispatch(View(), q)
    {
      var isdefault := q.start == 0 && q.end == ULONG_MAX;
      var start, end := q.start, q.end;
      var base: u64, limit: u64 := 0, 0;
      match q.rtype {
        case Memory =>
          if !memMapped { return DispatchRefused; }
          base := memBase;
          limit := Add(base, memLimit);
        case IoPort =>
          if !ioMapped { return DispatchRefused; }
          base := ioBase;
          limit := Add(base, ioLimit);
        case Irq =>
          if isdefault && q.passthrough {
            return DispatchHalted(DefaultIrqPassthrough);
          }
          if !isdefault {
            var routed := RouteIntrRes(route, start, end);
            if routed.RangeRejected? {
              return DispatchHalted(IrqRangeUnsupported);
            }
            start := ULong(routed.ino);
            end := start;
            if start == 255 {
              return DispatchRefused;
            }
          }
        case _ =>
          return DispatchHalted(UnsupportedType);
      }
      if q.rtype == Memory || q.rtype == IoPort {
        start := Min(Add(start, base), limit);
        end := Min(Add(end, base), limit);
      }
      return Dispatched(base, limit, start, end);
    }

    /**
     * The second switch of isa_alloc_resource: a default request takes the
     * stored start, the larger count and an end that covers it, then is
     * shifted by the base and range-checked (MEMORY, IOPORT) or routed (IRQ).
     */
    method ResolveDefault(q: AllocRequest, rle: Entry, base: u64, limit: u64, start0: u64, end0: u64)
      returns (res: Resolution)
      ensures res == Resolve(View(), q, rle, base, limit, start0, end0)
    {
      var start, end, count := start0, end0, q.count;
      if q.start == 0 && q.end == ULONG_MAX {
        start := rle.start;
        count := Max(count, rle.count);
        end := Max(rle.end, Sub(Add(start, count), 1));
        match q.rtype {
          case Memory | IoPort =>
            start := Add(start, base);
            end := Add(end, base);
            if !InRange(start, base, limit) || !InRange(end, base, limit) {
              return ResolveHalted(EntryOutOfRange);
            }
          case Irq =>
            var routed := RouteIntrRes(route, start, end);
            if routed.RangeRejected? {
              return ResolveHalted(IrqRangeUnsupported);
            }
            start := ULong(routed.ino);
            end := start;
            if start == 255 {
              return ResolveRefused;
            }
          case _ =>
        }
      }
      return Resolved(start, end, count);
    }
  }
}
