# ISA bus allocation on sparc64, and the rcp remote copy program

This project models two pieces of a BSD source tree in Dafny and proves
properties of the model.

**The sparc64 ISA bus glue** (`sys/sparc64/isa/isa.c`). It has four parts:

- `isa_init` reads the PCI-ISA bridge's firmware properties. It routes the
  eight legacy interrupt lines into `isa_ino` and folds the `ranges` rows
  into an I/O window and a memory window.
- `isa_irq_pending` folds the line table into a pending-interrupt word.
- `isa_route_intr_res` routes one interrupt line and panics on a range.
- `isa_alloc_resource` is the allocator for the bus's children. It may add
  a resource-list entry. It translates child addresses into a window and
  routes interrupts. It resolves default requests against the stored
  entry, asks the parent bus, and records the grant in child-relative
  form.

**The rcp remote copy program** (`usr/src/bin/rcp/rcp.c`). The model covers:

- `colon`, `okname`, and main's splitting of `user@host:path` arguments;
- the last path component that source()/rsource() send;
- the `C`/`D` header records they write and the control-record parser of
  sink();
- the BUFSIZ chunking of the transfer loops.

Modules:

- `Options`: the `Option` datatype.
- `IsaTypes`: the data model of the bus.
  - `u_long` is 64-bit unsigned, with explicit wrap-around in `Add` and `Sub`.
  - Other types: `ulmin`/`ulmax`, `INRANGE`, range rows, windows,
    resource-list entries, requests, and the three-way allocator result
    (granted, NULL, panic).
- `IsaSpec`: the operations as pure functions (`FoldedSpace`,
  `PendingMask`, `RouteIntrRes`, `AllocSpec`), with the lemmas stating
  what the allocator promises.
- `IsaBridge`: the driver's globals as the class `Bridge`, and a child's
  resource list as the class `ResourceList`. The methods `Init`
  and `AllocResource` update them in place, and `IrqPending` reads the line
  table. Each is proved against the functions of `IsaSpec`.
- `RcpNames`: `colon`, `okname`, the argument split and the basename.
  - `colon` and `okname` are loop methods, proved against reference
    functions.
  - The splitting method `SplitLocation` is proved against `ParseLocation`.
- `RcpProtocol`: the header records, the record parser `ParseRecord`
  (proved against `ParseControl`, with its two digit loops in the methods
  `ReadMode` and `ReadSize`), the round-trip lemma between them, and the
  chunking loop.

Things the code cannot see are parameters:

- ISA: the firmware router (`ofw_pci_route_intr2` with the bridge's
  interrupt map) is a function `u64 -> int32`. `SPARCBUS_INTR_PENDING`
  is a predicate. `BUS_ALLOC_RESOURCE` on the parent bus is a function
  from the request to an optional resource.
- rcp: the login name is a parameter. Lines arrive as strings.

## Model

| member | source | states |
|---|---|---|
| IsaSpec.FirstRowFrom | sys/sparc64/isa/isa.c:141-158 | The row whose values survive the last-to-first fold is the lowest-indexed row of that space; none survives when no row has the space code. |
| IsaSpec.OtherRowsIgnored | sys/sparc64/isa/isa.c:141-158 | Removing a row of another space code (including codes 0 and 3, which the switch ignores) leaves the folded window unchanged. |
| IsaSpec.PendingMaskBits | sys/sparc64/isa/isa.c:104-110 | Bit i of the pending word is set exactly when line i is mapped (not 255) and the platform reports its interrupt pending. |
| IsaSpec.PendingMaskBound | sys/sparc64/isa/isa.c:104-111 | The pending word has no bit at or above the number of lines. |
| IsaSpec.ShiftInLine | sys/sparc64/isa/isa.c:105-109 | One pass of the loop, shifting the word left and adding line i's bit, gives the word of lines i and up. |
| IsaSpec.LineTableMask | sys/sparc64/isa/isa.c:98-112 | For the eight legacy lines the word fits in 8 bits, and bit i is set exactly when line i is mapped and pending. |
| IsaSpec.RouteIntrRes | sys/sparc64/isa/isa.c:163-176 | Panics exactly when start differs from end; otherwise the answer is the firmware's routing of start, 255 included. |
| IsaSpec.Translate | sys/sparc64/isa/isa.c:254-257 | A translated address never exceeds the window's limit; it is address plus base when that fits, and the limit otherwise. |
| IsaSpec.RejectedRidAddsNothing | sys/sparc64/isa/isa.c:194-218 | A new local non-default request with a negative or out-of-bounds rid, or an unknown type, gets NULL. The list is unchanged and the parent is not called. |
| IsaSpec.AcceptedRidAddsOneEntry | sys/sparc64/isa/isa.c:194-221 | A new local non-default request with an accepted rid adds exactly its own entry and changes no other. Unless it is granted, the entry holds the requested start, end and count and no resource. |
| IsaSpec.MissingWindowRefused | sys/sparc64/isa/isa.c:228-240 | MEMORY or IOPORT on a window the firmware never described gets NULL without calling the parent. |
| IsaSpec.ParentRequestWithinWindow | sys/sparc64/isa/isa.c:254-302 | Bounds sent to the parent for MEMORY/IOPORT never exceed the window's limit. Explicit and passthrough bounds are the translated ones; resolved defaults lie within [base, limit]. |
| IsaSpec.BusyEntryNeverReachesParent | sys/sparc64/isa/isa.c:270-275 | A local request on an entry that already holds a resource never reaches the parent, is never granted and changes no entry. |
| IsaSpec.BusyEntryIsFatal | sys/sparc64/isa/isa.c:274-275 | A local request on a busy entry panics with "resource entry is busy" whenever the type switch lets it through. This covers a mapped window, a default IRQ and an explicit IRQ that routes to a mapped line. |
| IsaSpec.ExplicitIrqRouting | sys/sparc64/isa/isa.c:241-302 | An explicit IRQ request for a range panics without calling the parent. One for an unmapped line gets NULL, not a panic. Otherwise, unless the entry is busy, the parent is asked for the routed interrupt as both bounds. |
| IsaSpec.DefaultIrqResolution | sys/sparc64/isa/isa.c:277-302 | A default IRQ on a free entry routes the stored start. It panics when the end, widened to cover the larger count, differs from the start. An unmapped line gets NULL. Otherwise the parent is asked for the routed interrupt as both bounds, with the larger count. |
| IsaSpec.DefaultWithoutEntryRefused | sys/sparc64/isa/isa.c:270-272 | A local default request with no configured entry gets NULL, with no panic, no parent call and no new entry. |
| IsaSpec.DefaultIrqPassthroughIsFatal | sys/sparc64/isa/isa.c:241-244 | A default IRQ request passed through from a deeper bus panics, before anything is added or asked. |
| IsaSpec.UnsupportedTypeNeverGranted | sys/sparc64/isa/isa.c:194-253 | DRQ and unknown types never reach the parent. A new local request with a refused rid gets NULL; every other one panics with "unsupported resource type". |
| IsaSpec.DefaultResolution | sys/sparc64/isa/isa.c:277-292 | For MEMORY/IOPORT the default request asks for the stored start, the larger of the two counts, and the end widened to cover that count, all shifted by the base. Outside [base, limit] it panics without calling the parent. |
| IsaSpec.GrantRecordedChildRelative | sys/sparc64/isa/isa.c:301-311 | After a local grant the entry holds the granted resource and the count that was asked for. Adding the base back to its bounds gives exactly the granted bounds. No other entry changes. |
| IsaSpec.ParentFailureKeepsEntry | sys/sparc64/isa/isa.c:301-313 | When the parent refuses, the call returns NULL and the entry keeps its bounds, its count and its free state. |
| IsaSpec.PassthroughLeavesListAlone | sys/sparc64/isa/isa.c:265-268 | A passthrough request leaves the child's list alone, and its result and parent call are the same whatever the list holds. Past the type switch it is always forwarded, and the parent's answer is the answer. |
| IsaSpec.ExplicitWindowRequestReachesParent | sys/sparc64/isa/isa.c:254-302 | An explicit or passthrough MEMORY/IOPORT request on a mapped window reaches the parent when its entry is free or can be added. The call carries the translated bounds and the request's own type, rid, count and flags, and the parent's answer is the answer. |
| IsaSpec.ListFrame | sys/sparc64/isa/isa.c:194-313 | Whatever the request, only its own entry can appear or change; every other entry is kept and none disappears. |
| IsaSpec.BusyEntryKept | sys/sparc64/isa/isa.c:270-313 | Whatever the request, an entry that holds a resource keeps it, with its bounds and count. |
| IsaSpec.BusyEntryKeptAcrossRun | sys/sparc64/isa/isa.c:179-314 | Across any run of calls, an entry that holds a resource stays in the list unchanged, since nothing in the model releases it. |
| IsaSpec.AtMostOneOwner | sys/sparc64/isa/isa.c:270-311 | After a local grant, however many calls for any entries follow, a local request for the same type and rid is never granted and never reaches the parent. |
| IsaSpec.DispatchedBase | sys/sparc64/isa/isa.c:227-240 | For a dispatched request, the base the type switch hands on is the window base of its type (0 for IRQ). |
| IsaSpec.AddUndoesSub | sys/sparc64/isa/isa.c:308-309 | In u_long arithmetic, subtracting the base and adding it back is the identity, whatever the wrap. |
| IsaSpec.TranslateRoundTrip | sys/sparc64/isa/isa.c:254-257 | For an address the window does not clamp, translating it and recording it child-relative gives the address back. |
| IsaBridge.ResourceList.constructor | sys/sparc64/isa/isa.c:190 | A child's list starts with the entries it was configured with. |
| IsaBridge.Bridge.constructor | sys/sparc64/isa/isa.c:61-95 | Before isa_init: no window tag, zeroed bases and limits, and a zeroed line table. No interrupt map is loaded yet, and the model takes the router to answer 255 until isa_init installs one. |
| IsaBridge.Bridge.Init | sys/sparc64/isa/isa.c:115-160 | Panics, in this order, on a missing reg property, no ranges rows, or no interrupt map, and then changes nothing. Otherwise each line i holds the firmware routing of i, and each window is the fold of the ranges rows from the last to the first. |
| IsaBridge.Bridge.IrqPending | sys/sparc64/isa/isa.c:98-112 | Returns the pending word of the line table. It is below 256, and bit i is set exactly when line i is mapped and pending. |
| IsaBridge.Bridge.AllocResource | sys/sparc64/isa/isa.c:179-314 | Three things are those of AllocSpec on the bus's windows and router and the old list: the result, the child's new resource list, and the request sent to the parent bus, if any. |
| IsaBridge.Bridge.SwitchOnType | sys/sparc64/isa/isa.c:227-257 | The type switch and window translation compute TypeDispatch. It refuses a missing window, panics on a default IRQ passthrough or an unsupported type, and routes an explicit IRQ. |
| IsaBridge.Bridge.ResolveDefault | sys/sparc64/isa/isa.c:277-299 | The default resolution against the stored entry computes Resolve: a bounds check for MEMORY/IOPORT and a route for IRQ. |
| RcpNames.ColonFrom | usr/src/bin/rcp/rcp.c:202-214 | The answer is the first ':' that has no '/' before it. When there is none, every ':' is preceded by a '/'. |
| RcpNames.Colon | usr/src/bin/rcp/rcp.c:202-214 | The scanning loop returns exactly ColonFrom's answer for the whole argument. |
| RcpNames.ColonSkips | usr/src/bin/rcp/rcp.c:206-212 | A stretch with neither ':' nor '/' does not change colon's answer. |
| RcpNames.OkName | usr/src/bin/rcp/rcp.c:216-234 | Accepts exactly the non-empty names made of 7-bit letters, digits, '_' and '-'. |
| RcpNames.IndexOf | usr/src/bin/rcp/rcp.c:95 | index() finds the first occurrence of the character, or reports that there is none. |
| RcpNames.SplitLocation | usr/src/bin/rcp/rcp.c:90-120 | The in-place splitting of an argument gives ParseLocation's answer, which is one of three. (1) A local path when colon finds nothing. (2) Otherwise host and path, with "." for an empty path, and a user when an '@' precedes the colon; an empty user is the login name. (3) An invalid user when okname refuses the user. |
| RcpNames.RemoteSpecSplits | usr/src/bin/rcp/rcp.c:121-127 | The user@host:path string main() builds splits back, under the same split, into the same valid user, host and non-empty path. |
| RcpNames.SplitThenSpellRoundTrip | usr/src/bin/rcp/rcp.c:90-127 | A split target spelled again as user@host:path splits into the same host, path and user. The user is the one named, or the login name for a bare host:path or an empty user; it must pass okname. |
| RcpNames.EmptyPathIsDot | usr/src/bin/rcp/rcp.c:92-94 | "host:" names "." on that host. |
| RcpNames.LastSlash | usr/src/bin/rcp/rcp.c:294 | rindex() finds a '/' with no '/' after it, or reports that the name has none. |
| RcpNames.Basename | usr/src/bin/rcp/rcp.c:294-298 | The name sent is a suffix of the path with no '/'. Either it is the whole path, or a '/' precedes it. |
| RcpNames.BasenameOfPath | usr/src/bin/rcp/rcp.c:340-344 | The last component of dir/base is base. |
| RcpProtocol.Decimal | usr/src/bin/rcp/rcp.c:299-300 | The %D field is a non-empty run of decimal digits denoting the size, with a leading zero only for size 0. |
| RcpProtocol.Octal4 | usr/src/bin/rcp/rcp.c:299-300 | The %04o field is exactly four octal digits denoting the mode. |
| RcpProtocol.PermissionBits | usr/src/bin/rcp/rcp.c:300 | mode & 07777 fits in four octal digits. |
| RcpProtocol.DigitRun | usr/src/bin/rcp/rcp.c:482-483 | The size scan stops at the first non-digit, and everything before it is a digit. |
| RcpProtocol.DigitRunUnique | usr/src/bin/rcp/rcp.c:482-485 | A digit prefix followed by a non-digit, or by the end, is the run the size scan reads. |
| RcpProtocol.CText | usr/src/bin/rcp/rcp.c:443-447 | The C text holds no NUL. It is either the whole string or the prefix that stops at the first NUL, and a string without NUL is its own C text. |
| RcpProtocol.ParseRecord | usr/src/bin/rcp/rcp.c:434-486 | The per-record steps of sink() compute ParseControl. (1) An empty line is "unexpected newline". (2) \1 and \2 carry a message. (3) 'E' ends a directory. (4) Another letter is stray output on the first record and "expected control record" later. (5) Otherwise: four octal mode digits, a space, the decimal size, a space and the name, each failure with its own screwup. |
| RcpProtocol.ReadMode | usr/src/bin/rcp/rcp.c:473-478 | The mode loop succeeds exactly when the four characters after the letter are octal digits, and then yields their octal value. |
| RcpProtocol.ReadSize | usr/src/bin/rcp/rcp.c:481-483 | The size loop stops at the end of the digit run that starts at offset 6, and yields its decimal value. |
| RcpProtocol.HeaderRoundTrip | usr/src/bin/rcp/rcp.c:474-486 | The record source() or rsource() writes (lines 299-300 and 345) contains no newline. sink() reads back the same kind, mode & 07777, size and name, provided the name holds neither newline nor NUL. |
| RcpProtocol.ChunkSizes | usr/src/bin/rcp/rcp.c:307-312 | The loop's amounts add up to the size. Each is between 1 and BUFSIZ, all but the last are BUFSIZ, and there are ceil(size / BUFSIZ) of them. |
| RcpProtocol.ChunkOffsets | usr/src/bin/rcp/rcp.c:513-529 | Chunk k starts at offset k * BUFSIZ, the value of i in that pass of sink()'s loop. |

## Left out

- Firmware access: finding the bridge node, reading properties and allocating them are outside the model. `Init` receives only:
  - whether `reg` was found;
  - the `ranges` rows, where an absent property is an empty list;
  - whether an interrupt map was found;
  - the resulting router.
- Bus-space tags and handles (`SPARCBUS_GET_BUS_HANDLE`) are reduced to a "window mapped" flag, and `free` of the property buffer is omitted.
- `ofw_pci_route_intr2`, `SPARCBUS_INTR_PENDING` and `BUS_ALLOC_RESOURCE` are not part of this model. They are abstract functions. The parent allocator's choice of range is arbitrary.
- The "could not map interrupt" message of `isa_route_intr_res` is not modelled (console output).
- `isa_release_resource`, `isa_setup_intr` and `isa_teardown_intr` are not modelled. They forward to the generic resource-list release and to the parent bus without logic of their own. With no release in the model, a granted entry stays busy for every later call (see IsaSpec.BusyEntryKeptAcrossRun).
- ISA_NIRQ, ISA_NDRQ, ISA_NMEM and ISA_NPORT are taken as 2, 2, 4 and 8 from the comment at isa.c:183-185. The header that defines them is not part of this model, and an IRQ rid bound of 8 is not used.
- IsaSpec.Translate: an explicit MEMORY/IOPORT request is clamped only from above (`ulmin` with the limit), and `start + base` may wrap. It is not clamped into [base, limit]. The model follows the code.
- rcp I/O is not modelled:
  - reading records byte by byte, and "lost connection";
  - the partial-read loop inside each chunk;
  - `response()`, `error()`, `lostconn()`;
  - `rcmd`, `susystem`, `/bin/cp`, `setuid`/`setreuid`, signals and `exit` codes.
  Records reach `ParseRecord` as strings without their newline.
- The rsh and rcp command lines built with sprintf (main), `verifydir`, the target path sink() composes (`targ/name`), the mkdir/creat/fchmod steps, the recursive directory walk of rsource(), and the BUFSIZ check on a composed path are not modelled. They are file-system and process work.
- RcpProtocol.ParseRecord: `size` is an unbounded natural. The overflow of the C `off_t` accumulator on very long digit runs is not modelled.
- RcpProtocol.ChunkSizes: `i`, `size` and `st_size` are unbounded naturals. In C they are a 32-bit `off_t`, where `i + amt` and `i += BUFSIZ` overflow for sizes above 2^31 - BUFSIZ. That overflow is not modelled.
- RcpNames.RemoteSpecSplits: the lemma is about the string as main() builds it. That string goes through `/bin/sh -c` (susystem) and then rsh to the remote shell. Shell quoting is not modelled, so a host or path with spaces, quotes or shell metacharacters may not reach the remote rcp as written.
- RcpNames.SplitThenSpellRoundTrip: as for RemoteSpecSplits, the round trip is about the spelled string, not about what the remote shell passes on.
- RcpProtocol.HeaderRoundTrip: a file name holding a newline or NUL does not round-trip, because the record ends at the first newline. The lemma requires neither, and the source does not check it.
- Characters are Dafny characters, not C's 8-bit signed char. `okname`'s `c & 0200` test is modelled as "code point at or above 0x80". C strings are NUL-free strings, so `Colon`, `OkName` and `SplitLocation` require no NUL in their argument.
- Overflow of the fixed `cmdbuf`, `nambuf` and `buf` buffers on over-long records or names is not modelled.
