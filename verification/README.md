# Models of vaxpunk's core, with proofs

This project models the parts of vaxpunk whose correctness cannot be read off any one function, and proves what they promise, in Dafny 4.11. `dafny verify dfyconfig.toml` checks all of it. Nothing here runs the original programs.

Code that updates state in place is modelled as classes and methods with loops, each proved against a specification on values; pure code is modelled as functions. What the source does to hardware, seL4, lwIP or a disk is kept only as the state it stands for.

## What is modelled

**The PAL** (`pal/src/main.c`), the layer that makes seL4 look like a VAX processor.

- *AddressCache*, on *Lists* and *Ptes*: each context and mode has an address space, filled from the executive's page table entries. The records of what is mapped are C's own intrusive doubly linked lists, with pointers to pointers; *Lists* proves that unlinking and pushing act on sequences. Every call keeps the cache coherent, WRPTE, fills, evictions, a mode's first entry, a switch to a context old or new and deleting one: a page is mapped for a mode only with exactly the frame and rights its entry gives that mode now, at most once and in a mode that has run, and every record is on one frame's list and its context's, or free. *Ptes* has the entries' bits, and that what WRPTE takes is what a protection code gives. Over any calls in any order, a context that is not current and that none of them names keeps its own pages' entries, and a slot used again has nothing of the context before.
- *Frames*, *Nesting*, *Processor*, *Unwinding*, *Pal*: interrupts, exceptions, CHMx, REI, ASTs and context switching. *Frames* has the pure steps, *Nesting* shows that for any nesting each REI gives the interrupted code all of itself back, *Processor* proves interrupt safety over whole runs, *Unwinding* that its events are steps of *Nesting*, so that the same holds in every run and across any switches of context, and *Pal* is the C code as methods on the machine, proved to take those steps.
- *Queues*: the VAX queue calls, which rewrite links in the executive's memory, act on sequences of entries, and change no memory when they fail.
- *Untyped*: how RAM is divided into the PAL's share and the executive's page frames, and how a device's page is reached.

**The TCP/IP port** (`pal/tcpip/src/main.c`): *Rings*, *PortLink*, *Port*. The executive may take any step it is allowed between any two of the component's, and lwIP's callbacks may come at any time. Every command gets exactly one response, neither ring overwrites an unread entry through any wrap of its indices, and nothing waits on a closed connection.

**The Files-11 volume** (`crosstools/ods/crates/ods-core`).

- *Bitmap*, *FileMap*, *Sharing*, *Directory*, *DirRoom* model the allocator and the bitmap's repair, a file's map through pointer formats and chained headers, how clusters are shared out between the last header and new ones, and the update of a sorted directory spread over blocks, with the space it finds or does not.
- *Disk*, *Slots*, *Extension*, *Removal*, *Truncation*, *NewFile*, *DirDisk*, *Contents*, *LinkCount*, *Volume* model operations as the block writes they issue. `Volume.Volume.trace` has the disk after each write, and `Inv` is that every state in it is sound: every directory entry names a live primary header with its sequence number, every extension link the file's next header, every mapped cluster is marked allocated, and no cluster is mapped twice. So it is after a crash between any two writes. *Slots* has the index file's slots over a trace: a deleted header leaves its sequence number, and the next there has the one after it. `Counted` is that in every state each file's link count is at least the number of its entries, wherever they are on the volume.
- *Operations*, *Tidiness*, *Deleting*, *Purging*, *Creating*, *Renaming* have the operations themselves. Each says what each file holds afterwards, what each directory lists, which file numbers are marked and that every cluster is free or a file's; a directory update shows in exactly one write; and through a rename the file is never without an entry. The header's link count and back link are written where the source writes them, and `delete` goes by them. Every operation that leaves the disk sound takes a tidy volume, consistent and with every directory readable and in order, to a tidy one, whether or not it succeeds.
- *Histories* has any operations in any order. A file or directory that none of them is about is as it was; only deletions make files go, those of a create past its version limit among them, and never a reserved file; and no cluster is lost but to an extension that found no header. With hard links each file's count is at least its entries in every state of every history, so no entry ever dangles, as long as no file has 65,535 entries; without, as long as each file has one entry and no rename finds space for the new entry and then none to remove the old one.
- *Shortfalls* has a small volume for each way in which that falls short.
- *NameSyntax*, *Wildcards*, *Patterns*: file specifications as text, wildcard matching, and what the wildcards of a text come to. *Records*, *TextView*, *Formats* (`crosstools/ods/crates/ods-image`): records read from a file's blocks, lines written as records, a text view read at an offset, and the text of a file in each record format.

**The C heap** (`vms/crtl/stdlib.c`): *Heap*. **The assembler's values** (`crosstools/vtools`): *Relocation*, and *Arithmetic* for what its operators do. **The calendar** (`vms/crtl/time.c`): *Calendar*. *Numbers* holds the arithmetic they share.

## Where the code falls short of what one might expect

Each of these is stated exactly, for all inputs, and has an input that shows it.

- `delete` on a volume without hard links deletes the file with the entry in the directory that its back link is to, whatever other entries there are. `Deleting.Delete` says that the disk is unsound afterwards exactly when the file goes and had another entry; `Shortfalls.DeletionDangles` has a file with two.
- `create` of a version below the name's limit of newer ones deletes what it has just created, and succeeds. `Creating.Create` says that the file is there afterwards exactly when fewer versions than the limit are above it; `Shortfalls.CreationVanishes` asks for version 3 where version 5 is the one to keep.
- `create` that runs out of file numbers for its extension headers leaves those it took marked. `Operations.MakeFile` says which, and exactly when; `Shortfalls.CreationKeepsNumber` has two numbers, and 185 clusters no two of which are neighbours, whose pointers take three headers.
- `extend` that finds no header for its clusters leaves them allocated and in no file, and the numbers it took marked. `Operations.Extend` says which, and that space is conserved exactly otherwise; `Shortfalls.ExtensionLosesSpace` asks for 78 such clusters, one more than the first header has room for, where no number is vacant.
- `rename` adds one to the link count with saturation. `Renaming.Rename` says that the count still covers the entries exactly when the file had fewer than 65,535; `Shortfalls.RenameUncounts` has one with as many.
- `rename` makes the new entry before it removes the old one, and does not take it back where there is no space for the removal. `Renaming.Rename` says that both are left exactly when `Strands` holds of the disk before: the directory update that `DirRoom.Updated` describes can be done for the new entry, and on the blocks and free clusters it leaves cannot be for the old one. `Shortfalls.RenameStrands` has a full volume and a directory of two blocks, the first with one entry.
- A version limit of 0 is documented as none (`crosstools/ods/crates/ods-core/src/dir.rs:45`), and `create` keeps one version. `Creating.Create` says that the first max(limit, 1) are kept, and `Creating.AllStay` that under a limit of 0 all are exactly when there was none before; `Shortfalls.ZeroLimitPurges` has one.
- `rename` keeps a directory's type whatever its case, but the check that it is not moved below itself follows only names that end in `.DIR`, in upper case. `Renaming.ContainsDir` is true exactly when the directory can be reached so; `Shortfalls.NotSeenBelow` has one named `b.dir`.
- File IDs of deleted files never come back, the source says (`crosstools/ods/crates/ods-core/src/index.rs:22-24`), and sequence numbers go round. `Slots.BackAgain` says that a later file in the slot has the deleted one's ID exactly when the slot has been used a whole number of times 65,535 since, and `Slots.NoneBackIf` that the next file there never has; `Slots.IdReturns` has the run in which it comes back.
- `gmtime_r` gives the year exactly from second -67768040609740800 to 67768036191676799 (`Calendar.GmtimeYear`), and a second later the least `int` (`Calendar.YearWraps`).
- Bitmap repair leaves every cluster free or in one file exactly when the files' maps are disjoint (`Bitmap.RepairConserves`, `Bitmap.SharedCluster`).
- `parse` drops a first directory named 000000, and the path comes back exactly when there is none (`NameSyntax.PathReturns`, `NameSyntax.TopDropped`).
- A text copied in as records and out as lines is as it was exactly when it is whole lines without carriage returns at their ends (`TextView.InAndOut`, `TextView.LineFeedAdded`).

## Model

| member | source | states |
|---|---|---|
| Lists.UnlinkRefines | pal/src/main.c:947-957 | taking a record out through its pointer to a pointer removes it from its list as a sequence and leaves every other list as it was |
| Lists.PushRefines | pal/src/main.c:1005-1015 | a record put at a head goes in front of that sequence and changes no other |
| AddressCache.AddressSpaces.UncacheOne | pal/src/main.c:947-957 | the record leaves both its lists and is the first free one, its slot empties and its mapping goes; every other mapping, list and record stays |
| AddressCache.AddressSpaces.Uncache | pal/src/main.c:960-971 | afterwards no address space of the context, or of any, has the frame at the address; all other mappings are as they were |
| AddressCache.AddressSpaces.Room | pal/src/main.c:978-992 | nothing is evicted while a record is free or an eighth of the share is left; otherwise the other contexts' mappings go, and only where they have none the current kernel mode's P0 and P1 pages; true exactly when the share has its slack; the cache stays coherent |
| AddressCache.AddressSpaces.Cache | pal/src/main.c:995-1019 | exactly one mapping more, with the frame and rights the entry gives the mode, recorded on its frame's list and its context's |
| AddressCache.AddressSpaces.Fill | pal/src/main.c:1026-1049 | the page enters the mode's address space exactly when its entry lets the mode make the access, it is not there and there is room; otherwise nothing is mapped that was not |
| AddressCache.AddressSpaces.Wrpte | pal/src/main.c:1054-1084 | refused exactly for an address that is no page's or outside the executive's space, or without a process for one that is not shared, and for a valid entry, readable in some mode, whose frame there is not or whose enables are no protection code's; -1 exactly where there is no room for a mapping; both leave the tables as they were; else the entry is as asked, no address space keeps the old page and each of the process's that has run and may read it has the new one; the cache is coherent after all of them |
| AddressCache.RefusedIs | pal/src/main.c:1054-1063 | which addresses and entries are turned down, as numbers |
| Ptes.WellFormedIs | pal/src/main.c:908-913 | an entry's enables are taken exactly when they are 2^a - 1 for reads and 2^b - 1 for writes with b at most a, which is exactly when the C's test of `re & (re + 1)`, `we & (we + 1)` and `we & ~re` passes |
| Ptes.TestIs | pal/src/main.c:908-913 | that bit test, on every pair of four-bit enables |
| Ptes.CodeOpens | pal/src/main.c:893-901 | with such enables exactly the modes below a may read and exactly those below b may write |
| Ptes.PteFields | pal/src/main.c:880-906 | an entry built as 1 + 8 foe + 0x100 re + 0x1000 we + 2^32 pfn is valid and has those fields |
| Ptes.MappedIs | pal/src/main.c:903-906 | an entry maps its page exactly when its low bit is set and some read enable is |
| AddressCache.AddressSpaces.FreeSpace | pal/src/main.c:1087-1097 | a deleted context maps nothing and its P0 and P1 have no entries; every other context's mappings and entries stay |
| AddressCache.AddressSpaces.FindCtx | pal/src/main.c:1519-1525 | the first slot with the HWPCB, or none exactly where there is none |
| AddressCache.AddressSpaces.ModeThread | pal/src/main.c:1575-1584 | the mode has run from now on, and nothing is mapped for it yet |
| AddressCache.AddressSpaces.NewCtx | pal/src/main.c:1587-1604 | a free slot if there is one, else one more; whatever context had it before, it has no mapping and no P0 or P1 entry |
| AddressCache.AddressSpaces.Switch | pal/src/main.c:2055-2067 | the context of the HWPCB is current, a new one where there was none and it can be read; no mapping or entry changes, and the other contexts stay |
| AddressCache.AddressSpaces.Delete | pal/src/main.c:2301-2314 | refused exactly of the current context; else nothing of the context is left, and every other keeps its entries |
| AddressCache.AddressSpaces.Serve | pal/src/main.c:1026-1604 | any of the calls keeps all of it, and the entries of every context that is not current and not named |
| AddressCache.AddressSpaces.Run | pal/src/main.c:1026-1604 | the same of any calls in any order |
| AddressCache.AddressSpaces.constructor | pal/src/main.c:841-946 | at boot the cache is empty and coherent |
| AddressCache.AddressSpaces.EvictOthers | pal/src/main.c:978-990 | only the other contexts' mappings go, and all of them |
| AddressCache.AddressSpaces.EvictKernel | pal/src/main.c:983-989 | only kernel mode's P0 and P1 mappings of the current context go |
| Frames.PslRoundTrip | pal/src/main.c:1837-1846 | what is packed in a PSL is read back from it: condition codes, modes and IPL |
| Frames.PslIs | pal/src/main.c:1835-1846 | which bits of a PSL have the modes, the IPL and the condition codes |
| Frames.HandlerIs | pal/src/main.c:1866-1867 | the handler is the longword at the SCB's base and the vector's offset, in either half of a quadword |
| Frames.FrameIs | pal/src/main.c:1820-1901 | where in memory the PC, the PSL, each register, the stack pointer and each parameter are pushed, on which stack, and where the stack pointer of a mode left is kept |
| Nesting.Pushes | pal/src/main.c:1863-1901 | the handler has its parameters at its stack pointer and all of the interrupted state in the frame above them, inside its mode's stack; nothing else in memory changes but the stack pointer of the mode it leaves |
| Frames.ReiRestores | pal/src/main.c:1956-1984 | REI from a frame that holds what was pushed gives back PC, registers, SP, condition codes, modes and IPL |
| Frames.ReidLegal | pal/src/main.c:1956-1984 | REI never goes to an inner mode, never leaves a previous mode inner to the current one, nor an IPL above 0 outside kernel mode |
| Nesting.VectorOk | pal/src/main.c:1863-1901 | a new frame lies below every live frame of its stack and overwrites none of them |
| Nesting.NextOk | pal/src/main.c:1863-1984 | every step, of any kind, keeps the stacks well formed |
| Nesting.TraceOk | pal/src/main.c:1863-1984 | so every state of every run is |
| Nesting.Nested | pal/src/main.c:1863-1984 | whatever nests between an interrupt, exception or CHMx and the REI that pops its frame, the code interrupted is restored in full, and the frames live before are live and unchanged |
| Processor.Delivers | pal/src/main.c:1910-1947 | deliver takes the highest pending interrupt that IPL lets through, if there is one, and leaves none above the IPL |
| Processor.Safe | pal/src/main.c:1800-2127 | each event resumes a context only with nothing pending above its IPL, keeps every request pending or at its handler, entered from the very state the event made of the one before, and lowers the mode number only at an SCB handler |
| Processor.AlwaysResumed | pal/src/main.c:1800-2387 | in every state of every run nothing pending is above the IPL, the IPL 21 bit is set exactly when a device asks, outer modes run at IPL 0, no previous mode is inner to the current one and every waiting context is in kernel mode |
| Processor.PendingUntilTaken | pal/src/main.c:1910-1947 | an interrupt requested stays pending in a run until the step that takes its vector: the frame pushed is of the state that step's event had made, whose IPL was below it |
| Processor.DevicePendingUntilTaken | pal/src/main.c:1800-1804 | the two devices that share a level each stay requested until their own vector is taken |
| Processor.Ticked | pal/src/main.c:2362-2387 | each badge of a tick leaves its interrupt pending or its handler just entered, by its level and its vector |
| Processor.TickEnters | pal/src/main.c:2362-2387 | it is entered at once where IPL is below its level and no badge asks for a higher one |
| Processor.TickOnly | pal/src/main.c:2362-2387 | a tick requests nothing else, but the AST interrupt where one waits |
| Processor.AstTaken | pal/src/main.c:1910-1940 | an AST both pending and enabled for the mode or an inner one is delivered below IPL 2, at software level 2's vector, where nothing higher is pending |
| Processor.CallAnswers | pal/src/main.c:2028-2344 | each call leaves its answer in R0, the PC four past and what it sets, or is interrupted just there; SIRR and RXCS request their level; CHMx enters its vector in the inner of the two modes, and a reserved operand its own |
| Processor.CallRefused | pal/src/main.c:2092-2104 | a privileged call from an outer mode is the reserved instruction, at the call |
| Unwinding.EventFollows | pal/src/main.c:1800-2387 | what an event leads to in its context is the state it makes, the one before it, or the handler vector() enters from the state it makes, with the arguments the PAL gives it |
| Unwinding.SwitchFollows | pal/src/main.c:2055-2084 | SWPCTX leaves the old context waiting with its mode and registers and every other that waits as it was, and the new one goes on with its own, or is interrupted there |
| Unwinding.EventSteps | pal/src/main.c:1800-2387 | every event is two steps of Nesting for a context that is current, and none for one that waits; coming back is a step too, if its stacks are as it left them |
| Unwinding.SeenOn | pal/src/main.c:1800-2387 | so a run of the processor is seen from a context as a run of Nesting, an event at a time |
| Unwinding.Unwound | pal/src/main.c:1800-2387 | in any run of the processor, whatever interrupts, exceptions, returns and switches away and back come between, the REI that pops a frame gives the code it interrupted all of itself back, and the frames of before are live and unchanged |
| Pal.Machine.constructor | pal/src/main.c:1796-1797 | at boot the machine is at IPL 31 in kernel mode with nothing pending |
| Pal.Machine.Vector | pal/src/main.c:1863-1901 | the in-place writes make exactly the state Frames.Vectored gives, or on failure none |
| Pal.Machine.Rei | pal/src/main.c:1956-1984 | the same for REI and Frames.Reid |
| Processor.AstMask | pal/src/main.c:1910-1917 | the two bytes of the HWPCB shifted, anded and masked by the mode are not 0 exactly when some mode up to the current one has an AST both pending and enabled |
| Pal.Machine.Astcheck | pal/src/main.c:1910-1917 | the interrupt is requested by that mask exactly where such an AST waits and IPL lets it through |
| Pal.Machine.DeliverTo | pal/src/main.c:1920-1940 | the loop over the pending bits is Processor.Deliver |
| Pal.Machine.IsDeliverable | pal/src/main.c:1943-1947 | true exactly when deliver would take an interrupt |
| Pal.Machine.Return | pal/src/main.c:2028-2047 | the fast reply and the way through the registers have the same outcome, Processor.Ret |
| Pal.Machine.Except | pal/src/main.c:2092-2104 | Processor.Exception: to kernel mode from an outer mode, none from kernel mode |
| Pal.Machine.ChangeMode | pal/src/main.c:2113-2127 | Processor.Chmx, with the reserved instruction where there is no handler |
| Pal.Machine.ReturnFromInterrupt | pal/src/main.c:2129-2150 | REI as the executive calls it, with the interrupts it lets through |
| Pal.Machine.TickOf | pal/src/main.c:2362-2387 | the clock's badge leaves IPL 24 pending or its handler at 0xc0 just entered, the port's and the disks' IPL 21 with 0x100 and 0x104, input IPL 20 with 0xf8 where RXCS lets it; the handler is entered at once where IPL is below and nothing higher is asked for; and nothing else is requested but an AST that waits; to a running context or one that waits |
| Pal.Machine.SwapContext | pal/src/main.c:2055-2084 | Processor.Swpctx, for a context that has run and for a new one |
| Queues.PutGets | pal/src/main.c:1663-1674 | a link stored is loaded back, at either width, and a store leaves every other aligned link alone |
| Queues.RingInsert | pal/src/main.c:1702-1715 | linking an entry in after the k-th node is insertion in the sequence, for any length |
| Queues.RingRemove | pal/src/main.c:1720-1734 | linking the k-th node out is removal from the sequence |
| Queues.InsertThenRemove | pal/src/main.c:1702-1769 | removing what was inserted gives the memory of the queue back |
| Queues.CodeTable | pal/src/main.c:1606-1618 | each PAL code is the call its name says: head or tail, longword or quadword, deferred or not, resident or not |
| Queues.QueueMemory.InsertSelf | pal/src/main.c:1690-1715 | INSQHI and INSQTI put the entry in front of or behind the entries, with status 1 for the only one, else 0; the interlock gives -1; any fault leaves memory unchanged |
| Queues.QueueMemory.RemoveSelf | pal/src/main.c:1716-1735 | REMQHI and REMQTI take the first or the last entry, with status 0, 1 or 2 and the entry or the header in R1 |
| Queues.QueueMemory.InsertAfter | pal/src/main.c:1736-1754 | INSQUE puts the entry after the k-th node, directly or deferred |
| Queues.QueueMemory.RemoveEntry | pal/src/main.c:1755-1769 | REMQUE takes the k-th node out; -1 where the queue was empty |
| Queues.QueueMemory.Queue | pal/src/main.c:1679-1770 | every code does its call on the sequence, changes no memory but the links of the nodes, and on a reserved operand or access violation changes nothing |
| Untyped.Ut.Retype | pal/src/main.c:249-260 | an object goes at the next multiple of its size, over no other, and exactly when there is room |
| Untyped.CutShare | pal/src/main.c:2632-2640 | the pieces are powers of two of at least a page, each smaller than the last, that fill the first want bytes with no padding and sum to exactly what was wanted |
| Untyped.MemoryInit | pal/src/main.c:2618-2649 | the share is exactly what is due of all RAM, cut from one untyped; the share and the pages for PFNs are together all of RAM; it fails exactly where there is no RAM, or no untyped is larger than the share |
| Untyped.ShareIs | pal/src/main.c:2631-2632 | the share is at least a sixteenth of RAM and 16 MB, in whole pages and within a page of it |
| Untyped.PageFrames.constructor | pal/src/main.c:2641-2649 | pfn_count is the pages left in all untypeds, up to what a PTE can name |
| Untyped.PageFrames.Touch | pal/src/main.c:826-839 | whichever PFNs are asked for and in whatever order, one is never out of pages, each gets a page of its own and keeps it |
| Untyped.DeviceFrame | pal/src/main.c:403-426 | the filler up to the page has no holes, each piece being the largest possible; the page is the one asked for exactly when its offset is a whole number of pages, and there is none exactly past the end |
| Untyped.NextPage | pal/src/main.c:403-426 | for the second byte of a device, which no caller asks for, the second page is given: so the condition in DeviceFrame is needed |
| Untyped.PieceBits | pal/src/main.c:416-419 | the largest power of two that is aligned there and ends by the page |
| Rings.RingPut | pal/tcpip/src/main.c:328-334 | an entry put past the others overwrites none, through wrapping indices |
| Rings.RingGet | pal/tcpip/src/main.c:842-845 | the oldest entry comes out and the rest stay in order |
| PortLink.Credits | pal/tcpip/include/port.h:6-12 | queued commands, waiting tags, unread responses and the one at hand are as many as the tags given out, at most 32, so neither ring overflows |
| PortLink.ExecStep | pal/tcpip/include/port.h:6-51 | no step the executive may take upsets the count |
| PortLink.TakeStep | pal/tcpip/src/main.c:842-846 | a command taken off the ring is the one at hand |
| PortLink.WaitStep | pal/tcpip/src/main.c:339-345 | the command at hand waits on its own tag |
| PortLink.AnswerStep | pal/tcpip/src/main.c:328-337 | the command at hand gets its one response |
| PortLink.FinishStep | pal/tcpip/src/main.c:328-337 | a waiting command gets its one response and waits no more |
| PortLink.PublishStep | pal/tcpip/src/main.c:331-333 | the response is there for the executive once it is published |
| Port.Component.Respond | pal/tcpip/src/main.c:328-337 | one response, to the command at hand |
| Port.Component.WaitFor | pal/tcpip/src/main.c:339-345 | the command waits by its tag |
| Port.Component.Cancel | pal/tcpip/src/main.c:496-501 | each command waiting on the connection gets one response, and no other command does |
| Port.Component.ConnFree | pal/tcpip/src/main.c:503-527 | the connection, those in its backlog and so on down close, and no others; each command waiting on one of them gets one response that it is aborted, and no other command is touched; it ends although backlogs may name connections since reused |
| Port.Component.ConnAlloc | pal/tcpip/src/main.c:436-444 | the first free connection, as new, or 0 exactly when all are in use |
| Port.Component.SockNew | pal/tcpip/src/main.c:460-480 | a new socket with its control block; none exactly when lwIP has none for it or every socket is in use, and then those in use are as they were |
| Port.Component.OnAccept | pal/tcpip/src/main.c:482-493 | a new connection goes last in the backlog exactly when the backlog has room and a connection is free; otherwise nothing changes |
| Port.Component.QueueDgram | pal/tcpip/src/main.c:408-415 | a datagram goes last, or is dropped where the socket holds eight |
| Port.Component.FinishSend | pal/tcpip/src/main.c:651-666 | as much as lwIP has room for is written, and the answer comes when all is |
| Port.Component.FinishStream | pal/tcpip/src/main.c:676-686 | as much as was asked for of what came, which is then no longer there, or that there is no more; no other socket changes |
| Port.Component.FinishAccept | pal/tcpip/src/main.c:635-644 | the connection that came first is given out and leaves the backlog; no other socket changes |
| Port.Component.SetMode | pal/tcpip/src/main.c:530-554 | the status of binding and listening, and the socket listens just when it was asked to and could |
| Port.Component.TakeDgram | pal/tcpip/src/main.c:667-675 | the datagram that came first comes out first |
| Port.Component.Open | pal/tcpip/src/main.c:698-706 | the status that making, binding and listening call for, the first free socket with success, open as asked, and none without; one response; no other socket and no waiting command changes |
| Port.Component.IfConfig | pal/tcpip/src/main.c:707-733 | an answer at once, or a wait for DHCP, as the verdict says |
| Port.Component.Connect | pal/tcpip/src/main.c:743-768 | each refusal answered with its own status, else the command waits; a datagram or raw socket is connected afterwards exactly where lwIP connects it, and nothing else changes |
| Port.Component.Send | pal/tcpip/src/main.c:769-784 | each refusal answered with its own status, else the command waits |
| Port.Component.AcceptOrRecv | pal/tcpip/src/main.c:785-798 | each refusal answered with its own status, else the command waits |
| Port.Component.Shutdown | pal/tcpip/src/main.c:802-809 | one response, with lwIP's status or the refusal; what was received is dropped unless only sending ends |
| Port.Component.Cease | pal/tcpip/src/main.c:810-817 | CANCEL and CLOSE: the commands that wait end with their responses first, then it is answered |
| Port.Component.OnSocket | pal/tcpip/src/main.c:739-819 | a command on a socket changes just that socket, and as the command and lwIP say |
| Port.Component.Command | pal/tcpip/src/main.c:692-820 | whatever the command, it gets one response with the status the socket and lwIP call for, or waits on its tag, and the sockets are exactly what it makes of them; CANCEL ends just the commands that wait on the connection, and CLOSE also those further down, which close with it |
| Port.StatusIs | pal/tcpip/include/port.h:46-78 | the status each kind of command gets at once, by number, or that it waits |
| Port.Component.TryFinish | pal/tcpip/src/main.c:619-689 | the waiting command is answered once if it can be, with what came of it, and no other is; what it was given leaves the socket, and no other socket changes |
| Port.Component.FinishOn | pal/tcpip/src/main.c:634-687 | the same for each kind of command on a socket |
| Port.Component.FinishDgram | pal/tcpip/src/main.c:667-675 | the oldest datagram, as much of it as was asked for, and it is gone |
| Port.Component.Called | pal/tcpip/src/main.c:380-493 | each callback changes just its socket: bytes that came, the end, an error, a connection made |
| Port.Component.ServeOne | pal/tcpip/src/main.c:842-847 | the oldest command is taken, and is answered once or waits; with none nothing is answered |
| Port.Component.Sweep | pal/tcpip/src/main.c:848-850 | the new responses are, in the order of tags, one to each command that waits no longer, and a tag with no command stays so |
| Port.Component.Signal | pal/tcpip/src/main.c:852-855 | the executive is signalled exactly when a response was published since the last signal |
| Port.Component.Network | pal/tcpip/src/main.c:380-493 | any callback, in any order, keeps all of it |
| Port.Component.Executive | pal/tcpip/include/port.h:6-51 | any step of the executive between the component's keeps all of it |
| Port.Component.constructor | pal/tcpip/src/main.c:822-831 | nothing is sent, waits or is open at first |
| Heap.UnitsConserved | vms/crtl/stdlib.c:20-28 | the units in use and free are together those obtained |
| Heap.FreedAll | vms/crtl/stdlib.c:30-53 | freeing keeps the blocks tiling the regions, the list in address order with no two free blocks touching, and every other block as it was |
| Heap.Moved | vms/crtl/stdlib.c:112-128 | a block moved has what the old one held |
| Heap.Allocator.constructor | vms/crtl/stdlib.c:75-78 | an empty heap is well formed |
| Heap.Allocator.Place | vms/crtl/stdlib.c:36-39 | the walk ends at the free block below the one freed, in the circular list |
| Heap.Allocator.Free | vms/crtl/stdlib.c:30-53 | the block is free, merged with its free neighbours on either side; the blocks in use and their data stay |
| Heap.Allocator.More | vms/crtl/stdlib.c:55-68 | a region of at least CHUNK pages joins the list, or nothing changes |
| Heap.Allocator.Search | vms/crtl/stdlib.c:79-95 | the first free block large enough, from the roving pointer on; the system is asked only where no free block is large enough, and once, even where the new region merged into an old block |
| Heap.Allocator.Malloc | vms/crtl/stdlib.c:70-96 | a block of at least size bytes apart from all in use, or none exactly where nothing fits and the system refuses; the heap grows only where nothing fits; nothing else changes |
| Heap.Allocator.Realloc | vms/crtl/stdlib.c:112-128 | the same block, with nothing changed, exactly where it is large enough; else another with the same data and the old one freed; or none exactly where nothing fits and the system refuses, and then every block and region stays |
| Heap.Allocator.CopyData | vms/crtl/stdlib.c:122-126 | the new block has the old one's data, and no other block changes |
| Bitmap.Scan | crosstools/ods/crates/ods-core/src/bitmap.rs:95-112 | the maximal free runs, in order, all of them |
| Bitmap.SortLongest | crosstools/ods/crates/ods-core/src/bitmap.rs:126-128 | the same runs, longest first |
| Bitmap.ChooseWhole | crosstools/ods/crates/ods-core/src/bitmap.rs:117-125 | one run: right after the file where it has a place, else the lowest that is long enough; none exactly where there is none |
| Bitmap.ChoosePieces | crosstools/ods/crates/ods-core/src/bitmap.rs:126-147 | right after the file first; else as few pieces as any choice has, or the lowest free clusters; none exactly where too little is free |
| Bitmap.TakesFewest | crosstools/ods/crates/ods-core/src/bitmap.rs:126-143 | the longest runs first are as few pieces as any way of choosing so many free clusters |
| Bitmap.Choose | crosstools/ods/crates/ods-core/src/bitmap.rs:88-147 | disjoint runs of exactly the clusters wanted, all free before |
| Bitmap.ChooseBlocks | crosstools/ods/crates/ods-core/src/bitmap.rs:88-147 | the same for blocks: the least whole number of clusters that holds them |
| Bitmap.Clear | crosstools/ods/crates/ods-core/src/bitmap.rs:148-152 | exactly the chosen bits are cleared |
| Bitmap.Release | crosstools/ods/crates/ods-core/src/bitmap.rs:156-174 | exactly those bits are set, and it finds whether one was free already |
| Bitmap.ReleaseUndoes | crosstools/ods/crates/ods-core/src/bitmap.rs:156-174 | releasing what was allocated gives the bitmap back |
| Bitmap.Owners | crosstools/ods/crates/ods-core/src/verify.rs:174-245 | each cluster's owner is the first file that maps it |
| Bitmap.Repair | crosstools/ods/crates/ods-core/src/verify.rs:391-407 | the bits are those the owners say |
| Bitmap.RepairConserves | crosstools/ods/crates/ods-core/src/verify.rs:246-277 | after repair every cluster is free or in one file exactly when the maps are disjoint, and no bits would do where they are not |
| Bitmap.SharedCluster | crosstools/ods/crates/ods-core/src/verify.rs:246-277 | two files with one cluster, which no bits put right |
| FileMap.MergeRuns | crosstools/ods/crates/ods-core/src/volume.rs:33-43 | the same blocks in the same order, with no run that continues the one before it |
| FileMap.MapVbn | crosstools/ods/crates/ods-core/src/volume.rs:46-56 | the block at that place of the file's sequence and how many follow it; none for 0 and past the end |
| FileMap.MapRoundTrip | crosstools/ods/crates/ods-core/src/layout/header.rs:320-366 | decoding an encoded map gives the pointers back, in every format |
| FileMap.WordsAre | crosstools/ods/crates/ods-core/src/layout/header.rs:351-372 | the words of each format, from the parts of its count and its block number |
| FileMap.MapRoomIs | crosstools/ods/crates/ods-core/src/index.rs:124-135 | the fixed part, the ident area and the room for pointers fill a header up to its checksum; 310 bytes of room unless an ODS-5 name is longer than 44 |
| FileMap.PointersFor | crosstools/ods/crates/ods-core/src/index.rs:149-163 | pointers that hold the runs, the same blocks in the same order, and exactly those of Pointers |
| FileMap.FitFits | crosstools/ods/crates/ods-core/src/file.rs:385-393 | the pointers kept fit the header, and one more would not |
| FileMap.Append | crosstools/ods/crates/ods-core/src/file.rs:179-259 | the file's blocks are the old ones and then the new ones, through merging, growth of the last pointer and chained headers, every header's pointers fit it, and the headers are exactly those of Spread |
| FileMap.MergedOnly | crosstools/ods/crates/ods-core/src/volume.rs:33-43 | merged runs depend on the blocks alone, however they were cut before |
| FileMap.SpreadBlocks | crosstools/ods/crates/ods-core/src/file.rs:179-259 | what the last header keeps and the new ones get are the old blocks and then the new ones, and each fits |
| FileMap.ChunksFewest | crosstools/ods/crates/ods-core/src/file.rs:211-220 | no way to divide the pointers in order takes fewer headers |
| Sharing.DividedAll | crosstools/ods/crates/ods-core/src/file.rs:179-259 | the clusters of the last header and of each new one are together all of them, in order |
| Sharing.StandsAfter | crosstools/ods/crates/ods-core/src/file.rs:179-259 | where the last header's pointers are of its clusters and no pointer has to end inside one, the pointers written in each header are of exactly the clusters the model gives it |
| Sharing.ScatteredNeed | crosstools/ods/crates/ods-core/src/file.rs:205-220 | for clusters no two of which are neighbours the headers needed are exactly those for one pointer each |
| FileMap.Truncate | crosstools/ods/crates/ods-core/src/file.rs:263-325 | the file is exactly its first blocks and exactly the rest are freed; every header still fits |
| FileMap.AppendUndone | crosstools/ods/crates/ods-core/src/file.rs:263-325 | truncating to the old length undoes an extension and frees what it added |
| FileMap.Pieces | crosstools/ods/crates/ods-core/src/file.rs:417-430 | the transfers cover the buffer once, in order, each from the block the file has there |
| Directory.CmpAnti | crosstools/ods/crates/ods-core/src/name.rs:281-284 | the case-blind comparison is antisymmetric |
| Directory.CmpTrans | crosstools/ods/crates/ods-core/src/name.rs:281-284 | and transitive |
| Directory.CmpIs | crosstools/ods/crates/ods-core/src/name.rs:281-284 | equal exactly when they differ in case alone; less exactly when at the first difference the one ends or has the lower character |
| Directory.RecordsHold | crosstools/ods/crates/ods-core/src/dir.rs:338-344 | a name's records hold exactly its versions in order, and each fits a block; the first says the limit and flags it was given and each is under the name |
| Directory.Search | crosstools/ods/crates/ods-core/src/dir.rs:181-192 | all of the name's records, or the place they would go |
| Directory.Spliced | crosstools/ods/crates/ods-core/src/dir.rs:215-217 | removing the name's records and splicing in the new ones edits that name and no other |
| Directory.Pack | crosstools/ods/crates/ods-core/src/dir.rs:347-359 | the same records in the same order, in blocks that all can be written, and exactly those of Packed |
| Directory.Work | crosstools/ods/crates/ods-core/src/dir.rs:203-233 | whichever way it is written, the directory is the old one with the name's records replaced; the way is the one PlanFor gives: in the one block they belong in, by cutting off the last, as a block more, or all anew |
| Directory.Update | crosstools/ods/crates/ods-core/src/dir.rs:169-233 | one version entered or removed changes the listing exactly so, names stay in order, it fails exactly where the version is there or is not, and what is written is PlanFor's plan for the name's new records; the name's records then bear the flags and limit it had, or those of the first entry, and every other name's records are as they were |
| Directory.StyledLeads | crosstools/ods/crates/ods-core/src/dir.rs:194-203 | a name that was there keeps its flags and limit, and a new one has those it is entered with |
| Directory.ListedBy | crosstools/ods/crates/ods-core/src/dir.rs:194-203 | an update leaves the listing of the name as edited and all other names' records the same |
| Directory.Gather | crosstools/ods/crates/ods-core/src/dir.rs:194-201 | the loops collect exactly the name's versions, under what its first record says of it or what it starts with |
| DirRoom.UpdateFails | crosstools/ods/crates/ods-core/src/dir.rs:203-314 | an update finds no space exactly when the whole directory has to be written anew (its records are in several blocks, or do not fit their block and cannot follow all others, or empty a block that is not the last) and no run of free clusters is as long as its packed blocks and a quarter more |
| DirRoom.AddAlike | crosstools/ods/crates/ods-core/src/dir.rs:203-314 | whether there is space for an entry does not depend on the file, flags or limit it is entered with |
| DirRoom.RoomyFits | crosstools/ods/crates/ods-core/src/dir.rs:203-222 | in a directory of one block in which the versions fit there is always space, whatever is free |
| Directory.RemovalFits | crosstools/ods/crates/ods-core/src/dir.rs:203-233 | in a directory of one block one version fewer always fits, however the name's versions were divided between records |
| Directory.NoStrangers | crosstools/ods/crates/ods-core/src/dir.rs:194-203 | an update brings in no entry but its own |
| Disk.BitsTaken | crosstools/ods/crates/ods-core/src/bitmap.rs:148-152 | marking clusters allocated leaves the disk sound |
| Disk.BitsGiven | crosstools/ods/crates/ods-core/src/bitmap.rs:156-174 | so does freeing those no header maps |
| Disk.HeaderAdded | crosstools/ods/crates/ods-core/src/index.rs:11-24 | so does a header in an empty slot that nothing names yet |
| Disk.HeaderExtended | crosstools/ods/crates/ods-core/src/file.rs:242-257 | so do clusters added to the last header, with a link to one on disk |
| Disk.HeaderCut | crosstools/ods/crates/ods-core/src/file.rs:301-320 | so does shortening a header and its link |
| Disk.HeaderKilled | crosstools/ods/crates/ods-core/src/index.rs:112-121 | so does deleting a header that nothing links to and no other directory names |
| Disk.EachOnce | crosstools/ods/crates/ods-core/src/verify.rs:246-277 | where nothing is lost, a cluster is free just when no header maps it, and at most one does, once |
| Disk.EofMoved | crosstools/ods/crates/ods-core/src/dir.rs:236-246 | so does moving a directory's end over blocks that name what is there |
| Disk.DirectoryMoved | crosstools/ods/crates/ods-core/src/dir.rs:313-328 | so does pointing a directory at its new place |
| Extension.ExtSound | crosstools/ods/crates/ods-core/src/file.rs:224-241 | each new extension header, last to first, leaves the disk sound |
| Extension.AppendedSound | crosstools/ods/crates/ods-core/src/file.rs:242-257 | and so does the last header that links to them |
| Extension.AppendedConsistent | crosstools/ods/crates/ods-core/src/file.rs:179-259 | and the volume is consistent at the end |
| Extension.AppendedOwns | crosstools/ods/crates/ods-core/src/file.rs:179-259 | exactly the clusters appended are mapped besides |
| Removal.InChain | crosstools/ods/crates/ods-core/src/volume.rs:215-235 | every header of a file is in its chain, in its place |
| Removal.KillSound | crosstools/ods/crates/ods-core/src/ops.rs:309-312 | deleting the chain's headers in order leaves the disk sound after each |
| Removal.ChainSevered | crosstools/ods/crates/ods-core/src/ops.rs:295-313 | nothing left refers to a chain that goes |
| Removal.KilledFrees | crosstools/ods/crates/ods-core/src/ops.rs:309-313 | exactly its clusters are then in no file |
| Truncation.CutSound | crosstools/ods/crates/ods-core/src/file.rs:301-320 | both header writes of a cut leave the disk sound |
| Truncation.CutSevered | crosstools/ods/crates/ods-core/src/file.rs:307-323 | the headers after the cut can go |
| Truncation.CutOwns | crosstools/ods/crates/ods-core/src/file.rs:283-311 | exactly the clusters past the cut are no longer mapped |
| NewFile.AddedSound | crosstools/ods/crates/ods-core/src/ops.rs:133 | a new primary header leaves the disk sound |
| NewFile.AddedConsistent | crosstools/ods/crates/ods-core/src/ops.rs:133 | and the volume consistent, with one file more |
| NewFile.AppendedFile | crosstools/ods/crates/ods-core/src/file.rs:179-259 | space for a file that is no directory changes no listing |
| Contents.MapsOnce | crosstools/ods/crates/ods-core/src/volume.rs:257-268 | a file holds one list of clusters |
| Contents.AppendedMaps | crosstools/ods/crates/ods-core/src/file.rs:179-259 | appended clusters follow those the file held |
| Contents.AppendedKeeps | crosstools/ods/crates/ods-core/src/file.rs:179-259 | and no other file changes |
| Contents.BaseIs | crosstools/ods/crates/ods-core/src/file.rs:268-279 | a header's place is the number of clusters the headers before it map |
| Contents.CutMaps | crosstools/ods/crates/ods-core/src/file.rs:283-320 | a file cut holds exactly its first clusters |
| Contents.KilledKeeps | crosstools/ods/crates/ods-core/src/ops.rs:295-313 | deleting a file changes no other |
| DirDisk.EntriesNamed | crosstools/ods/crates/ods-core/src/dir.rs:75-94 | on a sound volume every entry a directory lists is a file's |
| DirDisk.ListsAre | crosstools/ods/crates/ods-core/src/dir.rs:75-94 | what is in a directory's blocks is what it lists |
| DirDisk.PutInPlace | crosstools/ods/crates/ods-core/src/dir.rs:219-222 | a block written over changes that block of the listing only |
| DirDisk.EofBlocks | crosstools/ods/crates/ods-core/src/dir.rs:223-227 | moving the end drops the last block or takes in the next |
| DirDisk.ReadableAgain | crosstools/ods/crates/ods-core/src/dir.rs:75-94 | what an update writes is read back |
| LinkCount.InPlaces | crosstools/ods/crates/ods-core/src/dir.rs:75-94 | the set of a file's places has a directory, name and version exactly when some block in use there has that entry for it |
| LinkCount.CalmCovered | crosstools/ods/crates/ods-core/src/ops.rs:276-281 | no more entries and no lower counts leave every file's count at least the number of its entries |
| Volume.Volume.constructor | crosstools/ods/crates/ods-core/src/volume.rs:77-119 | a sound disk starts a sound trace, and one whose counts cover its entries a counted one |
| Volume.Volume.Write | crosstools/ods/crates/ods-core/src/volume.rs:165-173 | one block write is one more state of the trace, and it is sound |
| Volume.Volume.WriteBitmap | crosstools/ods/crates/ods-core/src/bitmap.rs:177-194 | only the blocks that cover the ranges are written, the disk is sound after each, and the bitmap is then as wanted |
| Volume.Volume.Allocate | crosstools/ods/crates/ods-core/src/bitmap.rs:88-153 | free clusters are marked before anything names them; none and no write where there is no room |
| Volume.Volume.Release | crosstools/ods/crates/ods-core/src/bitmap.rs:156-174 | exactly those clusters are free, through sound states |
| Volume.Volume.AllocHeader | crosstools/ods/crates/ods-core/src/index.rs:27-88 | the lowest file number not in use, under the slot's next sequence number, covered by the index file before any header is written |
| Slots.LastIs | crosstools/ods/crates/ods-core/src/index.rs:20-24 | over any writes a slot's sequence number is its old one moved on once for each header put there since |
| Slots.BackAgain | crosstools/ods/crates/ods-core/src/index.rs:20-24 | a later file in a deleted one's slot has its ID exactly when the slot has been used a whole number of times 65,535 since |
| Slots.NoneBackIf | crosstools/ods/crates/ods-core/src/index.rs:20-24 | the next file in the slot of a deleted one never has its ID |
| Slots.IdReturns | crosstools/ods/crates/ods-core/src/index.rs:20-24 | any file deleted and made again 65,535 times has its old ID |
| Volume.Volume.Headers | crosstools/ods/crates/ods-core/src/volume.rs:215-235 | the file's headers in order; on a consistent volume the walk ends |
| Volume.Volume.AllocHeaders | crosstools/ods/crates/ods-core/src/index.rs:27-88 | as many file numbers as asked for, each vacant before, exactly where there are so many; else exactly all there were stay marked |
| Volume.Volume.AppendRuns | crosstools/ods/crates/ods-core/src/file.rs:179-259 | the clusters go to the end of the file, through sound states; it fails exactly where there are fewer vacant numbers than further headers, maps nothing then and leaves exactly those marked |
| Volume.Volume.KillAll | crosstools/ods/crates/ods-core/src/index.rs:112-121 | each header deleted in turn leaves its sequence number in its slot, and every other slot what it had, through sound states |
| Volume.Volume.DeleteFile | crosstools/ods/crates/ods-core/src/ops.rs:295-313 | the file and only it is gone, its clusters and numbers are free, no other file or directory changes, and space is conserved; the disk is sound after it where no directory has an entry for it, and only where no other directory has; every slot it leaves has its sequence number; where it is to be erased its blocks are empty afterwards, and else no data changes |
| Volume.Volume.Erase | crosstools/ods/crates/ods-core/src/ops.rs:301-308 | every block of the clusters is empty afterwards, and no other block changes |
| Volume.Volume.Truncate | crosstools/ods/crates/ods-core/src/file.rs:263-325 | the file holds exactly its first clusters, every other file what it did, the rest are free, through sound states; every slot it leaves has its sequence number |
| Volume.Volume.ReadDir | crosstools/ods/crates/ods-core/src/dir.rs:75-94 | the directory's blocks in order |
| Volume.Volume.WriteInPlace | crosstools/ods/crates/ods-core/src/dir.rs:219-222 | one block of the listing changes, in one write |
| Volume.Volume.CutBack | crosstools/ods/crates/ods-core/src/dir.rs:223-227 | the last block goes, in one write |
| Volume.Volume.Lengthen | crosstools/ods/crates/ods-core/src/dir.rs:266-276 | a cluster more right after the last, and no listing changes meanwhile; exactly where free space begins there |
| Volume.Volume.AppendBlockTo | crosstools/ods/crates/ods-core/src/dir.rs:253-282 | a block more, written before the one write that shows it; exactly where the directory has a block to spare or free space begins after it, and nothing is written otherwise |
| Volume.Volume.WriteBlocks | crosstools/ods/crates/ods-core/src/dir.rs:309-312 | the blocks of the new place are written while every listing stays as it is |
| Volume.Volume.RewriteDir | crosstools/ods/crates/ods-core/src/dir.rs:287-333 | the listing is the new blocks, in the one write of the header; they go to the lowest run of free clusters for them and a quarter more, and the old space is free; nothing is written exactly where there is no such run |
| Volume.Volume.DirUpdate | crosstools/ods/crates/ods-core/src/dir.rs:169-233 | the listing changes exactly by the edit in exactly one write, nothing else on the volume does, every state is sound; it fails exactly where the version is there, or is not, or DirRoom.Updated finds no space, and then nothing is written; else the directory's blocks, its clusters and the free ones are what Updated says; the name's records bear the flags and limit Update says |
| Operations.Extend | crosstools/ods/crates/ods-core/src/file.rs:159-259 | the file grows by exactly what was allocated, after its last cluster where it is contiguous; no room changes nothing; there is no header exactly where there are fewer vacant numbers than the headers that append_runs chains for those clusters after the last header's pointers, and space is conserved exactly otherwise: then just the clusters taken are lost and the numbers there were stay marked; the pointers written are of the last header's clusters again |
| Operations.LastStandsAfter | crosstools/ods/crates/ods-core/src/file.rs:179-259 | after an extension the pointers of the header that is then the last are of its clusters, so the next may start from them |
| Operations.SameRuns | crosstools/ods/crates/ods-core/src/bitmap.rs:88-153 | the runs allocate gives in blocks are divided between headers as the clusters one by one are |
| Operations.Reserve | crosstools/ods/crates/ods-core/src/file.rs:163-175 | the clusters a file that grows gets, as allocate chooses them |
| Operations.MakeFile | crosstools/ods/crates/ods-core/src/ops.rs:94-142 | one file more with the clusters asked for, in no directory, all else as it was; each failure exactly where its cause is, out of numbers where there are fewer than the headers append_runs needs for those clusters with the first header's room, and then the volume is as it was, but that all vacant numbers but the lowest stay marked |
| Creating.MakeEntry | crosstools/ods/crates/ods-core/src/ops.rs:94-166 | the file and its one entry, or neither, exactly where there are too few numbers, no space for the file, or none for the entry once its clusters are taken; the back link and the count say that it goes with that entry |
| Creating.Create | crosstools/ods/crates/ods-core/src/ops.rs:73-171 | the file is entered as the version asked for or one above the highest, with exactly its space; each error exactly where the source gives it; the listing is then the first versions up to the limit, those past it are deleted, and the file created is there exactly when fewer than the limit are above it; on failure no file, listing, content or space changes, and exactly the numbers its headers lacked stay marked; there is no file exactly where there are too few numbers, no space for it, or none for its entry once its clusters are taken; its purge stops only at the first version past the limit that is left, where that is a reserved file's, a directory's that is not empty, or there is no space for the directory without it, and in a directory of one block only at the first two; counts cover entries in every state if they did; the name's first record has the flags and limit the file was created with if it is new and its own otherwise, and other names' records are as they were; the new file's header names the directory and counts one entry, and the headers of all files none of whose entries was purged keep back link and count |
| Creating.CreateTwice | crosstools/ods/crates/ods-core/src/ops.rs:73-171 | a file created under a new name and a limit of at least two, and another after it: both are there |
| Creating.NewStays | crosstools/ods/crates/ods-core/src/ops.rs:143-170 | of the versions past the limit the new one is not deleted exactly when fewer newer ones than the limit are there |
| Creating.AllStay | crosstools/ods/crates/ods-core/src/ops.rs:143-168 | with one version more all stay exactly when there were fewer than the limit, and under a limit of 0 exactly when there was none |
| Operations.MakeDir | crosstools/ods/crates/ods-core/src/ops.rs:189-242 | an empty directory of one cluster, in no directory; the cluster is the first free one |
| Creating.CreateDir | crosstools/ods/crates/ods-core/src/ops.rs:176-255 | entered as version 1 of a name that had none, listing nothing; on failure the volume is as it was; it fails exactly where the name has a version, or there is no number, no free cluster, or no space for the entry once the first free cluster is taken; the entry is under the flags it was given and the limit 32767; the new header names the directory and counts one entry, and every other keeps its back link and count |
| Deleting.Delete | crosstools/ods/crates/ods-core/src/ops.rs:257-284 | the entry goes first; the file with it exactly where its header says so, by its count or its back link, a directory only if empty; else the count goes down after it; other files, directories and counts stay and space is conserved; afterwards the disk is unsound exactly when the file went and had another entry, which never is where counts covered entries, and they do in every state if they did; for space it fails exactly where DirRoom.Updated has none for the directory without the entry; a file that goes and is to be erased has its blocks empty |
| Deleting.CountedSole | crosstools/ods/crates/ods-core/src/ops.rs:266-269 | where the count covers the entries, a count of one says that this entry is the only one |
| Purging.PurgePast | crosstools/ods/crates/ods-core/src/ops.rs:317-323 | each version past the first ones is deleted, highest first, until one cannot be; the files gone are those whose headers said so, and every other count stays; it stops only at the first that is left, where its file is reserved or a directory that is not empty, or there is no space for the directory without it |
| Purging.PurgeName | crosstools/ods/crates/ods-core/src/ops.rs:315-323 | exactly the highest versions are left, one at least |
| Tidiness.AddedCovered | crosstools/ods/crates/ods-core/src/ops.rs:382-399 | after an entry more the counts cover the entries exactly when the file's did with one to spare |
| Tidiness.RemovedPlaces | crosstools/ods/crates/ods-core/src/ops.rs:286-291 | removing an entry takes exactly that place from the file's |
| Renaming.MoveEntry | crosstools/ods/crates/ods-core/src/ops.rs:387-424 | the new entry, the header's back link and then the old entry: after every write the file has one, and the others keep entries, counts and back links; the new entry is not made exactly where it is there already or there is no space, and the old one is left exactly where there is then none to remove it |
| Renaming.Rename | crosstools/ods/crates/ods-core/src/ops.rs:329-425 | the entry is the highest version, the one asked for or the one so many below the highest; each refusal exactly where the source gives it, the version the source chooses, the two listings changed exactly so, the header's back link and count as they come out, and in every state of the trace the file has an entry; the counts cover the entries afterwards exactly when the file had fewer than 65,535, or without counts unless both entries are left, and with counts in every state; the new entry is not made exactly where DirRoom.Updated has no space for it, and both are left exactly where it has, and on what that leaves has none to remove the old one; that is so only where the old entry's directory has several blocks, or is the new one's; the new name's records bear its own flags and limit if it was there, else what it is entered with |
| Renaming.ContainsDir | crosstools/ods/crates/ods-core/src/ops.rs:428-450 | the search with its list of what it has seen ends, and is true exactly when there is a way down by names that end in .DIR |
| Renaming.EntryStays | crosstools/ods/crates/ods-core/src/ops.rs:415-420 | removing the old entry leaves the new one, in the same directory too |
| Deleting.Find | crosstools/ods/crates/ods-core/src/dir.rs:122-131 | the entry with the version, or none |
| Renaming.Lookup | crosstools/ods/crates/ods-core/src/dir.rs:122-131 | the one entry that is of the version asked for: none above it, that number, or as many above it as asked; none where there is no such entry and for a wildcard |
| Tidiness.TidyEdit | crosstools/ods/crates/ods-core/src/dir.rs:169-233 | an update leaves every directory readable, its names and each name's versions in order |
| Histories.KeptOn | crosstools/ods/crates/ods-core/src/ops.rs:73-425 | what two stretches of operations keep, both together do |
| Histories.DidOn | crosstools/ods/crates/ods-core/src/ops.rs:73-425 | so do all that is said of them, the files gone and the clusters lost added up |
| Histories.Perform | crosstools/ods/crates/ods-core/src/ops.rs:73-425 | whatever the operation, its own division, erasure and result, the volume is tidy after it unless an entry dangles, and what it is not about is as it was; a cluster is lost only by an extension, and counts cease to cover entries exactly by a rename that slips |
| Histories.Run | crosstools/ods/crates/ods-core/src/ops.rs:73-425 | the same of any operations in any order, until one leaves an entry dangling; where counts covered entries and no rename slipped there is none, and with hard links that holds in every state the disk was in, and no rename slips unless a file has 65,535 entries; without them none slips unless on some disk of the history one of the renames finds space for the new entry and then none to remove the old one; in every state of it the slots' sequence numbers go on by one for each use, so the next file in a deleted one's slot never has its ID |
| Histories.BlankTidy | crosstools/ods/crates/ods-core/src/ops.rs:189-242 | a volume of one empty directory is tidy and its counts cover its entries, so a history may begin there |
| Shortfalls.DeletionDangles | crosstools/ods/crates/ods-core/src/ops.rs:266-277 | a file with two entries in the directory of its back link, not counted: one is deleted, the file goes and the other dangles |
| Shortfalls.CreationVanishes | crosstools/ods/crates/ods-core/src/ops.rs:143-170 | a limit of one, version 5 of A. there: version 3 is created with success, and is no file |
| Shortfalls.CreationKeepsNumber | crosstools/ods/crates/ods-core/src/file.rs:179-259 | 185 scattered clusters, whose pointers take three headers, and the numbers 190 and 191 vacant: 191 stays marked |
| Shortfalls.ExtensionLosesSpace | crosstools/ods/crates/ods-core/src/file.rs:159-259 | 78 scattered clusters, one more than an empty header has room for, and no vacant number: they are no file's |
| Shortfalls.RenameUncounts | crosstools/ods/crates/ods-core/src/ops.rs:382-399 | 65,535 entries under valid names and a count that says so: a rename is made or taken back, and the count is one too low |
| Shortfalls.RenameStrands | crosstools/ods/crates/ods-core/src/ops.rs:387-424 | a full volume without counts, the master file directory with $. alone in its first block: renamed to A. it has both entries |
| Shortfalls.ZeroLimitPurges | crosstools/ods/crates/ods-core/src/ops.rs:143-168 | a name with version 5 and a limit of 0: version 6 is created, and is the only one |
| Shortfalls.NotSeenBelow | crosstools/ods/crates/ods-core/src/ops.rs:428-450 | a directory listed as b.dir is not found |
| Wildcards.Glob | crosstools/ods/crates/ods-core/src/name.rs:294-315 | the loop that retries only from the last star ends, and is true exactly when the pattern matches the relation |
| Wildcards.MatchesName | crosstools/ods/crates/ods-core/src/name.rs:286-292 | name and type match on their own, split at the last dot |
| Wildcards.UpcaseIs | crosstools/ods/crates/ods-core/src/name.rs:262-270 | two characters are taken as equal exactly when they are the same or the two cases of a letter of A to Z or of 0xc0 to 0xde but 0xd7 |
| Wildcards.MatchesJoin | crosstools/ods/crates/ods-core/src/name.rs:294-315 | two patterns side by side match just what is two matches side by side |
| Wildcards.MatchesOne | crosstools/ods/crates/ods-core/src/name.rs:294-315 | what each single character of a pattern stands for |
| Patterns.CharMeans | crosstools/ods/crates/ods-core/src/name.rs:95-109 | in a text, * stands for any string, % and ? for any one character and every other character for itself in either case; so do the codes 1 and 2 the marks are kept as |
| Patterns.EscapedMeans | crosstools/ods/crates/ods-core/src/name.rs:79-109 | an escaped delimiter stands for itself alone |
| Patterns.MeansJoin | crosstools/ods/crates/ods-core/src/name.rs:76-109 | texts side by side match names side by side |
| Patterns.StarMeans | crosstools/ods/crates/ods-core/src/name.rs:95-109 | a * between two texts matches exactly what starts with the one and ends with the other |
| Patterns.NameParses | crosstools/ods/crates/ods-core/src/name.rs:111-200 | a name and a type with a dot between parse to exactly those patterns, in the highest version |
| NameSyntax.Tokenize | crosstools/ods/crates/ods-core/src/name.rs:72-100 | the loop gives the tokens of the text, or fails where it is bad |
| NameSyntax.ParsePath | crosstools/ods/crates/ods-core/src/name.rs:118-147 | the components between the brackets, with ellipses |
| NameSyntax.ParseFileName | crosstools/ods/crates/ods-core/src/name.rs:169-200 | the name and the version, after a semicolon or a second dot |
| NameSyntax.NameOf | crosstools/ods/crates/ods-core/src/name.rs:186-199 | the name's characters, with a dot where it had none; fails on a second dot at level 2 and on a second semicolon |
| NameSyntax.Parse | crosstools/ods/crates/ods-core/src/name.rs:111-157 | the whole specification |
| NameSyntax.Display | crosstools/ods/crates/ods-core/src/name.rs:319-343 | the text of a name, character by character |
| NameSyntax.ShownReads | crosstools/ods/crates/ods-core/src/name.rs:323-341 | each character that may be in a name reads back as itself however it is shown |
| NameSyntax.VersionBack | crosstools/ods/crates/ods-core/src/name.rs:202-222 | a number in digits parses to that version and after a minus to that many versions back; zero to the highest, and one above 32767 not at all |
| NameSyntax.RoundTrip | crosstools/ods/crates/ods-core/src/name.rs:319-343 | for every name validate accepts, at either level, what display writes, alone or with a version, a relative version or a star, parses to that name and version |
| NameSyntax.PathRoundTrip | crosstools/ods/crates/ods-core/src/name.rs:111-157 | the same with a path in brackets before it, less a first component that names the top directory |
| NameSyntax.PathReturns | crosstools/ods/crates/ods-core/src/name.rs:111-157 | so the path comes back exactly when its first component is not that name |
| NameSyntax.TopDropped | crosstools/ods/crates/ods-core/src/name.rs:111-157 | [000000.A]X. is read as [A]X. |
| Records.FileReader.Read | crosstools/ods/crates/ods-image/src/copy.rs:46-66 | the next bytes of the file, whatever is buffered |
| Records.RecordReader.Exact | crosstools/ods/crates/ods-image/src/records.rs:101-106 | the next n bytes, or none where there are fewer |
| Records.RecordReader.ReadVar | crosstools/ods/crates/ods-image/src/records.rs:128-142 | the variable record at the position, through the fillers to a block's end |
| Records.RecordReader.ReadFix | crosstools/ods/crates/ods-image/src/records.rs:143-151 | the fixed record at the position |
| Records.RecordReader.ReadStream | crosstools/ods/crates/ods-image/src/records.rs:152-168 | the bytes up to the terminator, or to the end of the file |
| Records.RecordReader.ReadNext | crosstools/ods/crates/ods-image/src/records.rs:125-172 | in every format the record and the place after it depend on the place alone |
| Records.VarWriter.Write | crosstools/ods/crates/ods-image/src/records.rs:215-225 | however the text is divided between calls, the bytes are those of all its complete lines |
| Records.VarWriter.Finish | crosstools/ods/crates/ods-image/src/records.rs:205-211 | a last line without an end is a record too; it fails just where a line is too long |
| Records.RecordBack | crosstools/ods/crates/ods-image/src/records.rs:189-201 | each record written is read back from where those before it end |
| TextView.CopyOut | crosstools/ods/crates/ods-image/src/copy.rs:165-177 | the lines of all the records, and their length; fails just where a record is cut short |
| TextView.Scan | crosstools/ods/crates/ods-image/src/copy.rs:98-111 | the size of that text, and marks from each of which reading gives exactly the rest of it |
| TextView.FindMark | crosstools/ods/crates/ods-image/src/copy.rs:115 | the last mark not past the offset |
| TextView.ReadText | crosstools/ods/crates/ods-image/src/copy.rs:114-138 | exactly the bytes of the text at the offset, as many as there are and fit, and the rest of the buffer unchanged |
| TextView.WrittenBack | crosstools/ods/crates/ods-image/src/records.rs:122-173 | records written are read as those lines |
| TextView.InAndOut | crosstools/ods/crates/ods-image/src/copy.rs:162-180 | a text copied in as records and out as lines is unchanged exactly when it is empty or ends in a line feed, and no line feed follows a carriage return |
| TextView.LineFeedAdded | crosstools/ods/crates/ods-image/src/copy.rs:162-180 | a single letter comes out with a line feed after it |
| Formats.StreamLines | crosstools/ods/crates/ods-image/src/records.rs:152-168 | a stream of any kind copies out as its own bytes with its line ends as line feeds, and one more where the last line has none |
| Formats.LfAsItIs | crosstools/ods/crates/ods-image/src/records.rs:152-168 | so a stream of line feeds copies out as it is, with a line feed where the last line lacks one |
| Formats.StoredLines | crosstools/ods/crates/ods-image/src/records.rs:128-151 | records written in the fixed format or with a length of either byte order copy out as lines, without their control bytes |
| Formats.FillerSkipped | crosstools/ods/crates/ods-image/src/records.rs:133-136 | after a length of 0xffff reading goes on at the next block |
| Formats.ControlLeftOut | crosstools/ods/crates/ods-image/src/copy.rs:141-177 | whatever control bytes are before each record, the text is that of the records after them |
| Relocation.CombineSound | crosstools/vtools/crates/vasm/src/expr.rs:262-298 | combining two values before placement is combining their meanings after it |
| Relocation.EvalSound | crosstools/vtools/crates/vasm/src/expr.rs:251-326 | a value given before placement is right in every placement and for every value of the externals, with 64-bit wrap-around |
| Relocation.EvalErrors | crosstools/vtools/crates/vasm/src/expr.rs:251-326 | evaluation fails only where it must: on what is undefined, on division by zero, or on what the linker cannot add |
| Relocation.ValuesMove | crosstools/vtools/crates/vasm/src/expr.rs:262-298 | an absolute value does not depend on the placement, and a relocatable one moves with its psect |
| Arithmetic.DivRem | crosstools/vtools/crates/vasm/src/expr.rs:302-320 | quotient and remainder make the signed dividend again, the remainder smaller than the divisor and of the dividend's sign; an error exactly for zero; -2^63 by -1 wraps |
| Arithmetic.LogicBits | crosstools/vtools/crates/vasm/src/expr.rs:302-320 | AND, OR and XOR on every bit |
| Arithmetic.NotBit | crosstools/vtools/crates/vasm/src/expr.rs:261 | complement on every bit |
| Arithmetic.Shifts | crosstools/vtools/crates/vasm/src/expr.rs:302-320 | where each bit goes in a left, a right and an arithmetic shift, by a count modulo 64 |
| Arithmetic.RingOps | crosstools/vtools/crates/vasm/src/expr.rs:302-320 | sums, differences and products are those of the signed values where they fit |
| Arithmetic.BitsTell | crosstools/vtools/crates/vasm/src/expr.rs:302-320 | words with the same bits are the same |
| Relocation.PushRuns | crosstools/vtools/crates/vasm/src/emit.rs:169-186 | the commands push leaves one value more on the linker's stack, with its weight |
| Relocation.PushedMeaning | crosstools/vtools/crates/vasm/src/emit.rs:169-186 | that value is the expression on final addresses |
| Relocation.EmitGap | crosstools/vtools/crates/vasm/src/emit.rs:113-121 | gaps of any size, in steps the command can hold |
| Relocation.EmitPsect | crosstools/vtools/crates/vasm/src/emit.rs:101-149 | the loop emits the commands of the specification |
| Relocation.EmittedPsect | crosstools/vtools/crates/vasm/src/emit.rs:101-149 | linked in any placement, they store exactly the psect's chunks at their offsets, and fail exactly where a value does not fit |
| Calendar.CivilSteps | vms/crtl/time.c:43-57 | each computed date is valid and the next day's is its calendar successor |
| Calendar.CivilIsCounted | vms/crtl/time.c:43-57 | for every day, negative ones included, the date is the one counted day by day from 1-JAN-1970 |
| Calendar.YearDayCounts | vms/crtl/time.c:58-62 | the day of the year is the days before the month and the day |
| Calendar.TimeOfDay | vms/crtl/time.c:39-42 | days and time of day add up to the time, with the time of day never negative |
| Calendar.WeekDay | vms/crtl/time.c:58-62 | day 0 is a Thursday and each day is the weekday after the one before |
| Calendar.GmtimeCorrect | vms/crtl/time.c:37-63 | all fields together, for every time |
| Calendar.GmtimeYear | vms/crtl/time.c:37-63 | tm_year is the year less 1900 exactly from second -67768040609740800 to 67768036191676799 |
| Calendar.YearWraps | vms/crtl/time.c:37-63 | a second later the year is 2147485548 and tm_year -2147483648 |

## Left out

- seL4 itself, capability minting, threads, MMIO, the UART, virtio and the disk driver: only the pages mapped, the slots used and the interrupts requested are kept.
- lwIP: it appears only as callbacks that may come in any order and calls that may give any result.
- The AST bytes the executive writes into a HWPCB between PAL calls: each call reads them as they are then.
- The thread and the reply object of a context, which a slot keeps for the next one, and FEN.
- Distinct virtual addresses are taken not to share memory, in the frames the PAL pushes and in the queues.
- Growth of the index file itself, and writing the empty headers that fill a gap below its new end: `alloc_header` finds its slot mapped.
- Operations.Extend: a header on the model's disk has its clusters but not its pointers, so the last header's pointers are an argument that must be of its clusters. Where a run is of more than 2^30 blocks and the cluster factor does not divide that, a header may end inside a cluster, and the model gives the cluster to it.
- Operations.MakeFile: the same of runs so long.
- Creating.Create: takes the header's attributes and ident area as not modelled but for the room they leave for pointers, and the directory's default version limit as an argument; the same goes for the other operations.
- Histories.Run: stops where an entry dangles, since what the source does on such a volume is not modelled; files that are directories are not extended or truncated but through their updates; names are at most 236 bytes.
- Volume.Volume.ReadDir: models directories whose map is in one header, which `dir_rewrite` always leaves.
- Volume.Volume.AppendBlockTo: the same; a directory whose last pointer no longer fits when it grows is not modelled.
- Volume.Volume.RewriteDir: the same.
- Volume.Volume.DirUpdate: the same.
- Volume.Volume.Allocate: is given clusters; Bitmap.ChooseBlocks has the rounding of blocks.
- The home block, the other reserved files, mounting, and the parts of `verify` besides the owner pass and the repair.
- UCS-2 names on the volume: a record's size counts one byte for a character.
- Unwinding.EventSteps: takes a context's stacks to be as it left them when it is switched to again, which is the executive's to see to, and stack code to leave live frames alone.
- UCS-2 names in the round trip: their escapes are not read back by design. A directory component with a dot in it.
- Heap sizes whose rounding wraps, `calloc`, and a region that ends where the base header starts. Regions may touch each other.
- AddressCache.AddressSpaces.Fill: the fault is of a mode that has run, as every fault is.
- Liveness: that lwIP ever answers, or the executive ever reads.
- Relocation: object records other than those for psect contents, and parsing of expressions.
- Everything easy: getters, formatting, printf, command lines, FUSE, the web pages.
