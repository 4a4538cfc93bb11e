# A model of kvm-kext

kvm-kext is an Intel VMX hypervisor in a macOS kernel extension, with a user-space library and
small guest programs that exercise it. This project models the parts of it that are hard to get
right and proves what they promise:

- **EPT tables** (`Radix`, `Ept`, `EptTables`, `Layout`). Each upper table is two pages: entries
  for the processor, then kernel pointers for software. The tables refine a finite map from guest
  pages to host addresses, the processor's own walk agrees with it, and teardown frees every table
  once. The memory layout that the library registers is followed through to the finished map.
- **The guest's memory manager** (`GuestTables`, `GuestNeed`, `GuestHeap`, `GuestWalk`, `GuestVm`). One
  free list, threaded through the free pages, feeds page tables and data pages alike.
- **The run loop** (`RunLoop`) as a state machine against any guest and any interrupt lines.
- **Port I/O** (`PortIo`) from the guest's instruction through user space and back.
- **Locks and the VMCS** (`VmcsLocks`) for any number of threads and processors.
- **The guest's SMP protocol** (`Smp`, `SmpInit`).
- **The list of process states** (`StateList`), a doubly linked list of heap objects.
- **Special registers** (`Sregs`): their round trip through the fields of the VMCS.
- **Guest test programs**: the access test (`AccessTest`), formatted printing (`Printf`) and the
  sieve (`Sieve`).

Code that updates memory in place is a class whose methods do the same stores. A ghost field holds
the abstract value, and the invariant ties the two together. Concurrent code is a state machine with
one shared-memory access per step, and the theorems are about every run from the initial state.

Foreign code enters as parameters. The kernel allocator is a sequence of answers (`Frame`), each a
zeroed block at a fresh address with a fresh physical page, so that `__pa` is injective and page
aligned. Wiring user memory is a flag and a function from addresses to physical addresses. The guest
is any sequence of exits, and a device is a log and an answer function.

Places where the code does not do what one would expect, each with the theorem that says exactly when:

- `(bytes + PAGE_SIZE - 1)` wraps for the last 4095 sizes of 64 bits (tests/user/kvmctl.c:255), and no
  memory is registered. `Layout.RoundsUp` and `Layout.KvmCreate` say so.
- The two sides that update `pending_irq` hold different locks (main.cpp:1207-1208), so `RunLoop` takes
  every update as a read and a write. `RunLoop.EveryRunKeeps` balances requests against deliveries
  with what such writes lose and bring back. `RunLoop.LosslessRuns` says exactly which runs lose and
  repeat nothing, `RunLoop.NothingLostApart` that those do in which two updates never meet, and
  `RunLoop.LossReached` and `RunLoop.RepeatReached` give runs that do lose and repeat a request.
- `kvm_set_user_memory_region` says "check alignment" (main.cpp:812) and checks nothing. A host address
  with bit 3 set makes the leaf entry one the processor rejects. `Ept.HardwareAgrees` says when, and
  `EptTables.Tables.Misaligned` maps such a region.
- main.cpp:909 says that VM exits clear the valid bit of the interruption information. An entry that
  fails does not, so the interrupt stays in the field across it. `RunLoop.LeftInField` gives such a run,
  and `RunLoop.NeverOverwritten` shows that the interrupt is kept.
- `1 << 31` at main.cpp:395 is a negative `int`, which C extends to 64 bits before the bitwise and.
  `RunLoop.PagingTest` says when the test agrees with bit 31. It does not for 2^32.
- An IN replaces all of RAX (main.cpp:892). `PortIo.ReplacesRax` says when the processor's own
  instruction would leave the same. It would not for a byte read into RAX = 0x100.
- The offset of the region loop (main.cpp:824) wraps round. `EptTables.EndsOrLoops` says for which sizes
  the loop comes to an end, and `EptTables.LoopsForEver` gives one for which it does not.
- `install_pte` over a table of small pages drops that table without freeing it.
  `GuestTables.LargeLosesTable` says when a page is lost, `GuestHeap.PageLost` gives a state, and
  `GuestVm` shows that none is lost through `setup_vm`, `vmalloc` and `vfree`.
- `install_pte` takes page 0 for a table when the free list is empty. `GuestTables.RunsDry` says when,
  and `GuestHeap.Dry` gives a state.
- `install_pte` for a small page where there is a large one writes into the first page that the large
  one maps. `GuestWalk.SmallTakesEffect` says which entry is then in force.
- A CPU that calls `on_cpu` before `smp_init` is through can make its target count itself again, or
  lead it nowhere. `SmpInit.CallsHarmless` says from when on calls do no harm, and `SmpInit.TooEarly`
  gives a run in which one does.
- The local buffers of `print_int` and `print_unsigned` are too short for bases below 7, as
  `Printf.IntFits` and `Printf.UnsignedFits` show with the numbers that overflow them.
- `vsnprintf` with a size below 1 writes without a bound. `Printf.Vsnprintf` covers that too.

## Model

| member | source | states |
|---|---|---|
| Radix.IndexFollowsPath | main.cpp:151-154 | following the computed 9-bit indices from the root passes through exactly the tables of that page and ends at the page, for every address |
| Ept.LeafWordFields | main.cpp:200 | or-ing the flags into any physical address leaves its page bits alone and makes the entry present |
| Ept.GrownSound | main.cpp:175-197 | a table added behind an empty entry keeps the whole invariant: both halves of every entry speak of the same child, no other table changes, physical pages stay distinct |
| Ept.StoredTree | main.cpp:200 | the last store maps its own page and disturbs no other, although tables are shared |
| Ept.AddedTight | main.cpp:167-201 | adding a page creates no leaf table other than the one of that page |
| Ept.LeafType | main.cpp:200 | bit by bit: readable, writable, executable, memory type 6 or, with bit 3 of the address set, 7; the address above bit 6 as it was |
| Ept.LeafMisconfigured | main.cpp:200 | the processor rejects the leaf entry if and only if bit 3 of the address is set, which makes its memory type a reserved one, or the address is out of its range |
| Ept.HardwareAgrees | main.cpp:176-200 | in every well-formed tree the four-level walk of sections 28.2.2 and 28.2.3 of the Intel SDM (volume 3C), over physical memory, ends with a violation where nothing is mapped, a misconfiguration where the leaf entry is rejected, and otherwise at the mapped leaf entry with read, write and execute access from all four levels |
| Ept.EptPointerBits | main.cpp:490 | the EPT pointer names the root's frame and a walk of four levels |
| Ept.LeafTableCount | main.cpp:175-197 | the number of leaf tables is the number of distinct values of address bits 21-47 that are mapped |
| Ept.DirectoryStep | main.cpp:134-138 | one turn of the innermost loop of the teardown: the table read is still allocated, a child found is still allocated with its size, and exactly it goes |
| Ept.RootDone | main.cpp:126-145 | after the outer loop only the root is left, still readable and of its size |
| EptTables.Tables.constructor | main.cpp:117-120 | a new root maps nothing |
| EptTables.Tables.Translate | main.cpp:150-164 | the software walk is the finite map keyed by address bits 12-47, and 0 where unmapped |
| EptTables.Tables.AddPage | main.cpp:167-201 | the map gains exactly this page, last write winning, with at most three tables allocated and the invariant kept |
| EptTables.Tables.HardwareSees | main.cpp:490 | for every reachable table state the processor's walk from the EPT pointer agrees with the same map in that way |
| EptTables.Tables.Misaligned | main.cpp:811-828 | a region at a host address ending in 8 is mapped, and the processor takes a misconfiguration on it |
| EptTables.MappedAt | main.cpp:824-833 | page by page: pages of the region get their own host page, all others keep what they had |
| EptTables.EndsOrLoops | main.cpp:824-824 | for every 64-bit size: the loop comes to an end if and only if the size leaves room for the last step of the offset or some page lookup fails |
| EptTables.LoopsForEver | main.cpp:824-824 | a region of 2^64 - 1 bytes with every page found is gone through for ever |
| EptTables.Tables.SetUserMemoryRegion | main.cpp:811-836 | success exactly when wiring and every page lookup succeed; otherwise exactly the pages before the failing one are mapped |
| EptTables.Tables.Free | main.cpp:126-147 | every block is released exactly once, while in use and with its allocated size, and none is left; no table is read after its release |
| Layout.RoundsUp | tests/user/kvmctl.c:255-255 | the memory size is the least multiple of 4096 not below the bytes asked for, up to 2^64 - 4096; for more bytes the sum wraps and the size is 0 |
| Layout.RegionsAreRam | tests/user/kvmctl.c:252-276 | for every number of bytes the two regions are whole pages, disjoint, and together exactly the pages that start below it, outside 0xa0000-0xc0000 and below 0xf0000000; none where the rounding wraps |
| Layout.RamMapped | tests/user/kvmctl.c:287-303 | which pages carry which host page after any number of pages of either region |
| Layout.KvmCreate | tests/user/kvmctl.c:250-303 | on success every byte below the number asked for, outside the hole and below 0xf0000000, is on the host page at base plus its address, unless the rounding wraps; on failure exactly the earlier pages are mapped; in every outcome no page that starts at or above that number, in the hole or at the APIC changes |
| GuestTables.GrownSound | tests/user/test/vm.c:79-83 | turning the head of the free list into a table keeps the partition of pages, the chain of the free list and every table word |
| GuestTables.InstalledSets | tests/user/test/vm.c:68-108 | looking up after installing gives the new entry for its page or 2 MB range and the old entry for every other page, provided no large page is in the way |
| GuestTables.InstalledSound | tests/user/test/vm.c:68-88 | installing keeps the partition, the chain and the table words |
| GuestTables.InstalledTook | tests/user/test/vm.c:77-85 | installing takes exactly the missing tables of the path off the free list |
| GuestTables.RunsDry | tests/user/test/vm.c:79-83 | the way down meets an empty free list at a missing table if and only if there are fewer free pages than missing tables |
| GuestTables.LargeLosesTable | tests/user/test/vm.c:86-87 | installing a large page drops a page out of use if and only if a table of small pages was there |
| GuestTables.SoundList | tests/user/test/vm.c:32-40 | following first words from the head passes through exactly the free pages, in order, and ends with 0 |
| GuestHeap.PageLost | tests/user/test/vm.c:86-87 | a state in which a page is lost that way |
| GuestHeap.Dry | tests/user/test/vm.c:79-83 | a state in which the way down meets an empty free list |
| GuestNeed.TablesForIs | tests/user/test/vm.c:186-199 | the pages `setup_mmu` takes, counted table by table through both loops, are in closed form the root, one for every 512 GiB and every 1 GiB begun, and one for a remainder of small pages |
| GuestNeed.TablesForGuest | tests/user/test/vm.c:205-209 | for the 128 MiB of the guest programs, three |
| GuestWalk.ProcessorFinds | tests/user/test/vm.c:63-66 | in every sound state the processor's four-level walk (section 4.5 of the Intel SDM, volume 3A) finds the entry in force at its level, with its own right to write, or faults where there is none |
| GuestWalk.SmallTakesEffect | tests/user/test/vm.c:77-87 | after installing a small page the processor finds it if and only if no large page is there; otherwise the large entry stays in force |
| GuestTables.FreedSound | tests/user/test/vm.c:55-59 | freeing a data page keeps the partition, the chain and the table words |
| GuestHeap.IdentityTranslates | tests/user/test/vm.c:110-122 | the entry installed for an address, large or small, makes the processor form that same address |
| GuestHeap.CameFromFree | tests/user/test/vm.c:42-53 | a page that has become a data page was on the free list before |
| GuestHeap.PagesCounted | tests/user/test/vm.c:221-221 | the 32-bit page count is the number of pages the header records if and only if that is below 2^32 |
| GuestVm.Guest.AllocPage | tests/user/test/vm.c:42-53 | of the list that lies in memory, the topmost page is returned and the rest is left as the list; from an empty one, 0 |
| GuestVm.Guest.FreePage | tests/user/test/vm.c:55-59 | the list in memory becomes the same list with the page on top, so that allocating next gives it back and restores the list |
| GuestVm.Guest.InstallPte | tests/user/test/vm.c:68-88 | the loop over real page words does what `Installed` says, so everything proved of that holds of the code |
| GuestVm.Guest.InstallUnderLarge | tests/user/test/vm.c:77-87 | with a large page there, the store goes into the first page it maps, and the invariant stays if that page is not under management |
| GuestVm.Guest.GetPte | tests/user/test/vm.c:90-108 | the walk finds the entry in force: a large one, a small one, or 0 |
| GuestVm.Guest.FreeMemory | tests/user/test/vm.c:32-40 | exactly the whole pages of the range come under management, each free, chained without a cycle |
| GuestVm.Guest.SetupMmu | tests/user/test/vm.c:186-203 | every whole page below the limit is mapped to itself and nothing else is mapped; no page is lost |
| GuestVm.Guest.SetupVm | tests/user/test/vm.c:205-209 | from nothing to the invariant: the pages under management are exactly those of the range, and lie in the identity map |
| GuestVm.Guest.FoundAtOwnAddress | tests/user/test/vm.c:84-84 | once paging is on, in every state between calls, the address of a page under management still leads the processor to that page |
| GuestVm.Guest.ProcessorAgrees | tests/user/test/vm.c:201-201 | the processor's walk over the words in memory, from `cr3`, finds the entry in force |
| GuestVm.Guest.EverythingWritable | tests/user/test/vm.c:82-122 | in every state between calls, each address of a live allocation and of the identity map is present and writable through all four levels, and leads to the page it should; the entry is the frame with exactly the present and writable bits, and the page-size bit for 2 MB |
| GuestVm.Guest.Vmalloc | tests/user/test/vm.c:211-229 | the fewest pages that hold the bytes and a header come from the free list and are mapped just below the last allocation; tables and other allocations stay, contents included; free, table and live pages still partition what was handed over |
| GuestVm.Guest.UserStore | tests/user/test/vm.c:226-228 | a store by the owner of an allocation, anywhere but in the header, has the right to write by the processor's walk and keeps the invariant |
| GuestVm.Guest.Vfree | tests/user/test/vm.c:231-240 | exactly the data pages of that allocation return to the free list, in order; page tables and the contents of all other allocations stay |
| RunLoop.EveryRunKeeps | main.cpp:900-973 | the invariant, the balance of requests among it, holds after every interleaving of the two threads, reads and writes of `pending_irq` apart |
| RunLoop.EveryRunTraced | main.cpp:1010-1025 | in every run the level of a line is the last one passed for it, its requests are the 0-to-1 changes in the sequence of arguments and, for line 0, the external-interrupt exits with qualification 0, and the paging test is on the last value moved to CR0 |
| RunLoop.CallCompletes | main.cpp:1010-1025 | from every reachable state any line change can go through, and is then the last argument on record |
| RunLoop.TwiceHigh | main.cpp:1018-1021 | high, low and high again makes two requests, wherever the running thread is |
| RunLoop.Cr0WriteRead | main.cpp:373-391 | of all control-register accesses, as section 27.2.1 of the Intel SDM (volume 3C) lays out their qualification, exactly the moves to CR0 are taken as such |
| RunLoop.WhyReturned | main.cpp:900-973 | the loop is left from its head only after 1000 turns or after an exit without a handler, to user space or with a signal |
| RunLoop.BalanceBetweenRuns | main.cpp:338-343 | between KVM_RUNs, per line: rising edges in the arguments and timer ticks among the exits + requests brought back = deliveries + merged requests + requests wiped out + 1 if latched + 1 if left in the VMCS by a failed entry |
| RunLoop.LosslessRuns | main.cpp:907-916 | a run loses no request and brings none back if and only if every write of `pending_irq` in it found every other line as it had been read and a line to be cleared still latched |
| RunLoop.NothingLostApart | main.cpp:907-916 | so in every run in which no two updates of `pending_irq` overlap, rising edges in the arguments and ticks among the exits = deliveries + merged + latched + in flight |
| RunLoop.WroteExactly | main.cpp:916-916 | a write loses or brings back nothing if and only if what was read still holds of every other line and a line to be cleared is still latched |
| RunLoop.MeetingLoses | main.cpp:1019-1019 | whenever a clear and a rising edge meet, one order of their accesses loses the request |
| RunLoop.MeetingRepeats | main.cpp:1019-1019 | and another brings the line being delivered back |
| RunLoop.LossReached | main.cpp:1207-1208 | some run of the system loses a request |
| RunLoop.RepeatReached | main.cpp:1207-1208 | some run brings a line back while it is being delivered |
| RunLoop.LeftInField | main.cpp:947-973 | some run leaves KVM_RUN with an interrupt in the VMCS |
| RunLoop.LowestLineTaken | main.cpp:903-920 | a line is taken only after an interrupt-window exit of the same KVM_RUN, and it is the lowest one latched apart from lines set during the scan |
| RunLoop.WindowControlAtEntry | main.cpp:928-934 | at a guest entry the window control tells whether anything was latched when it was chosen |
| RunLoop.NeverOverwritten | main.cpp:924-926 | an interrupt is written to the VMCS only when no undelivered one is there |
| RunLoop.VectorBase | main.cpp:910-915 | every delivered vector is its line plus 0x30 if the last CR0 write handled set paging, else plus 8 |
| RunLoop.PagingTest | main.cpp:395 | the code's test agrees with bit 31 if and only if no higher bit is set or bit 31 is; it does not for 2^32 |
| PortIo.ValueOfBytes | main.cpp:219-226 | copying the low bytes of a word out and back truncates it |
| PortIo.Recovered | main.cpp:213-217 | size, direction and port of every instruction, string, repeated or with an immediate port, are read back from its exit qualification (table 27-5 of the Intel SDM, volume 3C), whatever the reserved bits |
| PortIo.Vcpu.HandleIo | main.cpp:211-237 | the access of the instruction is laid out for user space with its size, direction, port and data, RIP moves once, and an IN is left pending |
| PortIo.Vcpu.FinishIn | main.cpp:889-894 | a pending IN puts the zero-extended data in RAX and is no longer pending |
| PortIo.Vcpu.KvmRun | main.cpp:885-974 | the run goes on exactly while exits ask for it, are not I/O and bring no error, for at most 1000 turns; afterwards an access is pending exactly if the last exit was an IN |
| PortIo.ServeOne | tests/user/kvmctl.c:611-650 | one item is served, or refused with the error of its kind and without effect |
| PortIo.ServeIo | tests/user/kvmctl.c:603-656 | all items are served in order, or none |
| PortIo.ReplacesRax | main.cpp:891-892 | RAX after an IN is what the processor's own instruction leaves if and only if the access is 32 bits wide or RAX was below 2^(8 size) |
| PortIo.PortAccess | main.cpp:889-953 | end to end, for the instruction the guest executed: an OUT reaches the device for its port with RAX mod 2^(8 size); an IN leaves the device's answer mod 2^(8 size) in RAX at the next entry, and when that is the processor's own result; RIP advances once |
| VmcsLocks.StepKeeps | main.cpp:1196-1208 | every step any thread may take, failed launches among them, keeps lock ownership, currency, vcpu homes and launch states |
| VmcsLocks.EveryRunKeeps | main.cpp:1218-1239 | so every run does, for any number of threads, processes and processors, with processes closing the device in between |
| VmcsLocks.ClosedUnused | main.cpp:1162-1180 | a VMCS freed by a close is loaded by nobody and current nowhere |
| VmcsLocks.VmcsUsedSafely | main.cpp:17-18 | a VMCS is read, written or launched only by the holder of its spinlock, while current on that processor, and a launch finds it clear |
| VmcsLocks.OneSessionEach | main.cpp:922-958 | two threads never have one VMCS loaded, nor two VMCSs on one processor |
| VmcsLocks.AllReleased | main.cpp:1383-1384 | a thread outside any ioctl holds no lock and has left no VMCS current |
| VmcsLocks.CreateCompletes | main.cpp:1218-1239 | wherever the locks are free, creating a VM goes through, and the process then has the new vcpu, its VMCS clear |
| VmcsLocks.RunCompletes | main.cpp:1203-1208 | wherever the locks are free, a later ioctl finds the vcpu of its process, launches its VMCS while current on its processor, and ends with every lock given back |
| VmcsLocks.CreatedIsLaunched | main.cpp:1196-1239 | so a process that creates a VM and runs it launches the VMCS it created |
| Smp.EveryRunKeeps | tests/user/test/smp.c:86-126 | the invariant of lock, shared variables and handlers holds in every run |
| Smp.MutualExclusion | tests/user/test/smp.c:86-100 | at most one CPU is between taking and releasing the lock |
| Smp.ExactlyOnce | tests/user/test/smp.c:112-126 | whenever the lock is free, the functions run are exactly those of the completed calls, in order, each once on its CPU with its argument, and `ipi_done` is 0 |
| Smp.RunBeforeReturn | tests/user/test/smp.c:121-125 | before a call releases the lock its function has run once and nothing else has |
| Smp.HandlerServesHolder | tests/user/test/smp.c:50-54 | a handler at work serves the lock holder's own call, and no other handler is at work |
| Smp.CallCompletes | tests/user/test/smp.c:112-126 | from every run that ends with the lock free, any call by any CPU outside `on_cpu` can begin and return, and the functions run and the calls completed have each grown by exactly that call |
| SmpInit.EveryRunKeeps | tests/user/test/smp.c:136-151 | the start-up invariant holds in every run |
| SmpInit.NoOverlap | tests/user/test/smp.c:131-134 | with the increment split into read and write, two increments never overlap and no CPU enters the wrong handler or a half-written descriptor, as long as no call is made during start-up |
| SmpInit.CounterIsStarted | tests/user/test/smp.c:145-149 | likewise at every moment exactly the CPUs numbered 1 to the counter have started |
| SmpInit.EntryChangesLast | tests/user/test/smp.c:150-150 | the descriptor changes only when every CPU has started |
| SmpInit.StartsAll | tests/user/test/smp.c:136-151 | some run starts every CPU of the machine and ends `smp_init` |
| SmpInit.CallsHarmless | tests/user/test/smp.c:112-151 | however a run goes on after a call from a started CPU to any other, counts and handlers stay right, if and only if `smp_init` is through when the call is made |
| SmpInit.EarlyGoesWrong | tests/user/test/smp.c:131-150 | for every target, started, next in turn, counting itself or asleep, how a run goes wrong after an earlier call |
| SmpInit.TooEarly | tests/user/test/smp.c:131-150 | with two CPUs or more some run goes wrong |
| StateList.Device.Find | main.cpp:1098-1109 | the node of the process if it has opens left, else null |
| StateList.Device.Insert | main.cpp:1120-1123 | the node goes to the front and the links stay mutually inverse |
| StateList.Device.Open | main.cpp:1111-1127 | one more open; a fresh node only for a process without one; the list stays acyclic with one node per process |
| StateList.Device.Remove | main.cpp:1153-1160 | the node leaves, the order of the others and mutual inverses stay |
| StateList.Device.Close | main.cpp:1142-1161 | one open fewer; the node goes exactly with the last |
| AccessTest.NumberInjective | tests/user/test/access.c:170-179 | a flag vector is determined by the binary number it stands for |
| AccessTest.Bump | tests/user/test/access.c:170-179 | binary increment for any number of flags, with the carry out as result |
| AccessTest.Enumerate | tests/user/test/access.c:348-358 | every flag vector is visited exactly once and all flags end clear, for any number of flags |
| AccessTest.LeafFields | tests/user/test/access.c:214-225 | the entry prepared holds present, writable, user, accessed and dirty in the processor's bits, and the frame |
| AccessTest.Test.Expect | tests/user/test/access.c:233-259 | the staged computation equals the single rule for presence, user and write rights, CR0.WP, accessed and dirty bits (sections 4.6 to 4.8 of the Intel SDM, volume 3A) |
| AccessTest.Test.SetupPte | tests/user/test/access.c:201-259 | whatever rights the tables gave, those the processor derives over all four levels become those of the leaf flags; the expected outcome is the rule applied to them, and the expected entry is unchanged if a fault is expected |
| AccessTest.DerivedAlong | tests/user/test/access.c:205-231 | along present, writable, user entries the derived rights are the leaf's |
| Printf.NumeralReads | tests/user/test/printf.c:30-61 | parsing what is printed for a number gives the number back, in any base from 2 to 16, with no leading zeros |
| Printf.DigitCount | tests/user/test/printf.c:42-45 | a number has at most k digits if and only if it is below the k-th power of the base |
| Printf.IntFits | tests/user/test/printf.c:34-60 | the 26 characters of `print_int` hold every number above the minimum if and only if the base is at least 7; below, 1 - 2^63 overflows them |
| Printf.UnsignedFits | tests/user/test/printf.c:68-86 | the 25 characters of `print_unsigned` hold every number if and only if the base is at least 7; below, 2^64 - 1 overflows them |
| Printf.FlipInPlace | tests/user/test/printf.c:52-58 | the swapping loop reverses the prefix |
| Printf.Stream.AddChar | tests/user/test/printf.c:15-22 | the text grows by the character; the buffer holds what fits and is otherwise untouched |
| Printf.Stream.PrintInt | tests/user/test/printf.c:32-64 | the text grows by the numeral; no access leaves the local buffer |
| Printf.Stream.PrintUnsigned | tests/user/test/printf.c:66-89 | likewise without sign |
| Printf.DirectiveReads | tests/user/test/printf.c:107-131 | what each directive prints, by reading it back: `%d` the decimal number, `%x` the number modulo 2^64 in hexadecimal, `%p` the same after 0x, `%s` the string, and any other character itself without taking an argument |
| Printf.EscapedPrints | tests/user/test/printf.c:100-111 | every text prints as itself once its percent signs are doubled |
| Printf.Vsnprintf | tests/user/test/printf.c:91-136 | for every format and size: the longest fitting prefix of the expansion, or all of it for a size below 1, then a NUL, nothing else; the result is the full length plus one |
| Sieve.CompositeAddsNothing | tests/user/test/sieve.c:48-53 | the multiples of a composite are marked already |
| Sieve.ClearMultiples | tests/user/test/sieve.c:51-52 | exactly the proper multiples below the size are cleared, without leaving the range of `int` |
| Sieve.Run | tests/user/test/sieve.c:39-55 | `data[i]` is 1 exactly for the primes below the size, and the result is their number; sizes below 2 included |
| Sregs.RightsFaithful | helpers/vmx_segments.h:1-18 | the processor reads back from the access rights what a usable segment asks for if and only if every part fits its width |
| Sregs.RightsInjective | helpers/vmx_segments.h:7-14 | segments whose parts fit have the same access rights only if their parts are the same |
| Sregs.RightsUnusable | helpers/vmx_segments.h:4-5 | the unusable bit is read exactly for a segment marked unusable or not present |
| Sregs.FieldTable | helpers/vmx_segments.h:20-42 | every segment's four fields, and those of control and table registers, are at the encodings of appendix B of the Intel SDM (volume 3D) |
| Sregs.FieldsApart | helpers/vmx_segments.h:20-42 | no two segments share a field, and none is a control or table register |
| Sregs.Vcpu.SetSegment | helpers/vmx_segments.h:51-57 | the segment is in its fields and every other field stays |
| Sregs.Vcpu.SetSregs | main.cpp:638-676 | all eight segments, tables, CR2, CR3 and EFER are held; CR0 gains bit 5 and CR4 bit 13, and neither changes otherwise |
| Sregs.Vcpu.GetSregs | main.cpp:606-636 | after a set, every register comes back so, with bases, limits and selectors of the segments and the caller's access-rights parts untouched |

## Left out

- The world switch in inline assembly, host-state capture, `cpuid` and MSR pass-through: guest steps are arbitrary instead.
- IOKit memory wiring, `copyin`/`copyout`, device registration, kext start and stop: foreign calls.
- Allocation failure in the kext: the code does not test for it, and the model gives the allocator enough answers.
- Other frees of `kvm_dev_close`, its locks and the unlocked counter of `kvm_dev_open`: the list operations are modelled one after the other.
- `vcpu->vmcs_loaded`, never read, and the agreement of `vcpu->paging` with CR0 values set through `kvm_set_sregs`.
- `kvm_get_mem_map`, ballooning, the duplicate ABI in kvmctl.c, PIT, IRQ chip, FPU and MSR ioctls, and the test `main` programs.
- `printi` of sieve.c: the algorithm of `print_int` once more.
- EptTables.Tables.SetUserMemoryRegion: needs a size and host memory for which the loop ends; `EptTables.EndsOrLoops` shows that it runs for ever otherwise.
- GuestVm.Guest.InstallPte: needs the missing tables on the free list and no large page in the way of a small one; `GuestTables.RunsDry` and `GuestVm.Guest.InstallUnderLarge` say what the code does otherwise.
- GuestVm.Guest.SetupMmu: needs the tables of its loops on the free list, as many as `GuestNeed.TablesForIs` says; so does SetupVm.
- GuestVm.Guest.SetupVm: needs a range that holds its own page tables.
- GuestVm.Guest.Vmalloc: needs the pages, tables and virtual space it takes, and a page count below 2^32, which `GuestHeap.PagesCounted` shows to be exact.
- StateList.Device.Close: needs a process that has the device open, because the code goes on with a null node otherwise.
- Smp.EveryRunKeeps: memory is sequentially consistent, an interrupt sent is taken exactly once, and a function called does not call `on_cpu` itself.
- SmpInit.EveryRunKeeps: for runs without calls during start-up; `SmpInit.CallsHarmless` shows that this is exact.
- VmcsLocks.EveryRunKeeps: closing the device is a step only when no ioctl of the process is in progress, as the code assumes (main.cpp:1141).
- PortIo.PortAccess: string and repeated accesses are not distinguished, as in the code, and callbacks do not fail, since the code ignores their result.
- AccessTest.Test.SetupPte: needs four distinct tables of 512 words on the path, no large page there, and frames within the 40-bit address mask of the code, in the entries there and in the pool; the code checks none of these.
- Printf.Stream.PrintInt: excludes the most negative long, which the code cannot negate, and numerals the local buffer cannot hold.
- Printf.Stream.PrintUnsigned: excludes numerals the local buffer cannot hold.
- Printf.Vsnprintf: the counters are unbounded, where the code counts in `int`, and arguments match their directives.
- Sieve.Run: sizes above 2^30 are excluded, where doubling an index may leave the range of `int`; so they are in ClearMultiples.
- Sieve.ClearMultiples: the same bound.
