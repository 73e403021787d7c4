# Proofs about the operating-system simulator

The system is an operating system split over processes: a memory server with two-level page
tables, per-process frames, Clock or Clock-M replacement, swap and suspension; a CPU with a
TLB and an instruction cycle; a kernel with long, medium and short-term schedulers, an I/O
device and suspension timers; and a console that sends programs as bytes.

The proofs build up to these statements.

- The memory server is a flat array per process, over every run of single requests, those of
  different processes mixed (`FlatMemory`, `RequestRuns`). The proof rests on an invariant over
  forward map, reverse map, bits, frames, swap files and the suspended table (`Paging`,
  `VirtualMemory`), and the arrays and request handlers of the source are proved to compute
  the machine's steps (`MemoryServer`).
- Clock and Clock-M, with their rotated scratch table and stored page, refine the textbook
  clock and the textbook enhanced clock, in a slot (`TextbookClock`) and over every run of the
  whole server (`ServerClock`); the loops compute them (`Replacement`).
- The TLB is transparent on all runs in exactly the configurations with one entry or a frame
  for every page; for every other configuration there is a run that reads the wrong page, of
  CPU and memory (`Translation`, `CpuMemory`, `StaleTlb`) and of the whole system from
  power-on (`SystemStale`). LRU and FIFO stamps mean what they should (`TlbCache`).
- A write on its way to memory reaches its page if and only if no suspension or end of its
  process overtakes it; the whole system can come to one that is overtaken, and otherwise
  delays cannot be seen (`InFlight`, `LateWrite`).
- The scheduler's queues, tags, tokens, semaphores, page tables and timers stay consistent in
  every reachable state under every interleaving of its threads' steps (`Scheduler`); queues
  serve in order (`FirstCome`), somebody can always go on (`Progress`), and estimates are
  those of the CPU's answers (`Estimates`).
- The flush protocol between kernel and CPU is enough when suspension timers fire in the order
  they were started (`FlushProtocol`); for every order of timers it is enough exactly under
  FIFO, with one process at a time, or with alfa 0 (`TimerOrder`).
- Kernel, CPU and memory together: from power-on, programs see flat memory (`SystemRun`).
- Programs leave and read in memory what they would by themselves, under every schedule
  (`ProgramRun`) and under the kernel's own, with the headers it sends (`WholeRun`); they ask
  of memory exactly what they would by themselves (`ProgramTrace`), end and block only where
  they say (`Endings`), and preemption cuts them without changing what they execute
  (`CpuCycle`).
- SRT choice and estimates (`Srt`), and the instruction codec (`Codec`).

## How it is laid out

Code that computes is modelled by functions, code that changes state by methods over classes
(`MemoryServer.Memory`, `TlbCache.Tlb`, `Queues.Estado`, `Codec.Buffer`, `CpuCycle.Cpu`,
`BlockTimes.BlockClock`), each method proved against the function that says what it does. In
`MemoryServer.Memory` the ghost field `st` is the abstract machine state; `Valid` ties every
array to it.

| file | models |
|---|---|
| `Arith.dfy` | division and counting facts |
| `Replacement.dfy`, `TextbookClock.dfy`, `ServerClock.dfy` | victim selection, and the reference clocks |
| `Paging.dfy`, `PagingProofs.dfy` | one process slot: pages, frames, swap file, pointer |
| `VirtualMemory.dfy`, `MemoryProofs.dfy` | all slots, the suspended table, the requests |
| `FlatMemory.dfy`, `RequestRuns.dfy`, `Addressing.dfy` | the reference memory, requests mixed, and the numberings |
| `MemoryServer.dfy` | the arrays and handlers of the server |
| `TlbCache.dfy`, `Translation.dfy`, `CpuMemory.dfy`, `StaleTlb.dfy`, `CpuClient.dfy` | TLB and translation |
| `Queues.dfy`, `Scheduler.dfy`, `FirstCome.dfy`, `BlockTimes.dfy`, `Srt.dfy`, `Estimates.dfy` | kernel |
| `FlushProtocol.dfy`, `TimerOrder.dfy` | which header a dispatched process is sent with |
| `SystemRun.dfy`, `SystemStale.dfy` | kernel, CPU and memory in one machine |
| `InFlight.dfy`, `LateWrite.dfy` | writes memory has still to serve |
| `Codec.dfy`, `CpuCycle.dfy` | programs as bytes, the instruction cycle |
| `ProgramRun.dfy`, `ProgramTrace.dfy` | programs over memory |
| `WholeRun.dfy`, `Endings.dfy`, `Progress.dfy` | programs under the kernel |

Parameters: `E` entries per table, `K = E*E` pages per process, `M` frames per process, `P`
slots, `T` page size, number of TLB entries and policy, degree of multiprogramming, limit of a
block, `alfa`, initial estimate.

## Where code and documentation part, or the code falls short

- The TLB is never told that memory replaced a page. `StaleTlb.TransparentIff` and
  `SystemStale.SystemTransparentIff` give the exact configurations in which that does no harm.
- The CPU does not wait for a write to be served, so a suspension can overtake it and it is
  lost: `InFlight.WriteLandsIff` gives the condition, `LateWrite.WritesCanMiss` the run.
- `ultimoPIDSuspendido` remembers one process, so under SRT with a degree of 2 or more and alfa
  other than 0 the flush protocol needs timers to fire in the order they were started
  (`TimerOrder.FlushEnoughIff`).
- `consola_tests/src/consola_parser_tests.c` expects other instruction codes than
  `utils/include/common_flags.h` (lines 32-39) declares; the codes here are the header's.
- `seleccionar_victima_clock` and its variant are written as if they could answer -1; with at
  least one frame they never do.
- A `COPY` or `WRITE` with one number is accepted by the parser with a left-over second
  operand; `Codec.Parse` does the same.
- When memory refuses a table, the kernel queues the process into EXIT without posting its
  semaphore (kernel/src/scheduler.c:52-57). The step is modelled as it is; it is proved never
  to be taken when the degree is at most the number of slots and sizes are accepted by memory.

## Model

| member | source | states |
|---|---|---|
| `FlatMemory.MemoryIsFlat` | memoria/src/atender_cpu.c:92-155 | after any run of single requests, of the CPU and of the kernel in any order, from start-up, under either replacement algorithm, a read answers with the last bytes written at the process, page and offset its address belongs to |
| `FlatMemory.MapsInverseInEveryRun` | memoria/src/atender_cpu.c:38-83 | in every reachable state frame j of a slot is in use holding page q if and only if the entry of q is present and names j; at most M pages are present; a present, unmodified page with a swap copy equals that copy |
| `FlatMemory.WalkFinds` | memoria/src/atender_cpu.c:116-149 | the two requests of a walk change no process's contents and end at a byte owned by exactly the process, page and offset asked for, waking the process if it was suspended |
| `FlatMemory.ServeStep` | memoria/src/atender_cpu.c:92-155 | one request keeps the invariant of the server and its representation of the flat arrays: a write changes the word at the byte its address belongs to, an end takes the bytes of its process along, nothing else changes anything; a read agrees with them |
| `FlatMemory.WroteRepresents` | memoria/src/atender_cpu.c:108-115 | a write changes the flat array of its process at the four bytes of its word and no other byte of any process |
| `FlatMemory.ReadAgrees` | memoria/src/atender_cpu.c:97-107 | a read at any owned physical address, not only one just walked to, agrees with the flat array at the byte the address belongs to |
| `FlatMemory.RunKeeps` | memoria/src/atender_cpu.c:92-155 | invariant and representation hold over whole runs of requests |
| `RequestRuns.InterleavedWalk` | memoria/src/atender_cpu.c:116-149 | a walk with any requests about other processes before and after its second request still ends at a byte owned by exactly the process, page and offset asked for |
| `RequestRuns.ServeUntouched` | memoria/src/atender_cpu.c:92-155 | every request, of the CPU or the kernel, keeps slot, file and suspended row of every process it is not about |
| `RequestRuns.OthersRun` | memoria/src/atender_kernel.c:43-89 | so does every run of such requests |
| `RequestRuns.SuspendWakeRoundTrip` | memoria/src/tabla_suspendido.c:22-75 | suspended, and woken after any run of requests about other processes, a process finds its contents, its size and exactly the pages it had written, all in swap, whatever slot it wakes in; its old slot was vacant in between |
| `MemoryProofs.FrameStep` | memoria/src/atender_cpu.c:55-83 | a page request keeps every process's contents whatever it evicts, moves nobody to another slot and answers with a frame that now holds the page |
| `MemoryProofs.ReadStep` | memoria/src/atender_cpu.c:97-107 | a read changes no contents and answers with the bytes of the page that owns the address |
| `MemoryProofs.WriteStep` | memoria/src/atender_cpu.c:108-115 | a write makes the owner's page known, with its earlier bytes and the new word over them, and touches no other page of anybody |
| `MemoryProofs.CreateStep` | memoria/src/atender_kernel.c:14-19 | a process is created exactly when its size fits and a slot is free, under a new id and with nothing written; otherwise nothing changes |
| `MemoryProofs.SuspendStep` | memoria/src/atender_kernel.c:65-76 | suspension moves the process to the suspended table, frees its slot and changes nobody's contents; suspending a suspended process does nothing |
| `MemoryProofs.WakeStep` | memoria/src/tabla_suspendido.c:55-75 | waking takes the first free slot, removes the row of the suspended table and changes nobody's contents |
| `MemoryProofs.FinishStep` | memoria/src/atender_kernel.c:77-84 | the end of an active or a suspended process removes it everywhere and leaves every other process's contents as they were |
| `MemoryProofs.SuspendSlot` | memoria/src/tabla_suspendido.c:22-53 | suspending writes out exactly what the process had written: the swap image equals the image in memory, and tables, frames and header are given back clean |
| `MemoryProofs.MemoryGivenBack` | memoria/src/tabla_suspendido.c:36-36 | the frames a suspended process had in use are zeroed and no others; those of an ended one are left as they were |
| `MemoryProofs.WokenSlot` | memoria/src/tabla_suspendido.c:55-75 | the slot a wake-up hands out has no page in memory and the in-swap bit set exactly for the pages of the suspended row |
| `MemoryProofs.WakeInv` | memoria/src/tabla_suspendido.c:55-75 | waking keeps all invariants, and every other process keeps slot, file and row |
| `MemoryProofs.SuspendInv` | memoria/src/tabla_suspendido.c:22-53 | suspending keeps all invariants, and every other process keeps slot, file and row |
| `MemoryProofs.ResidentAtMostFrames` | memoria/src/atender_cpu.c:72-80 | a slot in good order never has more pages in memory than frames |
| `MemoryProofs.OwnedActive` | memoria/src/marcos.c:27-32 | a frame in use belongs to an active slot and to a page of its process, whose contents are the bytes of the frame |
| `VirtualMemory.InitInv` | memoria/src/memoria.c:90-106 | the empty tables of start-up satisfy the invariant |
| `PagingProofs.PageInKeeps` | memoria/src/atender_cpu.c:55-83 | a page fault keeps maps inverse, swap fresh and pointer resident, makes the page present and changes nothing the process sees, whichever victim goes |
| `PagingProofs.EvictKeeps` | memoria/src/atender_cpu.c:66-71 | with all frames in use the page takes exactly the victim's frame, the victim is no longer present, and no written byte is lost |
| `PagingProofs.Swap` | memoria/src/atender_cpu.c:48-53 | swapping a victim for a page hands over its frame and keeps every other entry and the contents of all pages; a modified victim is copied to its place in the file, a clean one dropped without a copy |
| `PagingProofs.LoadFree` | memoria/src/atender_cpu.c:72-80 | loading into the first free frame touches no other page or frame |
| `PagingProofs.TouchKeeps` | memoria/src/atender_cpu.c:97-107 | marking a page used changes nothing the process sees |
| `PagingProofs.StoreKeeps` | memoria/src/atender_cpu.c:108-115 | bytes written through a frame show up in the page the frame holds and in no other |
| `Paging.SelectionFacts` | memoria/src/algoritmos.c:38-107 | a selection only clears use bits and moves the pointer; the victim is resident, and with two frames or more the new pointer is another page |
| `Paging.SelectionFrames` | memoria/src/algoritmos.c:13-46 | taken back through the rotation, the victim is the page of the chosen row's frame and the pointer the page of the frame after it |
| `Replacement.ClockMTakesLeastClass` | memoria/src/algoritmos.c:77-105 | the enhanced clock takes row k if and only if k is the first row, from the pointer on, of the least (use, modified) class at entry |
| `Replacement.ClockMClears` | memoria/src/algoritmos.c:77-105 | it clears no use bit when the victim was neither used nor modified, those before the victim when it was modified only, and all otherwise |
| `Replacement.ChoiceOnlyClearsUse` | memoria/src/algoritmos.c:38-107 | no selection changes anything but use bits, and none sets one |
| `Replacement.ClockChoice` | memoria/src/algoritmos.c:53-68 | the bits cleared are exactly those of the rows passed over, all of them when every bit was set |
| `Replacement.ClockSweep` | memoria/src/algoritmos.c:48-70 | the loops in place compute the specified victim and bits, and never answer -1 |
| `Replacement.ClockMSweep` | memoria/src/algoritmos.c:72-107 | the two rounds of two sweeps in place compute the specified victim and bits, and never answer -1 |
| `Replacement.RotateLeft` | memoria/src/algoritmos.c:29-35 | rotating one position at a time leaves the row of the pointer first and the others in cyclic order |
| `TextbookClock.RunRefinesTextbook` | memoria/src/algoritmos.c:13-70 | over any run of page requests, reads and writes, the frames, use and modified bits and pointer of a slot are those of the textbook clock of its algorithm, plain or enhanced, with a circular hand run on the same events: same victims, same bits |
| `TextbookClock.EvictMovesHand` | memoria/src/algoritmos.c:66-69 | under either algorithm the stored pointer ends on the frame after the victim's |
| `TextbookClock.SweepIsAdvance` | memoria/src/algoritmos.c:53-68 | sweeping the rotated table and advancing a hand agree on the victim frame and on every bit |
| `TextbookClock.SweepsAreTurns` | memoria/src/algoritmos.c:77-105 | the rounds of sweeps over the rotated table and four turns of a hand round the circle agree on the victim frame and on every bit |
| `TextbookClock.EnhancedTakesLeast` | memoria/src/algoritmos.c:77-105 | the enhanced clock takes the first frame from the hand on of the least (use, modified) there is; the use bits cleared are none, those before the victim, or all, as that rank is 0, 1 or more |
| `TextbookClock.EnhancedEvicts` | memoria/src/atender_cpu.c:66-71 | under Clock-M, with all frames in use, the page asked for takes the frame of the first page, in frame order from the frame holding the pointer, whose bits (use, modified) in the page table are least |
| `TextbookClock.PageInIsDemand` | memoria/src/atender_cpu.c:55-83 | a page request does to the slot what a demand does to the circle, present page, free frame or eviction, under either algorithm |
| `TextbookClock.LoadIsDemand` | memoria/src/atender_cpu.c:72-80 | filling free frames keeps the hand at frame 0, also when the last one fills |
| `TextbookClock.AccessIsMark` | memoria/src/atender_cpu.c:38-46 | a read or write sets the use bit of its frame and no other, a write its modified bit as well |
| `ServerClock.ServerRefinesTextbook` | memoria/src/atender_cpu.c:92-155 | over every run of requests about any processes, from the admission or wake-up of a process to its suspension or end, its slot is a textbook clock of the configured algorithm run on the requests that reach it |
| `ServerClock.StepClock` | memoria/src/atender_cpu.c:92-155 | one request is to the clock of a slot a demand, a mark, or nothing |
| `MemoryServer.Memory.constructor` | memoria/src/memoria.c:90-106 | the arrays of start-up stand for the empty machine |
| `MemoryServer.MemoryFits` | memoria/src/memoria_config.c:81-83 | the slots the configuration grants fit in main memory with all their frames |
| `MemoryServer.CreateLevel1` | memoria/src/tabla_nivel_1.c:15-42 | the two running counters deal out level-2 tables and frames so that slot i gets those from i*E and i*M on |
| `MemoryServer.CreateLevel2` | memoria/src/tabla_nivel_2.c:32-50 | every entry of every table starts blank |
| `MemoryServer.CreateFrames` | memoria/src/marcos.c:10-20 | every frame starts free |
| `MemoryServer.Memory.ReadWord` | memoria/src/atender_cpu.c:97-107 | the arrays answer and change as the machine does for a read at the place of the address |
| `MemoryServer.Memory.WriteWord` | memoria/src/atender_cpu.c:108-115 | the arrays change as the machine does for a write at the place of the address |
| `MemoryServer.Memory.MarkPage` | memoria/src/atender_cpu.c:38-46 | only the page of the frame the address lies in is marked, used and, after a write, modified |
| `MemoryServer.Memory.TableRequest` | memoria/src/atender_cpu.c:116-134 | the table of the process is answered, after waking it if it was suspended |
| `MemoryServer.Memory.FrameRequest` | memoria/src/atender_cpu.c:136-149 | the answer is the physical address of the frame the machine gives the page |
| `MemoryServer.Memory.ObtainFrame` | memoria/src/atender_cpu.c:55-83 | present page, free frame and eviction each do to the arrays what they do to the machine |
| `MemoryServer.Memory.Evict` | memoria/src/atender_cpu.c:66-71 | choosing and swapping a victim over the global arrays is a page-in of the slot |
| `MemoryServer.Memory.LoadInto` | memoria/src/atender_cpu.c:72-80 | loading over the global arrays is a page-in of the slot; frame 0 takes the pointer along |
| `MemoryServer.Memory.SwapFrame` | memoria/src/atender_cpu.c:48-53 | victim out, page in, over the global arrays |
| `MemoryServer.Memory.SwapOut` | memoria/src/tabla_nivel_2.c:65-80 | a modified page is written to its place in the file and gets its in-swap bit; the frame is freed |
| `MemoryServer.Memory.SwapIn` | memoria/src/tabla_nivel_2.c:82-99 | a page with a swap copy is read into the frame; entry and frame then name each other |
| `MemoryServer.Memory.ClearLevel2` | memoria/src/tabla_nivel_2.c:101-111 | one row of the slot becomes blank, no other entry changes |
| `MemoryServer.Memory.BitsOf` | memoria/src/tabla_nivel_2.c:129-139 | the bits of a global page number are those of the page of its slot |
| `MemoryServer.Memory.SetUsed` | memoria/src/tabla_nivel_2.c:149-153 | the use bit of exactly that page changes |
| `MemoryServer.Memory.SetInSwap` | memoria/src/tabla_nivel_2.c:145-147 | the in-swap bit of exactly that page changes |
| `MemoryServer.Memory.PageLocal` | memoria/src/tabla_nivel_2.c:125-127 | the local index of a global page number is the page number inside the slot |
| `MemoryServer.Memory.LoadTable` | memoria/src/algoritmos.c:13-36 | the scratch table holds page and bits of every frame, rotated to the pointer |
| `MemoryServer.Memory.StoreTable` | memoria/src/algoritmos.c:38-46 | the use bits go back to the pages of their rows |
| `MemoryServer.Memory.Select` | memoria/src/algoritmos.c:48-107 | the victim and the slot after the selection are those of the specification for the configured algorithm |
| `MemoryServer.Memory.SuspendActive` | memoria/src/tabla_suspendido.c:22-53 | the loops over rows and pages, clearing as they go, end in the suspended state of the machine |
| `MemoryServer.Memory.ParkPage` | memoria/src/tabla_suspendido.c:32-41 | one page leaves memory and is listed if it now has a swap copy; pages treated before stay treated |
| `MemoryServer.Memory.PutRow` | memoria/src/tabla_suspendido.c:14-20 | the row enters the dictionary under the id |
| `MemoryServer.Memory.SuspendRequest` | memoria/src/atender_kernel.c:65-76 | an active process is suspended, a suspended one left alone |
| `MemoryServer.Memory.WakeProcess` | memoria/src/tabla_suspendido.c:55-75 | a free slot takes the process with the in-swap bits of its row |
| `MemoryServer.Memory.CreateProcess` | memoria/src/atender_kernel.c:14-63 | created or refused exactly as the machine does, with its file |
| `MemoryServer.Memory.FinishProcess` | memoria/src/atender_kernel.c:21-32 | tables, frames and header of an active process, or the row of a suspended one, and the file are gone |
| `MemoryServer.Memory.ClearLevel1` | memoria/src/tabla_nivel_1.c:137-153 | header and frames of the first slot with the id are cleared, nothing else |
| `MemoryServer.Memory.Level2Table` | memoria/src/tabla_nivel_1.c:52-61 | the table of an entry of the first slot with the id, -1 without one |
| `MemoryServer.Memory.IdOfTable` | memoria/src/tabla_nivel_1.c:63-75 | the id of the slot a level-2 table belongs to |
| `MemoryServer.Memory.FreeSlot` | memoria/src/tabla_nivel_1.c:77-87 | the first slot with id 0 |
| `MemoryServer.Memory.HasFreeSlot` | memoria/src/tabla_nivel_1.c:126-135 | true if and only if some slot has id 0 |
| `MemoryServer.Memory.SlotIndex` | memoria/src/tabla_nivel_1.c:108-118 | the one slot with a live id |
| `MemoryServer.Memory.FramesOf` | memoria/src/tabla_nivel_1.c:102-106 | the frames answered are those of the slot, in order |
| `MemoryServer.Memory.PointerOf` | memoria/src/tabla_nivel_1.c:155-163 | the clock pointer of the process's slot |
| `MemoryServer.Memory.SetPointer` | memoria/src/tabla_nivel_1.c:165-171 | the pointer of the process's slot changes and no other |
| `MemoryServer.Memory.FreeFrame` | memoria/src/marcos.c:34-42 | the first frame of the slot that is not in use, -1 if all are |
| `MemoryServer.Memory.FreeFrames` | memoria/src/marcos.c:44-47 | all frames of one slot and no other are freed |
| `Addressing.LocateInvertsAddress` | memoria/src/marcos.c:27-32 | distinct bytes of distinct frames have distinct physical addresses inside main memory; the quotient by the page size is the frame number |
| `Addressing.AddressInvertsLocate` | memoria/src/marcos.c:27-32 | every address below the size of main memory is the address of a byte of a frame |
| `Addressing.SplitInverts` | cpu/src/cpu_mem_client.c:35-38 | entries, page number and offset of a logical address put together give it back, and are in range exactly for the addresses of a process |
| `Addressing.JoinInverts` | cpu/src/cpu_mem_client.c:35-38 | every triple in range is the split of one logical address |
| `Addressing.TableInverts` | memoria/src/tabla_nivel_1.c:25-38 | the numbering of level-2 tables by slot and row is one-to-one |
| `Addressing.GlobalPageBySlot` | memoria/src/tabla_nivel_1.c:31-50 | global page numbers run by slot, E*E to each |
| `Addressing.GlobalPageInverts` | memoria/src/tabla_nivel_2.c:22-30 | every division and remainder the source takes of a global page number gives back the slot, row and entry it was made from |
| `MemoryServer.PageParts` | memoria/src/tabla_nivel_2.c:121-127 | the same for a page number inside a slot |
| `TlbCache.LruHoldsLastDistinct` | cpu/src/tlb.c:73-86 | after any trace since a flush an LRU TLB of n entries holds, and hits on, exactly the pages with fewer than n distinct pages used since their last use |
| `TlbCache.LruHitsGrow` | cpu/src/tlb.c:73-130 | on every trace a larger LRU TLB hits whenever a smaller one does |
| `TlbCache.FifoHoldsLastInserted` | cpu/src/tlb.c:73-130 | a FIFO TLB of n entries holds the last n pages inserted; a hit changes nothing |
| `TlbCache.AccessRenews` | cpu/src/tlb.c:73-130 | wherever the entries lie, stamps order them as a list: an access moves or puts its page to the front (LRU), or leaves the list on a hit (FIFO), and a page hits exactly when listed |
| `TlbCache.RecencyDepth` | cpu/src/tlb.c:49-57 | the place of a page in the order of last use is the number of distinct pages used since |
| `TlbCache.Tlb.constructor` | cpu/src/tlb.c:88-104 | entries start zeroed and counted as free |
| `TlbCache.Tlb.Flush` | cpu/src/tlb.c:112-118 | every entry is emptied and all are free again; the clock goes on |
| `TlbCache.Tlb.GetFrame` | cpu/src/tlb.c:120-130 | the frame of the first entry with the page, -1 without one; under LRU a hit renews the stamp |
| `TlbCache.Tlb.Store` | cpu/src/tlb.c:73-86 | the first free entry, or else the one of least stamp, takes the translation with the current time |
| `TlbCache.Tlb.FirstFree` | cpu/src/tlb.c:64-71 | the first empty entry, -1 without one |
| `TlbCache.Tlb.LeastStamp` | cpu/src/tlb.c:49-57 | the entry of least stamp, the first of equals |
| `CpuMemory.TlbIsTransparent` | cpu/src/cpu_mem_client.c:31-77 | with one entry or a frame for every page, over every run of possible events no lookup is led astray and what is fetched through the TLB is what the flat array holds, whatever the kernel asks of memory meanwhile, between any two requests of the access |
| `StaleTlb.TransparentIff` | cpu/src/cpu_mem_client.c:31-47 | the TLB is right on every run if and only if it has one entry, or memory has a frame for every page of a process, or pages are too small for a word |
| `StaleTlb.StaleFromStart` | cpu/src/cpu_mem_client.c:40-46 | in every other configuration one run, reads of M+1 pages of one process, is led by a stale entry to another page's bytes |
| `StaleTlb.StaleEnding` | memoria/src/atender_cpu.c:66-71 | page 0 enters the TLB, page M takes its frame, and the next read of page 0 goes astray |
| `Translation.TranslateStep` | cpu/src/cpu_mem_client.c:31-47 | in a harmless configuration a coherent TLB answers right and stays coherent over a whole translation, the page replacement of the walk included |
| `Translation.RightIsWalk` | cpu/src/cpu_mem_client.c:31-47 | a right hit cannot be told from the walk: same address, and memory is where the walk would leave it |
| `Translation.CoherentRight` | cpu/src/cpu_mem_client.c:40-46 | an entry that names a frame its page occupies leads to the process's own byte |
| `Translation.RoomyFault` | memoria/src/marcos.c:34-42 | with as many frames as pages a missing page always finds a free frame |
| `Translation.FrameKeepsOwners` | memoria/src/atender_cpu.c:55-83 | then a page request takes no frame from anybody |
| `Translation.UntouchedCoherent` | memoria/src/atender_kernel.c:47-84 | requests about other processes leave every translation of a process right |
| `CpuMemory.AskUntouched` | memoria/src/atender_kernel.c:47-84 | a process a request of the kernel does not concern keeps slot, file and suspended row |
| `CpuMemory.StepTrusted` | cpu/src/cpu_mem_client.c:31-77 | one step of an access or one request of the kernel keeps the TLB coherent and every lookup right |
| `CpuMemory.StepIsFlat` | cpu/src/cpu_mem_client.c:49-77 | one step keeps memory representing the flat arrays, and what it fetches is what they hold |
| `CpuMemory.HarmlessAllRight` | cpu/src/cpu_mem_client.c:31-77 | in a harmless configuration no lookup of any run is led astray |
| `CpuMemory.RunIsRequestRun` | cpu/src/cpu_mem_client.c:31-77 | a run of the CPU is a run of requests, each of which can be served, and memory is exactly where they leave it |
| `CpuMemory.ObtainIsTranslate` | cpu/src/cpu_mem_client.c:31-47 | with nothing in between, lookup and walk request by request give the address, TLB and memory of the translation |
| `CpuClient.ObtainAddress` | cpu/src/cpu_mem_client.c:31-47 | on the objects themselves: address split, lookup, walk on a miss and registration give the specified address, TLB and memory |
| `CpuClient.ReadMemory` | cpu/src/cpu_mem_client.c:59-77 | on the objects themselves: the word read and the state left are those of the specified load |
| `CpuClient.WriteMemory` | cpu/src/cpu_mem_client.c:49-57 | on the objects themselves: the state left, once the write is served, is that of the specified store |
| `InFlight.WriteLandsIff` | cpu/src/cpu_mem_client.c:49-57 | in every reachable state the next write to be served finds the byte it was sent for if and only if no suspension and no end of its process has been served since it was sent; otherwise its frame is nobody's |
| `InFlight.OvertakenIff` | memoria/src/atender_cpu.c:108-115 | the same about any run of kernel requests between the sending and the serving |
| `InFlight.KernelOwners` | memoria/src/atender_kernel.c:43-84 | a request of the kernel takes the frames of the process it suspends or ends, and gives no frame to anybody |
| `InFlight.WriteCommutes` | memoria/src/atender_kernel.c:43-84 | a write and a kernel request about another process, or about none, leave the same memory in either order |
| `InFlight.MoveRefines` | cpu/src/cpu_mem_client.c:49-57 | one move with writes on their way is that event with every write served at once, as long as none is overtaken |
| `InFlight.RunRefines` | cpu/src/cpu_mem_client.c:49-57 | so is every run |
| `InFlight.DelaysAreInvisible` | cpu/src/cpu_mem_client.c:59-77 | so in a harmless configuration what is fetched is what the flat array holds, every write counting from when it was sent, unless one was overtaken |
| `LateWrite.WritesCanMiss` | kernel/src/scheduler.c:145-167 | the whole system, from power-on, can come to a write followed by the suspension of its process, and memory can then serve the suspension first; the write is lost |
| `LateWrite.SystemOvertakes` | cpu/src/cpu_kernel_server.c:83-92 | the run of kernel, CPU and memory: a WRITE, an I/O longer than the limit of a block, and the timer fires |
| `LateWrite.DelaysInSystem` | cpu/src/cpu_mem_client.c:49-57 | as long as no write is overtaken, the whole system with writes on their way is the one with writes served at once, once they have been served |
| `Scheduler.RunInv` | kernel/src/scheduler.c:135-485 | all scheduling invariants hold in every reachable state, from any degree memory has slots for, under any interleaving of the threads' steps |
| `Scheduler.InitInv` | kernel/src/scheduler.c:427-485 | the initial semaphores and queues satisfy them |
| `Scheduler.NeverEmpty` | kernel/src/scheduler.c:174-381 | no thread past its semaphore takes from an empty queue, and what it takes is a live process |
| `Scheduler.StepPlaces` | kernel/src/scheduler.c:135-425 | every live process keeps exactly one scheduling place, through every step |
| `Scheduler.StepTagged` | kernel/src/scheduler.c:135-425 | the stored state agrees with the place after every step |
| `Scheduler.TagTellsPlace` | kernel/src/scheduler.c:146-205 | a process is in the I/O queue or device if and only if it is tagged blocked or suspended-blocked, also after a timer took it off BLOCKED and let it be; likewise for SUSREADY, EXIT and SUSBLOCKED |
| `Scheduler.TimerOfThisBlock` | kernel/src/scheduler.c:145-167 | a timer that suspends a process is the last one started for it, and the process is still in that block |
| `Scheduler.TimerSuspendsIff` | kernel/src/scheduler.c:145-167 | in that block a timer suspends the process, giving token and page table back, if and only if the I/O alone is longer than the limit or with the seconds waited for the device; otherwise BLOCKED loses it and nothing else changes; a timer of an earlier block does nothing |
| `Scheduler.StepTimers` | kernel/src/scheduler.c:271-282 | timers of a process carry rising block numbers, none beyond its current block |
| `Scheduler.StepTokens` | kernel/src/scheduler.c:207-265 | free tokens plus processes in READY, EXEC, in flight, in EXIT and tagged BLOCKED stay the degree of multiprogramming |
| `Scheduler.StepSignals` | kernel/src/scheduler.c:174-381 | every semaphore counts its queue, and dispatch permit, process in EXEC, process in flight and pending choice stay one together |
| `Scheduler.StepTables` | kernel/src/scheduler.c:207-248 | live page tables and admitted processes correspond one to one; suspended processes have suspended tables |
| `Scheduler.ActiveBelowTokens` | kernel/src/scheduler.c:219-248 | active slots never exceed the tokens given out, and are fewer while a token holder's table is suspended |
| `Scheduler.AdmissionFindsSlot` | kernel/src/scheduler.c:230-246 | with the degree at most the slots, an admission is never refused for want of one |
| `Scheduler.RefusedIsNotSignalled` | kernel/src/scheduler.c:52-57 | a refused process is put into EXIT with its token taken and the exit thread told nothing; what AdmissionFindsSlot excludes |
| `Scheduler.WakeFindsSlot` | memoria/src/tabla_suspendido.c:55-64 | nor does a suspended process that runs again lack a slot to wake up in |
| `Scheduler.StepInv` | kernel/src/scheduler.c:135-425 | one step of any thread keeps all of the above together |
| `Scheduler.FifoNeverPreempts` | kernel/src/scheduler.c:68-70 | under FIFO no interrupt is ever sent and nobody is ever preempted |
| `Scheduler.ElectedIsChosen` | kernel/src/scheduler.c:362-381 | under SRT position i of READY is taken if and only if its estimate less its executed time is at most that of every position and less than that of every earlier one; that is exactly the process the choice function takes out of READY, and READY is left as it leaves it |
| `Scheduler.SomebodyElected` | kernel/src/scheduler.c:362-381 | a non-empty READY always has a position to take |
| `Scheduler.NewcomerAsks` | kernel/src/scheduler.c:183-248 | whoever enters READY other than by preemption leaves a request to evaluate a preemption, nothing else does, and only a look under SRT settles it |
| `Scheduler.RequestInterrupts` | kernel/src/scheduler.c:100-111 | under SRT that request is spent at the next look of the short-term scheduler, which sends whoever is in EXEC one interrupt |
| `Scheduler.PreemptionsAreAsked` | cpu/src/cpu_kernel_server.c:112-131 | over any run there are no more preemptions than interrupts sent, whenever they arrive and whoever executes by then |
| `Scheduler.InterruptStep` | cpu/src/cpu_kernel_server.c:112-131 | an interrupt is sent by a look under SRT that finds a request and somebody in EXEC; once received it stays until a preemption serves it, and several received before that are one |
| `Scheduler.InterruptPreempts` | kernel/src/scheduler.c:335-341 | a process on the CPU with an interrupt on its way can come back to the end of READY at once |
| `FirstCome.FirstComeFirstServed` | kernel/src/estado.c:65-80 | over whole runs NEW, SUSREADY, the I/O queue, EXIT, and under FIFO READY, hand processes on in the order in which they joined |
| `FirstCome.StepOrder` | kernel/src/scheduler.c:183-265 | a step appends whoever joins a queue at its end and takes its first, or under SRT the one elected of READY; nobody else changes place |
| `Estimates.EstimatesAreAnswers` | kernel/src/scheduler.c:267-282 | over whole runs of the kernel under SRT a process's executed time is what it ran since its last block, its estimate the exponential sum of the initial one and its finished bursts, and its last real burst the last of these, according to the answers of the CPU about it |
| `Estimates.DueIsAnswers` | kernel/src/scheduler.c:330-352 | under either algorithm a process is charged with the answers about it, in order, and with nothing else |
| `Progress.SomebodyMoves` | kernel/src/scheduler.c:174-381 | as long as there is a process, some thread can go on without arrivals and without waiting for a timer: the semaphores never lock everybody out |
| `Queues.Estado.Remove` | kernel/src/estado.c:38-52 | the first occurrence of the process is taken out, the order of the rest kept; NULL exactly when it is not there |
| `Queues.Estado.Contains` | kernel/src/estado.c:54-63 | true if and only if the process is in the list |
| `Queues.Estado.DequeueFirst` | kernel/src/estado.c:65-74 | the first process leaves, the rest keep their order |
| `Queues.Estado.Enqueue` | kernel/src/estado.c:76-80 | the process goes to the end |
| `Queues.WithoutIs` | kernel/src/estado.c:38-52 | removal by id takes out that process and nothing else |
| `BlockTimes.BlockClock.TestAndSet` | kernel/src/pcb.c:74-81 | the final time of a block is set by the first to ask and by nobody after |
| `BlockTimes.EndIsFirstToSettle` | kernel/src/scheduler.c:135-205 | over any sequence of calls the final time of a block is that of the first call to settle it since the last I/O was over |
| `BlockTimes.NotSettled` | kernel/src/pcb.c:179-181 | and it is open when there has been no such call |
| `BlockTimes.BlockClock.Block` | kernel/src/pcb.c:175-177 | sets the initial time, nothing else |
| `BlockTimes.BlockClock.Clear` | kernel/src/pcb.c:179-181 | opens the final time, nothing else |
| `SystemRun.ProgramsSeeFlatMemory` | kernel/src/scheduler.c:298-360 | from power-on, with kernel, CPU and memory together, request by request, in a harmless configuration, with timers in order under SRT with alfa other than 0 and in any order otherwise, the running process fetches what the flat array of its process holds |
| `SystemRun.NotInHand` | kernel/src/scheduler.c:145-217 | whoever is suspended or ends is never the process whose access to memory is in hand |
| `SystemRun.SysStep` | kernel/src/scheduler.c:135-360 | whatever the whole system is allowed to do next it can do, and scheduling, tokens, page tables, coherence and flush protocol all hold again |
| `SystemRun.PowerOnInv` | kernel/src/scheduler.c:427-485 | the whole system starts in its invariant |
| `SystemRun.DispatchWithoutFlush` | cpu/src/cpu_kernel_server.c:147-150 | a process dispatched without a flush is the last one that ran and was not suspended since; every translation in the TLB is its own and right |
| `SystemRun.DispatchFlushesIff` | cpu/src/cpu_kernel_server.c:147-150 | a dispatch empties the TLB exactly when another process ran last or this one is the one suspended last; otherwise CPU and memory go on as they were |
| `SystemRun.StepFlush` | cpu/src/cpu_kernel_server.c:147-150 | what the kernel reckons as stale covers what the TLB has really lost, after every step |
| `SystemRun.StepPicture` | kernel/src/scheduler.c:207-265 | which tables are active and which suspended is the same in the kernel's reckoning and in memory, after every step |
| `SystemRun.SchedReady` | memoria/src/atender_kernel.c:14-84 | every request the kernel makes finds its process, its slot and its size accepted |
| `SystemRun.EffectsGo` | cpu/src/cpu_kernel_server.c:133-176 | the run of the whole is a run of CPU and memory, to which the flat-memory law applies |
| `SystemRun.FewActiveFree` | memoria/src/tabla_nivel_1.c:126-135 | fewer active processes than slots leave a slot free |
| `TimerOrder.FlushEnoughIff` | kernel/src/scheduler.c:310-319 | over every interleaving and every order of timers the flush protocol is enough if and only if scheduling is FIFO, or the degree of multiprogramming is at most 1, or alfa is 0 |
| `TimerOrder.OutOfOrderTimersSkipTheFlush` | kernel/src/scheduler.c:160-162 | under SRT with a degree of 2 or more and alfa other than 0, for every limit of a block and initial estimate: a run, with the bursts and the choices the code makes, after which the process the CPU ran last, suspended since, is sent with the header that does not flush |
| `TimerOrder.SecondElected` | kernel/src/scheduler.c:120-132 | at the choice of that run the process that came second has the smaller estimate left, so the code takes it |
| `FlushProtocol.FlushEnough` | kernel/src/scheduler.c:310-319 | with timers in the order they were started, or under FIFO, or with one process at a time, or with alfa 0: whoever is sent and ran last and was suspended since is the one suspended last, in every run |
| `FlushProtocol.WatchStep` | kernel/src/scheduler.c:135-381 | one step of any thread keeps the invariant behind it |
| `FlushProtocol.WatchSound` | kernel/src/scheduler.c:310-319 | a process at the front of the line has nobody ahead of it who was suspended later |
| `FlushProtocol.LineStep` | kernel/src/estado.c:65-80 | under FIFO, or SRT with alfa 0, no step before an I/O is over changes who is ahead of a process that has not run since its last block |
| `FlushProtocol.ElectLine` | kernel/src/scheduler.c:120-132 | with equal estimates SRT never takes a process that has not run before one queued ahead of it |
| `FlushProtocol.EvenStep` | kernel/src/scheduler.c:113-118 | with alfa 0 every estimate stays the initial one |
| `FlushProtocol.IoLine` | kernel/src/scheduler.c:183-203 | nor does the end of an I/O, even where a process that was not suspended overtakes those in SUSREADY |
| `FlushProtocol.FireFollows` | kernel/src/scheduler.c:145-167 | whoever a timer suspends after the process that ran last is ahead of it |
| `SystemStale.SystemTransparentIff` | cpu/src/cpu_mem_client.c:31-47 | with kernel, CPU and memory together no lookup is ever led astray if and only if the TLB has one entry, or memory has a frame for every page, or nothing can run, or pages are too small for a word |
| `SystemStale.RunsStale` | kernel/src/scheduler.c:310-319 | in every other configuration, under FIFO and SRT, the run from power-on: one process, suspended once, back from a short I/O with its pages in memory and the TLB flushed, reads M+1 pages and then finds a stale translation |
| `SystemStale.ReadsParked` | memoria/src/tabla_suspendido.c:55-75 | a process suspended before it touched a page finds memory, at its first read, as if it had not been |
| `SystemStale.SoundStep` | kernel/src/scheduler.c:135-381 | in any configuration, harmless or not, the scheduling invariants hold after every step of the whole |
| `Srt.ChooseTakesFirstLeast` | kernel/src/scheduler.c:81-132 | position k is chosen if and only if its estimate less its executed time is at most that of every position and less than that of every earlier one; the order of the rest is kept |
| `Srt.FindMinimum` | kernel/src/scheduler.c:81-87 | the fold of the list agrees with the specified minimum |
| `Srt.EstimateIsExponentialSum` | kernel/src/scheduler.c:89-118 | over a whole run the estimate is the closed exponential sum of the initial estimate and the finished bursts, however preemptions cut them |
| `Srt.CutsDoNotMatter` | kernel/src/scheduler.c:100-118 | two runs with the same finished bursts end with the same estimate |
| `Srt.EstimateInRange` | kernel/src/scheduler.c:89-98 | with alfa in [0,1] every estimate stays in the range of the initial one and the real bursts |
| `Codec.DecodeEncode` | utils/src/instruccion.c:40-77 | decoding the encoding of a program with one EXIT, at its end, gives it back and consumes exactly its bytes |
| `Codec.EncodeDecode` | utils/src/instruccion.c:40-77 | whatever decodes is the encoding of such a program followed by what was left |
| `Codec.TextArrives` | consola/src/consola_parser.c:25-68 | what the console parses the CPU decodes as the program the text stands for, NO_OP n as n instructions; nothing after the EXIT is looked at |
| `Codec.ParseText` | consola/src/consola_parser.c:25-68 | parsing a text gives the encoding of its program and stops behind its EXIT, wherever the text stands |
| `Codec.AcceptedDecodes` | consola/src/consola_parser.c:22-68 | whatever text is accepted, missing second operands included, its bytes are those of a program the decoder accepts |
| `Codec.WordRoundTrip` | utils/src/instruccion.c:45-71 | four bytes, least significant first, determine the word |
| `Codec.EncodeAppend` | consola/src/consola_serializer.c:3-15 | encodings concatenate |
| `Codec.RepeatedIsNoOps` | consola/src/consola_parser.c:29-32 | n single NO_OP bytes are the encoding of n NO_OP instructions |
| `Codec.BytesByKind` | consola/src/consola_serializer.c:3-15 | the bytes of every instruction, with the numbers of the enumeration and one word for each operand that travels |
| `Codec.UnusedOperands` | utils/src/instruccion.c:45-71 | an operand that did not travel is decoded as -1 |
| `Codec.UnknownRejected` | consola/src/consola_parser.c:68-75 | a word that is none of the six names, or a number where a name should be, is rejected |
| `Codec.MissingNumber` | consola/src/consola_parser.c:25-45 | a word where a number should be ends the process; a text that ends there never comes back |
| `Codec.OneNumber` | consola/src/consola_parser.c:33-67 | a COPY with one number copies from the last second operand there was |
| `Codec.ParseInstructions` | consola/src/consola_parser.c:13-91 | the loop over the buffer gives the specified outcome and appends the specified bytes, whether the text is accepted or rejected |
| `Codec.PackNoOps` | consola/src/consola_parser.c:30-32 | n bytes of NO_OP are appended |
| `Codec.DecodeBuffer` | utils/src/instruccion.c:40-77 | the loop takes the specified list off the front of the buffer and leaves the rest |
| `Codec.UnpackInstr` | utils/src/instruccion.c:45-71 | one instruction is taken off, unused operands at the default; an unknown code ends the process |
| `Codec.Buffer.constructor` | utils/src/buffer.c:7-12 | empty |
| `Codec.Buffer.Copy` | utils/src/buffer.c:14-20 | same bytes |
| `Codec.Buffer.Pack` | utils/src/buffer.c:27-31 | appended at the end |
| `Codec.Buffer.Unpack` | utils/src/buffer.c:33-42 | taken off the front, the rest shifted down |
| `Codec.Buffer.PackNoArgs` | consola/src/consola_serializer.c:3-5 | one code byte appended |
| `ProgramRun.ProgramsRunAsAlone` | cpu/src/cpu_kernel_server.c:32-169 | in a harmless configuration, whatever is dispatched, suspended, admitted and ended meanwhile, memory holds for every process every byte its program would have given a value had it run by itself up to where it stands |
| `ProgramRun.FetchesAsAlone` | cpu/src/cpu_kernel_server.c:38-68 | and every word a READ fetches at its first operand, or a COPY at its second, is the one its program by itself would find there, byte by byte where that has a value |
| `ProgramRun.PutsAsAlone` | cpu/src/cpu_kernel_server.c:83-92 | every word told to memory goes to the first operand: of a WRITE the bytes of its second, of a COPY the word its program by itself would find at its second |
| `ProgramTrace.AccessesAsAlone` | cpu/src/cpu_kernel_server.c:99-109 | whatever the schedule, the accesses made to memory for a process are those of the instructions it has executed, at their operands, in order and each once |
| `ProgramTrace.TraceIsOwed` | cpu/src/cpu_kernel_server.c:99-109 | from any reachable state on, the accesses made are those of the instructions executed since |
| `ProgramRun.TurnGood` | cpu/src/cpu_kernel_server.c:45-109 | one step of an instruction, or one act of the kernel, keeps that |
| `ProgramRun.PutMatches` | cpu/src/cpu_kernel_server.c:83-92 | what a WRITE or a COPY tells memory is what the instruction does to the bytes of its program, a COPY of unwritten bytes leaving unwritten ones |
| `WholeRun.SystemRunsPrograms` | kernel/src/scheduler.c:298-381 | from power-on, under every schedule the kernel can follow and with the headers it sends, in a harmless configuration, memory holds for every admitted process every byte the program its console sent would have given a value had it run by itself up to where it stands |
| `WholeRun.SystemFetches` | cpu/src/cpu_kernel_server.c:61-86 | and every word the running process fetches, at the first operand of a READ or the second of a COPY, is the one its program by itself would find there |
| `WholeRun.WholeStep` | kernel/src/scheduler.c:135-425 | one act of the kernel or of the running program keeps scheduling, memory, translations and what every program has done |
| `WholeRun.CodeLinked` | kernel/src/scheduler.c:230-246 | every admitted process has its own program under its page table, after every act |
| `WholeRun.AdmitCode` | kernel/src/scheduler.c:233-234 | the table number memory answers an admission with is new, and becomes that of the first of NEW |
| `WholeRun.TurnFits` | kernel/src/scheduler.c:334-352 | what the kernel does to a process, dispatching, suspending or ending it, it does between its instructions |
| `Endings.EndsAndBlocksAreGrounded` | kernel/src/scheduler.c:334-352 | from power-on, whatever the schedule: a process is in EXIT only behind its EXIT, blocked or suspended only behind an I/O and for the time that asks, and has no such time otherwise |
| `Endings.GroundedStep` | kernel/src/cpu_adapter.c:24-49 | one act of the kernel or of the running program keeps that |
| `Progress.ProgramGoesOn` | cpu/src/cpu_kernel_server.c:99-131 | a running program whose operands lie inside its process always has its next step: the next request of its access, its NO_OP, or the answer of its I/O or EXIT |
| `CpuCycle.PreemptionInvisible` | cpu/src/cpu_kernel_server.c:99-169 | over any pattern of interrupts, I/O and redispatches the instructions executed are the program, in order, each once; as many dispatches as instructions are enough |
| `CpuCycle.SameMeaning` | cpu/src/cpu_kernel_server.c:99-169 | so the program does to any state what it does run alone |
| `CpuCycle.BurstIsStretch` | cpu/src/cpu_kernel_server.c:45-131 | a burst executes a non-empty stretch, ends at the first I/O or EXIT or is preempted behind another instruction, and terminates exactly at the end of the program |
| `CpuCycle.InterruptEndsBurst` | cpu/src/cpu_kernel_server.c:112-131 | a burst is preempted behind the first instruction during which an interrupt is there, pending from before or arriving, unless that is the I/O or EXIT it ends with; then the interrupt stays pending, and otherwise none does |
| `CpuCycle.DispatchProgress` | kernel/src/cpu_adapter.c:8-49 | every dispatch leaves less to do, by the instructions executed, keeps process and page table, and takes the time of I/O of the instruction the burst ended with |
| `CpuCycle.Cpu.Execute` | cpu/src/cpu_kernel_server.c:151-169 | the loop with its flag gives the specified answer, program counter and trace |
| `CpuCycle.Cpu.ServeInterrupt` | cpu/src/cpu_kernel_server.c:112-131 | a pending interrupt is answered once and cleared |

The premises of the whole-system statements are in `SystemRun.Allows`: sizes that memory
accepts, timers in order where that matters, accesses inside the process and inside a page and
over before the CPU gives the process back: a read answered, a write sent.

## Left out

- Sockets, streams, handshakes, the `main` functions, configuration files and logging: a request is a call or a step.
- The swap file as a mapped file: it is a map from process to whole pages. A last page shorter than the page size, which a size that is no multiple of it would give, is not modelled; the process then has only its whole pages.
- Words that cross a page boundary and pages beyond the size of the process: the code gives them no stable meaning, so they are excluded by `CanAccess`.
- Values of bytes never written: a reused frame is not cleared for a page without a swap copy, so `Agrees` speaks of written bytes only.
- Interleavings inside three spots of the kernel, which are single steps here: the SUSREADY hand-off, `__atender_bloqueo` together with the start of its timer thread, and a timer's removal and retagging. The memory requests of one kernel step happen with it.
- The schedulers' threads as objects: they are steps of a transition system on values, because what matters is their interleaving. Only the state queues and the block times are also classes.
- Real time: the time a burst took and the time a timer has waited are inputs of a step.
- Doubles are reals: rounding of estimates is not modelled.
- Delays of memory, swap and NO_OP: they change no state.
- Overflow of the TLB clock, of process and table numbers, and of addresses: they are natural numbers.
- `fscanf`: the parser works on tokens. A text that ends without EXIT makes the source loop for ever; the outcome `RanOut` stands for that.
- A truncated operand, of which some but not all bytes are there: the source reads past the end of the buffer, so `Decode` answers `Overrun` and the methods `Codec.DecodeBuffer` and `Codec.UnpackInstr` exclude it.
- `buffer_pack_string` and the text form of instructions: only used for messages.
- Headers the CPU and the memory server do not know, and the destruction of processes and queues.
- Codec.Buffer.Unpack: states only the case of enough bytes; the test for an empty buffer, on which the source ends the process, stands in `Codec.UnpackInstr` before each call.
- CpuClient.WriteMemory: the CPU sends a write and does not wait for an answer; here, on the objects, it is served before the call returns. The delay is modelled in `InFlight` and `LateWrite`; what the source does with a write that finds a frame of nobody (it marks an entry outside the tables) is not.
