/** Programs running over the TLB, request by request.

    An access of the running process is a lookup in the TLB, the two requests of a walk on
    a miss, and the access itself (cpu/src/cpu_mem_client.c).  Between any two of these the
    kernel may ask memory for anything that does not take the running process away.
 */
module CpuMemory {
  import opened Paging
  import opened VirtualMemory
  import opened Addressing
  import opened MemoryProofs
  import opened FlatMemory
  import opened Translation
  import opened RequestRuns
  import T = TlbCache

  /** How far the access in hand has come: none in hand, the TLB has missed, the level-2
      table is known, the physical address is known. */
  datatype Stage =
    | Idle
    | Missed(l: Logical)
    | Tabled(l: Logical, table: TableRef)
    | Located(l: Logical, address: nat)

  /** Memory, TLB, the process whose translations the TLB holds (0 from the moment that
      process is suspended or ends until the next dispatch), and its access in hand. */
  datatype Cpu = Cpu(s: State, t: T.Cache, id: nat, at: Stage)

  datatype Event =
    | Begin(l: Logical)                  // an access begins with the TLB
    | AskTable | AskFrame                // the two requests of a walk
    | Fetch | Put(v: seq<Byte>)          // the access is served (InFlight delays a Put)
    | Dispatch(id: nat)                  // a dispatch that flushes the TLB
    | Ask(r: Request)                    // a request of the kernel

  predicate KernelAsks(r: Request) {
    r.Create? || r.Suspend? || r.Finish?
  }

  /** The process a suspension or an end takes off the CPU's hands. */
  predicate Concerns(r: Request, id: nat) {
    (r.Suspend? || r.Finish?) && r.id == id
  }

  /** What is known of the access in hand. */
  ghost predicate StageOk(m: Cpu)
    requires ConfigOk(m.s.c)
  {
    m.at.Idle? ||
    (&& m.id != 0 && InProcess(m.s, m.id, m.at.l)
     && (m.at.Missed? || m.at.Tabled? ==> Misses(m.t, PageNo(m.s.c, m.at.l.e1, m.at.l.e2)))
     && (m.at.Tabled? ==>
           m.id !in m.s.suspended && m.at.table == TableRef(FindSlot(m.s.slots, m.id, 0), m.at.l.e1))
     && (m.at.Located? ==>
           OwnerAt(m.s, Locate(m.s.c, m.at.address))
             == Owner(m.id, PageNo(m.s.c, m.at.l.e1, m.at.l.e2), m.at.l.off)))
  }

  predicate Misses(t: T.Cache, page: nat) {
    T.Lookup(t, page).1 < 0
  }

  ghost predicate CpuOk(m: Cpu) {
    Inv(m.s) && |m.t.slots| > 0 && (m.id != 0 ==> m.id in m.s.swap && T.Ok(m.t)) && StageOk(m)
  }

  predicate Possible(m: Cpu, e: Event) {
    match e
    case Begin(l) => m.at.Idle? && m.id != 0 && InProcess(m.s, m.id, l)
    case AskTable => m.at.Missed? && (m.id in m.s.suspended ==> HasFree(m.s))
    case AskFrame => m.at.Tabled?
    case Fetch => m.at.Located?
    case Put(v) => m.at.Located? && |v| == WORD
    case Dispatch(id) => m.at.Idle? && id in m.s.swap
    case Ask(r) => KernelAsks(r) && Enabled(m.s, r) && (Concerns(r, m.id) ==> m.at.Idle?)
  }

  ghost predicate RightEvent(m: Cpu, e: Event)
    requires CpuOk(m)
  {
    e.Begin? && m.id != 0 ==> Right(m.s, m.t, m.id, e.l)
  }

  // ---------------------------------------------------------------- one event

  /** The TLB is asked: `tlb_get_marco`. */
  function Looked(m: Cpu, l: Logical): Cpu {
    var (t', base) := T.Lookup(m.t, PageNo(m.s.c, l.e1, l.e2));
    m.(t := t', at := if base >= 0 then Located(l, base + l.off) else Missed(l))
  }

  lemma TabledReady(m: Cpu)
    requires CpuOk(m) && m.at.Tabled?
    ensures Enabled(m.s, GetFrame(m.at.table, m.at.l.e2)) && m.s.slots[m.at.table.slot].id == m.id
  {
    ActiveSlot(m.s, m.id);
    hide Inv, SlotOk, T.Ok, Misses;
  }

  /** The second request of the walk and its registration in the TLB. */
  function Framed(m: Cpu): Cpu
    requires CpuOk(m) && m.at.Tabled?
  {
    TabledReady(m);
    T.OkFirstEmpty(m.t);
    hide Inv, Enabled, T.Ok, T.FirstEmpty, Misses;
    var l := m.at.l;
    var (s', frame) := ServeFrame(m.s, m.at.table, l.e2);
    var base := AddressOf(m.s.c, frame.place);
    m.(s := s', t := T.Register(m.t, PageNo(m.s.c, l.e1, l.e2), base), at := Located(l, base + l.off))
  }

  lemma LocatedReady(m: Cpu)
    requires CpuOk(m) && m.at.Located?
    ensures ConfigOk(m.s.c) && Enabled(m.s, Read(Locate(m.s.c, m.at.address)))
    ensures forall v | |v| == WORD :: Enabled(m.s, Write(Locate(m.s.c, m.at.address), v))
    ensures OwnerAt(m.s, Locate(m.s.c, m.at.address))
            == Owner(m.id, PageNo(m.s.c, m.at.l.e1, m.at.l.e2), m.at.l.off)
  {
    hide T.Ok, Misses, SlotsOk, AllSuspendedOk, LiveOk, IdsDistinct;
  }

  function Step(m: Cpu, e: Event): (Cpu, Reply)
    requires CpuOk(m) && Possible(m, e)
  {
    match e
    case Begin(l) => (Looked(m, l), Ok)
    case AskTable =>
      var (s', reply) := ServeTable(m.s, m.id, m.at.l.e1);
      (m.(s := s', at := Tabled(m.at.l, reply.table)), reply)
    case AskFrame => (Framed(m), Ok)
    case Fetch =>
      LocatedReady(m);
      var (s', reply) := ServeRead(m.s, Locate(m.s.c, m.at.address));
      (m.(s := s', at := Idle), reply)
    case Put(v) =>
      LocatedReady(m);
      var (s', reply) := ServeWrite(m.s, Locate(m.s.c, m.at.address), v);
      (m.(s := s', at := Idle), reply)
    case Dispatch(id) => (m.(t := T.Flushed(m.t), id := id), Ok)
    case Ask(r) =>
      var (s', reply) := Serve(m.s, r);
      (m.(s := s', id := if Concerns(r, m.id) then 0 else m.id), reply)
  }

  /** The request to memory an event is, if it is one. */
  ghost function RequestOf(m: Cpu, e: Event): seq<Request>
    requires CpuOk(m) && Possible(m, e)
  {
    match e
    case AskTable => [Table(m.id, m.at.l.e1)]
    case AskFrame => [GetFrame(m.at.table, m.at.l.e2)]
    case Fetch => [Read(Locate(m.s.c, m.at.address))]
    case Put(v) => [Write(Locate(m.s.c, m.at.address), v)]
    case Ask(r) => [r]
    case _ => []
  }

  /** A step asks memory for what it says, and for nothing else. */
  lemma StepServes(m: Cpu, e: Event)
    requires CpuOk(m) && Possible(m, e)
    ensures RequestOf(m, e) == [] ==> Step(m, e).0.s == m.s
    ensures RequestOf(m, e) != [] ==>
              && RequestOf(m, e) == [RequestOf(m, e)[0]] && Enabled(m.s, RequestOf(m, e)[0])
              && Serve(m.s, RequestOf(m, e)[0]).0 == Step(m, e).0.s
  {
    hide CpuOk, Enabled, Framed, ServeCreate, ServeSuspend, ServeFinish, ServeRead, ServeWrite, ServeTable;
    hide ServeFrame, Locate, T.Lookup, InProcess;
    match e
    case AskTable => TableServes(m);
    case AskFrame => FrameServes(m);
    case Fetch => LocatedReady(m);
    case Put(v) => LocatedReady(m);
    case _ =>
  }

  lemma TableServes(m: Cpu)
    requires CpuOk(m) && Possible(m, AskTable)
    ensures Enabled(m.s, Table(m.id, m.at.l.e1))
  {
    hide Inv, T.Ok, Misses;
  }

  lemma FrameServes(m: Cpu)
    requires CpuOk(m) && m.at.Tabled?
    ensures Enabled(m.s, GetFrame(m.at.table, m.at.l.e2))
    ensures Framed(m).s == ServeFrame(m.s, m.at.table, m.at.l.e2).0
  {
    TabledReady(m);
    hide CpuOk, Enabled, ServeFrame, T.Register, AddressOf, T.FirstEmpty;
  }

  // ---------------------------------------------------------------- what a step keeps

  lemma BeginKeeps(m: Cpu, l: Logical)
    requires CpuOk(m) && Possible(m, Begin(l)) && Right(m.s, m.t, m.id, l)
    ensures CpuOk(Looked(m, l)) && |Looked(m, l).t.slots| == |m.t.slots|
  {
    var page := PageNo(m.s.c, l.e1, l.e2);
    hide Inv, OwnerAt, Locate, InProcess;
    T.MissLeaves(m.t, page);
    T.AccessOk(m.t, page, 0);
    hide T.Ok, T.Lookup, PageNo;
  }

  lemma TableStepKeeps(m: Cpu)
    requires CpuOk(m) && Possible(m, AskTable)
    ensures CpuOk(Step(m, AskTable).0)
  {
    hide Inv, T.Ok, T.Lookup, OwnerAt, SameImages, Enabled;
    TableStep(m.s, m.id, m.at.l);
  }

  /** Where the frame request leads. */
  lemma FrameLeads(s: State, t: TableRef, e2: nat, off: nat)
    requires Inv(s) && Enabled(s, GetFrame(t, e2)) && off < s.c.T
    ensures ConfigOk(s.c) && ServeFrame(s, t, e2).1.At?
    ensures var (s', frame) := ServeFrame(s, t, e2);
            var base := AddressOf(s.c, frame.place);
            var page := PageNo(s.c, t.row, e2);
            && s'.c == s.c && OwnerAt(s', Locate(s.c, base + off)) == Owner(s.slots[t.slot].id, page, off)
            && EntryRight(s', s.slots[t.slot].id, T.Slot(page, base, 0))
  {
    hide Inv, SameImages, PageNo, ServeFrame, Enabled, OwnerAt;
    FrameStep(s, t, e2);
    var (s', frame) := ServeFrame(s, t, e2);
    FrameAddress(s, t, e2, frame.place, off);
    OwnerShift(s', frame.place, off);
    hide Locate, AddressOf;
  }

  lemma FrameAddress(s: State, t: TableRef, e2: nat, p: Place, off: nat)
    requires Inv(s) && Enabled(s, GetFrame(t, e2)) && off < s.c.T
    requires p.off == 0 && p.slot == t.slot && p.frame < s.c.M
    ensures ConfigOk(s.c)
    ensures Locate(s.c, AddressOf(s.c, p)) == p && Locate(s.c, AddressOf(s.c, p) + off) == p.(off := off)
  {
    SlotBelow(s, t, e2);
    hide Inv, Enabled;
    LocateInvertsAddress(s.c, p);
    hide AddressOf, Locate;
    LocateOffset(s.c, AddressOf(s.c, p), off);
  }

  lemma SlotBelow(s: State, t: TableRef, e2: nat)
    requires Inv(s) && Enabled(s, GetFrame(t, e2))
    ensures ConfigOk(s.c) && t.slot < s.c.P
  {
  }

  lemma FrameStepKeeps(m: Cpu)
    requires CpuOk(m) && m.at.Tabled?
    ensures CpuOk(Framed(m)) && Framed(m).s.c == m.s.c && |Framed(m).t.slots| == |m.t.slots|
  {
    hide Inv, Enabled, ServeFrame, Locate, AddressOf, T.Ok, T.Register, T.FirstEmpty, T.Lookup, PageNo, OwnerAt;
    TabledReady(m);
    FrameLeads(m.s, m.at.table, m.at.l.e2, m.at.l.off);
    FrameStep(m.s, m.at.table, m.at.l.e2);
    FrameServes(m);
    FrameRegisters(m);
  }

  lemma FrameRegisters(m: Cpu)
    requires CpuOk(m) && m.at.Tabled?
    ensures ServeFrame(m.s, m.at.table, m.at.l.e2).1.At?
    ensures var base := AddressOf(m.s.c, ServeFrame(m.s, m.at.table, m.at.l.e2).1.place);
            && T.FirstEmpty(m.t.slots, 0) == T.Used(m.t) && |m.t.slots| > 0
            && Framed(m).t == T.Register(m.t, PageNo(m.s.c, m.at.l.e1, m.at.l.e2), base)
            && T.Ok(Framed(m).t) && |Framed(m).t.slots| == |m.t.slots|
  {
    hide Inv, Enabled, ServeFrame, AddressOf, PageNo;
    TabledReady(m);
    FrameLeads(m.s, m.at.table, m.at.l.e2, 0);
    T.AccessOk(m.t, PageNo(m.s.c, m.at.l.e1, m.at.l.e2),
               AddressOf(m.s.c, ServeFrame(m.s, m.at.table, m.at.l.e2).1.place));
    hide T.Ok, T.FirstEmpty, T.Lookup;
  }

  lemma OwnerShift(s: State, p: Place, off: nat)
    requires OwnerAt(s, p) != Nobody
    ensures OwnerAt(s, p.(off := off)) == OwnerAt(s, p).(off := off)
  {
  }

  lemma ServedKeeps(m: Cpu, e: Event)
    requires CpuOk(m) && (e.Fetch? || e.Put?) && Possible(m, e)
    ensures CpuOk(Step(m, e).0) && Step(m, e).0.s.c == m.s.c
  {
    LocatedReady(m);
    var p := Locate(m.s.c, m.at.address);
    hide T.Ok, Misses, OwnerAt, Locate, T.Lookup, ImageOf, SameImages, Wrote, Enabled;
    StepServes(m, e);
    ServeInv(m.s, RequestOf(m, e)[0]);
    ServeConfig(m.s, RequestOf(m, e)[0]);
    if e.Fetch? {
      ReadStep(m.s, p);
    } else {
      var before := WriteStep(m.s, p, e.v);
    }
    hide Inv;
  }

  /** Whatever the kernel asks, a process it does not concern keeps its slot, its file and
      its row of the suspended table. */
  lemma AskUntouched(s: State, r: Request, id: nat)
    requires Inv(s) && KernelAsks(r) && Enabled(s, r) && id in s.swap && !Concerns(r, id)
    ensures Untouched(s, Serve(s, r).0, id)
  {
    hide Untouched, Serve, Enabled;
    IdNotZero(s);
    hide Inv;
    ServeUntouched(s, r, id);
  }

  /** A request of the kernel about others leaves the access in hand where it was. */
  lemma AskKeeps(m: Cpu, r: Request)
    requires CpuOk(m) && Possible(m, Ask(r))
    ensures CpuOk(Step(m, Ask(r)).0) && Step(m, Ask(r)).0.s.c == m.s.c
  {
    hide T.Ok, Misses, Serve, T.Lookup, Untouched, Inv, Enabled, InProcess;
    ServeInv(m.s, r);
    ServeConfig(m.s, r);
    if m.id != 0 && !Concerns(r, m.id) {
      AskUntouched(m.s, r, m.id);
      StageStays(m, Serve(m.s, r).0);
    }
  }

  lemma StageStays(m: Cpu, s': State)
    requires CpuOk(m) && m.id != 0 && Inv(s') && s'.c == m.s.c && Untouched(m.s, s', m.id)
    ensures CpuOk(m.(s := s'))
  {
    hide T.Ok, Misses, OwnerAt, T.Lookup, Locate;
    if m.at.Located? {
      UntouchedOwner(m.s, s', m.id, Locate(m.s.c, m.at.address));
    }
    hide Inv;
  }

  lemma StepKeeps(m: Cpu, e: Event)
    requires CpuOk(m) && Possible(m, e) && RightEvent(m, e)
    ensures var m' := Step(m, e).0;
            CpuOk(m') && m'.s.c == m.s.c && |m'.t.slots| == |m.t.slots|
  {
    hide CpuOk, Right, T.Lookup, Enabled, InProcess, Looked, Framed, ServeTable, Serve, ServeRead, ServeWrite, Locate;
    match e
    case Begin(l) => IdNotNone(m, l); BeginKeeps(m, l);
    case AskTable => TableStepKeeps(m); TableConfig(m);
    case AskFrame => FrameStepKeeps(m);
    case Fetch => ServedKeeps(m, e);
    case Put(v) => ServedKeeps(m, e);
    case Dispatch(id) => FlushKeeps(m, id);
    case Ask(r) => AskKeeps(m, r);
  }

  lemma IdNotNone(m: Cpu, l: Logical)
    requires CpuOk(m) && Possible(m, Begin(l)) && RightEvent(m, Begin(l))
    ensures ConfigOk(m.s.c) && Right(m.s, m.t, m.id, l) && Looked(m, l).s == m.s
  {
    hide Right, T.Lookup;
  }

  lemma TableConfig(m: Cpu)
    requires CpuOk(m) && Possible(m, AskTable)
    ensures Step(m, AskTable).0.s.c == m.s.c
  {
    hide CpuOk;
  }

  lemma FlushKeeps(m: Cpu, id: nat)
    requires CpuOk(m) && Possible(m, Dispatch(id))
    ensures CpuOk(Step(m, Dispatch(id)).0)
  {
    hide Inv;
    T.FlushedHolds(m.t);
  }

  // ---------------------------------------------------------------- coherence over a step

  ghost predicate Trusted(m: Cpu) {
    CpuOk(m) && (m.id != 0 ==> Coherent(m.s, m.id, m.t))
  }

  lemma SameOwnersCoherent(s: State, s': State, id: nat, t: T.Cache)
    requires s.c.T > 0 && s.c.M > 0 && s'.c == s.c && SameOwners(s, s') && Coherent(s, id, t)
    ensures Coherent(s', id, t)
  {
    hide OwnerAt, Locate;
    forall i | 0 <= i < T.Used(t) ensures EntryRight(s', id, t.slots[i]) {
      assert EntryRight(s, id, t.slots[i]);
    }
  }

  /** A process with a right translation is not suspended, so a table request changes
      nothing; without one there is nothing to keep. */
  lemma TableCoherent(m: Cpu)
    requires Trusted(m) && Possible(m, AskTable)
    ensures Coherent(Step(m, AskTable).0.s, m.id, m.t)
  {
    hide Wake, Locate, OwnerAt, T.Lookup;
    if m.id in m.s.suspended && T.Used(m.t) > 0 {
      assert EntryRight(m.s, m.id, m.t.slots[0]);
      OwnedPresent(m.s, m.id, Locate(m.s.c, m.t.slots[0].frame));
    }
    hide Inv, EntryRight;
  }

  lemma FrameCoherent(m: Cpu)
    requires Trusted(m) && Harmless(m.s.c, |m.t.slots|) && m.at.Tabled?
    ensures ConfigOk(m.s.c) && Framed(m).s.c == m.s.c && Coherent(Framed(m).s, m.id, Framed(m).t)
  {
    hide Inv, Enabled, ServeFrame, Locate, AddressOf, T.Register, T.FirstEmpty, T.Lookup, PageNo, OwnerAt, T.Ok;
    TabledReady(m);
    var page := PageNo(m.s.c, m.at.l.e1, m.at.l.e2);
    FrameLeads(m.s, m.at.table, m.at.l.e2, 0);
    FrameServes(m);
    FrameRegisters(m);
    FrameStepKeeps(m);
    var s' := Framed(m).s;
    T.MissLeaves(m.t, page);
    if |m.t.slots| != 1 {
      forall i | 0 <= i < T.Used(m.t) ensures EntryRight(s', m.id, m.t.slots[i]) {
        assert EntryRight(m.s, m.id, m.t.slots[i]);
        EntryOutlives(m, i);
      }
    }
    RegisterCoherent(s', m.id, m.t, page, AddressOf(m.s.c, ServeFrame(m.s, m.at.table, m.at.l.e2).1.place));
  }

  /** With a frame for every page the request takes no frame away. */
  lemma EntryOutlives(m: Cpu, i: nat)
    requires CpuOk(m) && m.at.Tabled? && m.s.c.M >= m.s.c.K && i < |m.t.slots|
    requires EntryRight(m.s, m.id, m.t.slots[i])
    ensures EntryRight(Framed(m).s, m.id, m.t.slots[i]) && Framed(m).s.c == m.s.c
  {
    hide Enabled, ServeFrame, Locate, AddressOf, T.Register, T.FirstEmpty, T.Lookup, T.Ok, PageNo;
    TabledReady(m);
    FrameServes(m);
    FrameStepKeeps(m);
    var p := Locate(m.s.c, m.t.slots[i].frame);
    OwnedPresent(m.s, m.id, p);
    FrameKeepsOwners(m.s, m.at.table, m.at.l.e2, p);
    hide Inv, OwnerAt;
  }

  lemma ServedCoherent(m: Cpu, e: Event)
    requires Trusted(m) && (e.Fetch? || e.Put?) && Possible(m, e)
    ensures ConfigOk(m.s.c) && Step(m, e).0.s.c == m.s.c && Coherent(Step(m, e).0.s, m.id, m.t)
  {
    hide T.Ok, Misses, OwnerAt, Locate, T.Lookup, Enabled, SameOwners, Coherent, ServeRead, ServeWrite, Inv;
    LocatedReady(m);
    ServedKeeps(m, e);
    AccessOwners(m.s, Locate(m.s.c, m.at.address), if e.Put? then e.v else [0, 0, 0, 0]);
    SameOwnersCoherent(m.s, Step(m, e).0.s, m.id, m.t);
  }

  lemma AskCoherent(m: Cpu, r: Request)
    requires Trusted(m) && Possible(m, Ask(r)) && m.id != 0 && !Concerns(r, m.id)
    ensures ConfigOk(m.s.c) && Step(m, Ask(r)).0.s.c == m.s.c && Coherent(Step(m, Ask(r)).0.s, m.id, m.t)
  {
    hide Coherent, Untouched, Enabled, Serve;
    assert ConfigOk(m.s.c);
    AskUntouched(m.s, r, m.id);
    ServeConfig(m.s, r);
    hide Inv;
    UntouchedCoherent(m.s, Serve(m.s, r).0, m.id, m.t);
  }

  lemma BeginCoherent(m: Cpu, l: Logical)
    requires Trusted(m) && Possible(m, Begin(l))
    ensures ConfigOk(m.s.c) && Right(m.s, m.t, m.id, l) && Coherent(m.s, m.id, Looked(m, l).t)
  {
    hide Coherent, Right, T.Lookup;
    assert ConfigOk(m.s.c);
    hide Inv;
    CoherentRight(m.s, m.id, m.t, l);
    LookupCoherent(m.s, m.id, m.t, PageNo(m.s.c, l.e1, l.e2));
  }

  /** In a harmless configuration every lookup is right, and stays so. */
  lemma StepTrusted(m: Cpu, e: Event)
    requires Trusted(m) && Harmless(m.s.c, |m.t.slots|) && Possible(m, e)
    ensures RightEvent(m, e) && Trusted(Step(m, e).0)
  {
    hide CpuOk, Right, Enabled, InProcess, Looked, Framed, ServeTable, Serve, ServeRead, ServeWrite, Locate;
    hide Coherent;
    if e.Begin? {
      BeginCoherent(m, e.l);
    }
    StepKeeps(m, e);
    ConfigFine(m);
    match e
    case Begin(l) => LookedSame(m, l);
    case AskTable => TableCoherent(m);
    case AskFrame => FrameCoherent(m); FramedSame(m);
    case Fetch => ServedCoherent(m, e);
    case Put(v) => ServedCoherent(m, e);
    case Dispatch(id) => FlushCoherent(m.s, id, m.t);
    case Ask(r) => if m.id != 0 && !Concerns(r, m.id) { AskCoherent(m, r); }
  }

  lemma ConfigFine(m: Cpu)
    requires CpuOk(m)
    ensures ConfigOk(m.s.c) && |m.t.slots| > 0 && (!m.at.Idle? ==> m.id != 0)
  {
  }

  lemma LookedSame(m: Cpu, l: Logical)
    ensures Looked(m, l).s == m.s && Looked(m, l).id == m.id
  {
  }

  lemma FramedSame(m: Cpu)
    requires CpuOk(m) && m.at.Tabled?
    ensures Framed(m).id == m.id
  {
  }

  lemma FlushCoherent(s: State, id: nat, t: T.Cache)
    requires s.c.T > 0 && s.c.M > 0 && |t.slots| > 0
    ensures Coherent(s, id, T.Flushed(t))
  {
    T.FlushedHolds(t);
  }

  // ---------------------------------------------------------------- the law, one event

  /** What an event does to the flat arrays: only a write and an end do anything. */
  function FlatStep(m: Cpu, flat: Flat, e: Event): Flat {
    match e
    case Put(v) =>
      if m.at.Located? && |v| == WORD
      then Written(flat, m.id, PageNo(m.s.c, m.at.l.e1, m.at.l.e2), m.at.l.off, v) else flat
    case Ask(Finish(id)) => Without(flat, id)
    case _ => flat
  }

  /** Memory keeps representing the flat arrays, and what is fetched is what they hold. */
  lemma StepIsFlat(m: Cpu, flat: Flat, e: Event)
    requires CpuOk(m) && Possible(m, e) && Represents(m.s, flat)
    ensures Represents(Step(m, e).0.s, FlatStep(m, flat, e))
    ensures e.Fetch? ==>
              var reply := Step(m, e).1;
              && reply.Value?
              && Agrees(flat, m.id, PageNo(m.s.c, m.at.l.e1, m.at.l.e2), m.at.l.off, reply.v)
  {
    hide CpuOk, Represents, Agrees, Enabled, Framed, Looked, InProcess, Locate, OwnerAt, Written, Without, PageNo;
    hide ServeCreate, ServeTable, ServeFrame, ServeRead, ServeWrite, ServeSuspend, ServeFinish;
    StepServes(m, e);
    InvOf(m);
    if m.at.Located? {
      LocatedReady(m);
    }
    if RequestOf(m, e) != [] {
      ServeStep(m.s, flat, RequestOf(m, e)[0]);
    }
  }

  lemma InvOf(m: Cpu)
    requires CpuOk(m)
    ensures Inv(m.s) && ConfigOk(m.s.c)
  {
  }

  // ---------------------------------------------------------------- the tables

  /** What the running process does. */
  predicate Accesses(u: Event) {
    u.Begin? || u.AskTable? || u.AskFrame? || u.Fetch? || u.Put?
  }

  lemma FrameTables(s: State, t: TableRef, e2: nat)
    requires Inv(s) && Enabled(s, GetFrame(t, e2))
    ensures var s' := ServeFrame(s, t, e2).0;
            && s'.nextId == s.nextId && s'.suspended == s.suspended && s'.swap.Keys == s.swap.Keys && s'.c == s.c
  {
    FrameStep(s, t, e2);
    FrameDefined(s, t, e2);
    hide Inv, Readable, SameImages;
  }

  lemma AccessTables(s: State, p: Place, v: seq<Byte>)
    requires Inv(s) && Enabled(s, Read(p)) && Enabled(s, Write(p, v))
    ensures var s1, s2 := ServeRead(s, p).0, ServeWrite(s, p, v).0;
            && s1.suspended == s2.suspended == s.suspended && s1.nextId == s2.nextId == s.nextId
            && s1.swap.Keys == s2.swap.Keys == s.swap.Keys && s1.c == s2.c == s.c
  {
    hide Inv;
  }

  /** What a step of an access does to the tables: a table request wakes the process. */
  lemma UseTables(m: Cpu, u: Event)
    requires CpuOk(m) && Possible(m, u) && Accesses(u)
    ensures var m' := Step(m, u).0;
            && m'.s.swap.Keys == m.s.swap.Keys && m'.s.nextId == m.s.nextId && m'.s.c == m.s.c && m'.id == m.id
            && m'.s.suspended.Keys == if u.AskTable? then m.s.suspended.Keys - {m.id} else m.s.suspended.Keys
  {
    hide CpuOk, T.Lookup, Framed, ServeTable, ServeRead, ServeWrite, Locate;
    match u
    case Begin(l) => LookedSame(m, l);
    case AskTable => TableTables(m);
    case AskFrame => FrameMoves(m);
    case Fetch => ServedTables(m, u);
    case Put(v) => ServedTables(m, u);
    case _ =>
  }

  lemma FrameMoves(m: Cpu)
    requires CpuOk(m) && m.at.Tabled?
    ensures Framed(m).id == m.id
    ensures var s, s' := m.s, Framed(m).s;
            && s'.nextId == s.nextId && s'.suspended == s.suspended && s'.swap.Keys == s.swap.Keys && s'.c == s.c
  {
    hide CpuOk, Framed, ServeFrame, Enabled;
    InvOf(m);
    FrameServes(m);
    FramedSame(m);
    FrameTables(m.s, m.at.table, m.at.l.e2);
  }

  lemma ServedTables(m: Cpu, u: Event)
    requires CpuOk(m) && Possible(m, u) && (u.Fetch? || u.Put?)
    ensures var m' := Step(m, u).0;
            && m'.s.swap.Keys == m.s.swap.Keys && m'.s.nextId == m.s.nextId && m'.s.c == m.s.c && m'.id == m.id
            && m'.s.suspended == m.s.suspended
  {
    hide CpuOk, ServeRead, ServeWrite, Locate, Enabled, Inv;
    InvOf(m);
    LocatedReady(m);
    AccessTables(m.s, Locate(m.s.c, m.at.address), if u.Put? then u.v else [0, 0, 0, 0]);
  }

  lemma TableTables(m: Cpu)
    requires CpuOk(m) && Possible(m, AskTable)
    ensures var m' := Step(m, AskTable).0;
            && m'.s.swap == m.s.swap && m'.s.nextId == m.s.nextId && m'.s.c == m.s.c && m'.id == m.id
            && m'.s.suspended == m.s.suspended - {m.id}
  {
    hide Inv, Woken, T.Ok, Misses;
    assert m.id !in m.s.suspended ==> m.s.suspended - {m.id} == m.s.suspended;
  }

  /** What the kernel's requests do to the picture. */
  lemma KernelTables(s: State, r: Request)
    requires Inv(s) && Enabled(s, r) && KernelAsks(r)
    requires r.Create? ==> r.size <= s.c.K * s.c.T && HasFree(s)
    ensures var s' := Serve(s, r).0;
            && (r.Create? ==> s'.swap.Keys == s.swap.Keys + {s.nextId} && s'.suspended == s.suspended
                              && s'.nextId == s.nextId + 1 && s.nextId !in s.swap)
            && (r.Suspend? ==> s'.swap.Keys == s.swap.Keys && s'.nextId == s.nextId
                               && s'.suspended.Keys == s.suspended.Keys + {r.id})
            && (r.Finish? ==> s'.swap.Keys == s.swap.Keys - {r.id} && s'.nextId == s.nextId
                              && s'.suspended.Keys == s.suspended.Keys - {r.id})
  {
    match r
    case Create(size) => AdmitTables(s, size);
    case Suspend(id) => SuspendTables(s, id);
    case Finish(id) => FinishTables(s, id);
    case _ =>
  }

  lemma AdmitTables(s: State, size: nat)
    requires Inv(s) && size <= s.c.K * s.c.T && HasFree(s)
    ensures var s' := ServeCreate(s, size).0;
            && s'.swap.Keys == s.swap.Keys + {s.nextId} && s'.suspended == s.suspended
            && s'.nextId == s.nextId + 1 && s.nextId !in s.swap
  {
    IdNotZero(s);
    hide Inv, SlotsOk;
  }

  lemma SuspendTables(s: State, id: nat)
    requires Inv(s) && id in s.swap
    ensures var s' := ServeSuspend(s, id).0;
            && s'.swap.Keys == s.swap.Keys && s'.nextId == s.nextId
            && s'.suspended.Keys == s.suspended.Keys + {id}
  {
    hide FlushedFile, KnownPages, Emptied, SlotOk;
    if id !in s.suspended {
      ActiveSlot(s, id);
    }
  }

  lemma FinishTables(s: State, id: nat)
    requires Inv(s) && id in s.swap
    ensures var s' := ServeFinish(s, id).0;
            && s'.swap.Keys == s.swap.Keys - {id} && s'.nextId == s.nextId
            && s'.suspended.Keys == s.suspended.Keys - {id}
  {
    hide Dropped, SlotOk;
    if id !in s.suspended {
      ActiveSlot(s, id);
      assert s.suspended.Keys - {id} == s.suspended.Keys;
    }
  }

  // ---------------------------------------------------------------- whole runs

  /** Power-on: nothing in memory, the entries of the TLB zeroed, nobody dispatched yet
      (`pidProcesoEnExec` is -1, so the first dispatch flushes). */
  function Start(c: Config, entries: nat, policy: T.Policy): (m: Cpu)
    ensures ConfigOk(c) && entries > 0 ==> Trusted(m)
    ensures |m.t.slots| == entries && m.s == Init(c) && m.s.c == c
  {
    StartTrusted(c, entries, policy);
    Cpu(Init(c), T.Created(entries, policy), 0, Idle)
  }

  lemma StartTrusted(c: Config, entries: nat, policy: T.Policy)
    ensures ConfigOk(c) && entries > 0 ==> Trusted(Cpu(Init(c), T.Created(entries, policy), 0, Idle))
  {
    if ConfigOk(c) {
      InitInv(c);
    }
  }

  /** No lookup of the run is led astray, for as long as its events are possible. */
  ghost predicate AllRight(m: Cpu, events: seq<Event>)
    requires CpuOk(m)
    decreases |events|
  {
    events == [] || !Possible(m, events[0])
    || (RightEvent(m, events[0]) && AllRight(Next(m, events[0]), events[1..]))
  }

  ghost function Next(m: Cpu, e: Event): (m': Cpu)
    requires CpuOk(m) && Possible(m, e) && RightEvent(m, e)
    ensures CpuOk(m') && m'.s.c == m.s.c && |m'.t.slots| == |m.t.slots| && m' == Step(m, e).0
  {
    StepKeeps(m, e);
    hide *;
    Step(m, e).0
  }

  /** Every event of the run is possible in its turn, and no lookup on the way is led astray. */
  ghost predicate Goes(m: Cpu, events: seq<Event>)
    requires CpuOk(m)
    decreases |events|
  {
    events == []
    || (Possible(m, events[0]) && RightEvent(m, events[0]) && Goes(Next(m, events[0]), events[1..]))
  }

  ghost function CpuRun(m: Cpu, events: seq<Event>): (m': Cpu)
    requires CpuOk(m) && Goes(m, events)
    ensures CpuOk(m') && m'.s.c == m.s.c && |m'.t.slots| == |m.t.slots|
    decreases |events|
  {
    hide CpuOk, Step;
    if events == [] then m else CpuRun(Next(m, events[0]), events[1..])
  }

  /** The flat arrays after a run. */
  ghost function FlatAfter(m: Cpu, flat: Flat, events: seq<Event>): Flat
    requires CpuOk(m) && Goes(m, events)
    decreases |events|
  {
    hide CpuOk, Step;
    if events == [] then flat else FlatAfter(Next(m, events[0]), FlatStep(m, flat, events[0]), events[1..])
  }

  /** The requests a run sends to memory. */
  ghost function Requests(m: Cpu, events: seq<Event>): seq<Request>
    requires CpuOk(m) && Goes(m, events)
    decreases |events|
  {
    hide Step;
    if events == [] then [] else RequestOf(m, events[0]) + Requests(Next(m, events[0]), events[1..])
  }

  /** The run of the CPU is a run of requests, and memory is where they leave it. */
  lemma {:induction false} RunIsRequestRun(m: Cpu, events: seq<Event>)
    requires CpuOk(m) && Goes(m, events)
    ensures Legal(m.s, Requests(m, events)) && Run(m.s, Requests(m, events)) == CpuRun(m, events).s
    decreases |events|
  {
    hide CpuOk, Enabled, RightEvent, Possible, Step, RequestOf, Serve;
    if events != [] {
      var e, rest := events[0], events[1..];
      InvOf(m);
      StepServes(m, e);
      var m' := Next(m, e);
      RunIsRequestRun(m', rest);
      var rs := RequestOf(m, e);
      if rs == [] {
        assert Requests(m, events) == Requests(m', rest);
      } else {
        assert Requests(m, events)[1..] == Requests(m', rest);
        assert Requests(m, events)[0] == rs[0];
      }
    }
  }

  lemma {:induction false} RunIsFlat(m: Cpu, flat: Flat, events: seq<Event>)
    requires CpuOk(m) && Goes(m, events) && Represents(m.s, flat)
    ensures Represents(CpuRun(m, events).s, FlatAfter(m, flat, events))
    decreases |events|
  {
    hide CpuOk, Enabled, RightEvent, Possible, Step, FlatStep, Represents;
    if events != [] {
      StepIsFlat(m, flat, events[0]);
      RunIsFlat(Next(m, events[0]), FlatStep(m, flat, events[0]), events[1..]);
    }
  }

  /** In a harmless configuration no lookup is ever led astray. */
  lemma {:induction false} HarmlessAllRight(m: Cpu, events: seq<Event>)
    requires Trusted(m) && Harmless(m.s.c, |m.t.slots|)
    ensures AllRight(m, events)
    decreases |events|
  {
    hide CpuOk, Possible, RightEvent, Step, Coherent;
    if events != [] && Possible(m, events[0]) {
      StepTrusted(m, events[0]);
      HarmlessAllRight(Next(m, events[0]), events[1..]);
    }
  }

  /** What is fetched at the end of such a run is what the flat arrays hold. */
  lemma FetchIsFlat(m: Cpu, flat: Flat, events: seq<Event>)
    requires CpuOk(m) && Goes(m, events) && Represents(m.s, flat) && Possible(CpuRun(m, events), Fetch)
    ensures var m' := CpuRun(m, events);
            var reply := Step(m', Fetch).1;
            var l := m'.at.l;
            reply.Value? && Agrees(FlatAfter(m, flat, events), m'.id, PageNo(m.s.c, l.e1, l.e2), l.off, reply.v)
  {
    hide CpuOk, Possible, Step, FlatAfter, Agrees, Represents;
    RunIsFlat(m, flat, events);
    StepIsFlat(CpuRun(m, events), FlatAfter(m, flat, events), Fetch);
  }

  // ---------------------------------------------------------------- harmless configurations

  /** Translations are right and the configuration is harmless: no possible event leads a
      lookup astray. */
  ghost predicate Safe(m: Cpu) {
    Trusted(m) && Harmless(m.s.c, |m.t.slots|)
  }

  ghost function Follow(m: Cpu, e: Event): (m': Cpu)
    requires Safe(m) && Possible(m, e)
    ensures Safe(m') && RightEvent(m, e) && m' == Step(m, e).0
    ensures m'.s.c == m.s.c && |m'.t.slots| == |m.t.slots|
  {
    StepTrusted(m, e);
    StepKeeps(m, e);
    hide *;
    Step(m, e).0
  }

  /** Every event of the run is possible when it comes; nothing is asked of its lookups. */
  ghost predicate Happens(m: Cpu, events: seq<Event>)
    requires Safe(m)
    decreases |events|
  {
    hide Trusted, Step;
    events == [] || (Possible(m, events[0]) && Happens(Follow(m, events[0]), events[1..]))
  }

  /** Where such a run ends: it goes right all the way. */
  ghost function Reached(m: Cpu, events: seq<Event>): (m': Cpu)
    requires Safe(m) && Happens(m, events)
    ensures Goes(m, events) && m' == CpuRun(m, events) && Safe(m')
    ensures m'.s.c == m.s.c && |m'.t.slots| == |m.t.slots|
    decreases |events|
  {
    SafeOk(m);
    hide CpuOk, Coherent, Possible, RightEvent, Step;
    if events == [] then m else Reached(Follow(m, events[0]), events[1..])
  }

  lemma SafeOk(m: Cpu)
    requires Safe(m)
    ensures CpuOk(m)
  {
  }

  /** A program that loads and stores through the TLB reads what the flat array of its
      process holds, whatever the kernel asks of memory meanwhile, between any two requests. */
  lemma TlbIsTransparent(c: Config, entries: nat, policy: T.Policy, events: seq<Event>)
    requires ConfigOk(c) && entries > 0 && Harmless(c, entries)
    requires Happens(Start(c, entries, policy), events)
    requires Possible(Reached(Start(c, entries, policy), events), Fetch)
    ensures AllRight(Start(c, entries, policy), events) && Goes(Start(c, entries, policy), events)
    ensures var m0 := Start(c, entries, policy);
            var m := Reached(m0, events);
            var reply := Step(m, Fetch).1;
            && reply.Value?
            && Agrees(FlatAfter(m0, map[], events), m.id, PageNo(c, m.at.l.e1, m.at.l.e2), m.at.l.off, reply.v)
  {
    hide CpuOk, Possible, RightEvent, Step, Coherent, FlatAfter, Agrees, Init, Goes, AllRight, Happens;
    var m0 := Start(c, entries, policy);
    HarmlessAllRight(m0, events);
    assert Represents(m0.s, map[]);
    hide Represents;
    assert Reached(m0, events) == CpuRun(m0, events) && Goes(m0, events);
    FetchIsFlat(m0, map[], events);
  }

  // ---------------------------------------------------------------- one access on its own

  /** An access with nothing in between, up to the physical address. */
  ghost function Obtain(m: Cpu, l: Logical): (m': Cpu)
    requires CpuOk(m) && Possible(m, Begin(l)) && RightEvent(m, Begin(l)) && CanAccess(m.s, m.id, l)
    ensures CpuOk(m') && m'.at.Located? && m'.at.l == l && m'.id == m.id
    ensures m'.s.c == m.s.c && |m'.t.slots| == |m.t.slots|
  {
    ObtainGoes(m, l);
    hide CpuOk, Step, CanAccess, RightEvent;
    var m1 := Next(m, Begin(l));
    if m1.at.Located? then m1 else Next(Next(m1, AskTable), AskFrame)
  }

  lemma ObtainGoes(m: Cpu, l: Logical)
    requires CpuOk(m) && Possible(m, Begin(l)) && RightEvent(m, Begin(l)) && CanAccess(m.s, m.id, l)
    ensures var m1 := Next(m, Begin(l));
            && m1 == Looked(m, l) && m1.id == m.id
            && (m1.at == Missed(l) || (m1.at.Located? && m1.at.l == l))
            && (m1.at.Missed? ==>
                  && Possible(m1, AskTable) && RightEvent(m1, AskTable)
                  && var m2 := Next(m1, AskTable);
                     && m2 == Step(m1, AskTable).0 && m2.at.Tabled?
                     && Possible(m2, AskFrame) && RightEvent(m2, AskFrame)
                     && Next(m2, AskFrame) == Framed(m2)
                     && Next(m2, AskFrame).at.Located? && Next(m2, AskFrame).at.l == l)
  {
    hide CpuOk, Right, T.Lookup, InProcess, Enabled, Framed;
    var m1 := Next(m, Begin(l));
    if m1.at.Missed? {
      var m2 := Next(m1, AskTable);
      FramedStage(m2);
    }
  }

  lemma FramedStage(m: Cpu)
    requires CpuOk(m) && m.at.Tabled?
    ensures Framed(m).at.Located? && Framed(m).at.l == m.at.l && Framed(m).id == m.id
  {
    hide CpuOk;
  }

  /** The same as the function of one translation. */
  lemma ObtainIsTranslate(m: Cpu, l: Logical)
    requires CpuOk(m) && Possible(m, Begin(l)) && RightEvent(m, Begin(l)) && CanAccess(m.s, m.id, l)
    ensures T.Ok(m.t)
    ensures var (s', address, t') := Translate(m.s, m.t, m.id, l);
            Obtain(m, l) == Cpu(s', t', m.id, Located(l, address))
  {
    hide Inv, T.Ok, Right, T.Lookup, InProcess, Enabled, Walk, T.Register, T.FirstEmpty, StageOk, Framed, PageNo;
    ObtainGoes(m, l);
    T.MissLeaves(m.t, PageNo(m.s.c, l.e1, l.e2));
    if Next(m, Begin(l)).at.Missed? {
      MissIsTranslate(m, l);
    }
  }

  lemma MissIsTranslate(m: Cpu, l: Logical)
    requires CpuOk(m) && Possible(m, Begin(l)) && CanAccess(m.s, m.id, l) && Looked(m, l).at == Missed(l)
    requires CpuOk(Looked(m, l))
    ensures Possible(Looked(m, l), AskTable)
    ensures var m2 := Step(Looked(m, l), AskTable).0;
            && CpuOk(m2) && m2.at.Tabled?
            && var (s', address, t') := Translate(m.s, m.t, m.id, l);
               Framed(m2) == Cpu(s', t', m.id, Located(l, address))
  {
    hide Inv, T.Ok, T.Lookup, InProcess, Enabled, SameImages, OwnerAt, T.Register, AddressOf, Locate, PageNo;
    hide T.FirstEmpty, ServeFrame, StageOk;
    var page := PageNo(m.s.c, l.e1, l.e2);
    T.MissLeaves(m.t, page);
    WalkFinds(m.s, m.id, l);
    TableStep(m.s, m.id, l);
    var m1 := Looked(m, l);
    assert Possible(m1, AskTable);
    TableStepKeeps(m1);
    var m2 := Step(m1, AskTable).0;
    FrameServes(m2);
    FrameRegisters(m2);
    FrameStep(m2.s, m2.at.table, l.e2);
  }

  /** `cpu_leer_en_memoria` with nothing in between. */
  ghost function DoLoad(m: Cpu, l: Logical): (r: (Cpu, Reply))
    requires CpuOk(m) && m.at.Idle? && m.id != 0 && CanAccess(m.s, m.id, l) && Right(m.s, m.t, m.id, l)
    ensures CpuOk(r.0) && r.0.at.Idle? && r.0.id == m.id && r.0.s.c == m.s.c && |r.0.t.slots| == |m.t.slots|
  {
    hide CpuOk, CanAccess, Right, Obtain, Step, Possible;
    BeginGoes(m, l);
    var found := Obtain(m, l);
    AccessGoes(found, Fetch);
    Step(found, Fetch)
  }

  /** `cpu_escribir_en_memoria` with nothing in between. */
  ghost function DoStore(m: Cpu, l: Logical, v: seq<Byte>): (r: (Cpu, Reply))
    requires CpuOk(m) && m.at.Idle? && m.id != 0 && CanAccess(m.s, m.id, l) && Right(m.s, m.t, m.id, l)
    requires |v| == WORD
    ensures CpuOk(r.0) && r.0.at.Idle? && r.0.id == m.id && r.0.s.c == m.s.c && |r.0.t.slots| == |m.t.slots|
  {
    hide CpuOk, CanAccess, Right, Obtain, Step, Possible;
    BeginGoes(m, l);
    var found := Obtain(m, l);
    AccessGoes(found, Put(v));
    Step(found, Put(v))
  }

  lemma BeginGoes(m: Cpu, l: Logical)
    requires m.at.Idle? && m.id != 0 && CanAccess(m.s, m.id, l)
    ensures Possible(m, Begin(l))
  {
  }

  lemma AccessGoes(m: Cpu, e: Event)
    requires CpuOk(m) && m.at.Located? && (e.Fetch? || (e.Put? && |e.v| == WORD))
    ensures Possible(m, e) && RightEvent(m, e)
    ensures var m' := Step(m, e).0;
            CpuOk(m') && m'.at.Idle? && m'.id == m.id && m'.s.c == m.s.c && |m'.t.slots| == |m.t.slots|
  {
    hide CpuOk, ServeRead, ServeWrite, Locate;
    StepKeeps(m, e);
  }
}
