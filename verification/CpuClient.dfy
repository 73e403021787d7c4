/** The CPU side of memory accesses (cpu/src/cpu_mem_client.c) with the TLB and the memory
    server as the objects they are.  Requests over the socket are calls.
 */
module CpuClient {
  import opened Paging
  import opened VirtualMemory
  import opened Addressing
  import opened MemoryProofs
  import opened FlatMemory
  import opened Translation
  import opened CpuMemory
  import opened MemoryServer
  import T = TlbCache

  /** The CPU's view of the whole: memory, TLB, running process. */
  ghost function CpuOf(tlb: T.Tlb, mem: Memory, id: nat): Cpu
    reads tlb, tlb.entries, mem
  {
    Cpu(mem.st, tlb.View(), id, Idle)
  }

  /** The two requests of a walk. */
  method WalkTables(mem: Memory, id: nat, e1: nat, e2: nat, ghost l: Logical) returns (base: nat)
    requires mem.Valid() && Inv(mem.st) && mem.st.c == mem.c && CanAccess(mem.st, id, l) && l.e1 == e1 && l.e2 == e2
    modifies mem, mem.level1, mem.level2, mem.frames, mem.ram
    ensures mem.Valid()
    ensures mem.st == Walk(old(mem.st), id, l).0
    ensures base == AddressOf(mem.c, Walk(old(mem.st), id, l).1.(off := 0))
  {
    hide Memory.Valid, Inv, CanAccess, Enabled, SameImages, ServeTable, ServeFrame;
    ghost var s := mem.st;
    TableStep(s, id, l);
    ghost var r := ServeTable(s, id, l.e1).1.table;
    FrameStep(ServeTable(s, id, l.e1).0, r, l.e2);
    var table := mem.TableRequest(id, e1);
    base := mem.FrameRequest(table, e2, r);
  }

  /** `__cpu_obtener_marco`. */
  method ObtainAddress(tlb: T.Tlb, mem: Memory, id: nat, address: nat) returns (physical: nat)
    requires mem.Valid() && Inv(mem.st) && T.Ok(tlb.View()) && mem.c.T > 0 && mem.c.E > 0
    requires CanAccess(mem.st, id, Split(mem.c, address))
    modifies tlb, tlb.entries, mem, mem.level1, mem.level2, mem.frames, mem.ram
    ensures mem.Valid()
    ensures (mem.st, physical, tlb.View()) == Translate(old(mem.st), old(tlb.View()), id, Split(mem.c, address))
  {
    hide Memory.Valid, Inv, CanAccess, Walk, T.Lookup, T.Register, T.FirstEmpty, T.Tlb.View, Split, PageNo;
    hide AddressOf;
    mem.TableIs();
    SplitInverts(mem.c, address);
    ghost var l := Split(mem.c, address);
    ghost var t := tlb.View();
    var page := address / mem.c.T;
    var e1 := page / mem.c.E;
    var e2 := page % mem.c.E;
    SplitParts(mem.c, address);
    var off := address - page * mem.c.T;
    T.MissLeaves(t, page);
    var base := tlb.GetFrame(page);
    if base < 0 {
      base := WalkTables(mem, id, e1, e2, l);
      tlb.Store(page, base);
    }
    physical := base + off;
  }

  lemma SplitParts(c: Config, address: nat)
    requires c.T > 0 && c.E > 0
    ensures var l := Split(c, address);
            l.e1 == address / c.T / c.E && l.e2 == address / c.T % c.E && l.off == address - address / c.T * c.T
  {
  }

  /** `cpu_leer_en_memoria`: nobody else asks in between. */
  method ReadMemory(tlb: T.Tlb, mem: Memory, id: nat, address: nat) returns (v: seq<Byte>)
    requires mem.Valid() && mem.c.T > 0 && mem.c.E > 0 && id != 0 && CpuOk(CpuOf(tlb, mem, id))
    requires CanAccess(mem.st, id, Split(mem.c, address)) && Right(mem.st, tlb.View(), id, Split(mem.c, address))
    modifies tlb, tlb.entries, mem, mem.level1, mem.level2, mem.frames, mem.ram
    ensures mem.Valid()
    ensures (CpuOf(tlb, mem, id), Value(v)) == DoLoad(old(CpuOf(tlb, mem, id)), Split(mem.c, address))
  {
    hide Memory.Valid, Inv, CanAccess, Walk, Right, Translate, T.Tlb.View, Split, ServeRead, Locate, Enabled, T.Ok;
    hide Obtain;
    mem.TableIs();
    ghost var l := Split(mem.c, address);
    ghost var m := CpuOf(tlb, mem, id);
    AddressGoes(m, l);
    PlaceInRange(mem.st, id, l);
    var physical := ObtainAddress(tlb, mem, id, address);
    v := mem.ReadWord(physical);
  }

  /** `cpu_escribir_en_memoria`: nobody else asks in between, and the write is served. */
  method WriteMemory(tlb: T.Tlb, mem: Memory, id: nat, address: nat, v: seq<Byte>)
    requires mem.Valid() && mem.c.T > 0 && mem.c.E > 0 && id != 0 && CpuOk(CpuOf(tlb, mem, id)) && |v| == WORD
    requires CanAccess(mem.st, id, Split(mem.c, address)) && Right(mem.st, tlb.View(), id, Split(mem.c, address))
    modifies tlb, tlb.entries, mem, mem.level1, mem.level2, mem.frames, mem.ram
    ensures mem.Valid()
    ensures CpuOf(tlb, mem, id) == DoStore(old(CpuOf(tlb, mem, id)), Split(mem.c, address), v).0
  {
    hide Memory.Valid, Inv, CanAccess, Walk, Right, Translate, T.Tlb.View, Split, ServeWrite, Locate, Enabled, T.Ok;
    hide Obtain;
    mem.TableIs();
    ghost var l := Split(mem.c, address);
    ghost var m := CpuOf(tlb, mem, id);
    AddressGoes(m, l);
    PlaceInRange(mem.st, id, l);
    var physical := ObtainAddress(tlb, mem, id, address);
    mem.WriteWord(physical, v);
  }

  /** What an access of the process can count on, once its address is known. */
  lemma AddressGoes(m: Cpu, l: Logical)
    requires CpuOk(m) && m.at.Idle? && m.id != 0 && CanAccess(m.s, m.id, l) && Right(m.s, m.t, m.id, l)
    ensures T.Ok(m.t) && Possible(m, Begin(l)) && RightEvent(m, Begin(l))
    ensures var (s', address, t') := Translate(m.s, m.t, m.id, l);
            && Obtain(m, l) == Cpu(s', t', m.id, Located(l, address)) && Inv(s') && s'.c == m.s.c
            && ConfigOk(s'.c) && address == AddressOf(s'.c, Walk(m.s, m.id, l).1)
            && Enabled(s', Read(Locate(s'.c, address)))
            && (forall v | |v| == WORD :: Enabled(s', Write(Locate(s'.c, address), v)))
  {
    hide Inv, Right, Translate, Walk, Locate, Enabled, T.Ok, StageOk, InProcess;
    OkParts(m);
    ObtainIsTranslate(m, l);
    RightIsWalk(m.s, m.t, m.id, l);
    LocatedReady(Obtain(m, l));
    InvOf(Obtain(m, l));
    hide Obtain;
  }

  lemma OkParts(m: Cpu)
    requires CpuOk(m) && m.id != 0
    ensures Inv(m.s) && ConfigOk(m.s.c) && T.Ok(m.t)
  {
  }

  lemma PlaceInRange(s: State, id: nat, l: Logical)
    requires Inv(s) && CanAccess(s, id, l)
    ensures AddressOf(s.c, Walk(s, id, l).1) < s.c.P * s.c.M * s.c.T
  {
    hide Inv, Walk, SameImages, Enabled;
    WalkFinds(s, id, l);
    LocateInvertsAddress(s.c, Walk(s, id, l).1);
  }
}
