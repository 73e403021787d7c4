/** Requests of several processes mixed.

    The CPU's thread and the kernel's thread of the memory server take turns under
    `mutexMemoriaData`, one request at a time, so between the requests of a walk anything
    may be asked for about other processes.
 */
module RequestRuns {
  import opened Paging
  import opened VirtualMemory
  import opened MemoryProofs
  import opened FlatMemory

  /** The process a request is about, 0 for none; an access is about the owner of the byte. */
  function About(s: State, r: Request): nat {
    match r
    case Create(_) => 0
    case Table(id, _) => id
    case GetFrame(t, _) => if t.slot < |s.slots| then s.slots[t.slot].id else 0
    case Read(p) => if OwnerAt(s, p) == Nobody then 0 else OwnerAt(s, p).id
    case Write(p, _) => if OwnerAt(s, p) == Nobody then 0 else OwnerAt(s, p).id
    case Suspend(id) => id
    case Finish(id) => id
  }

  // ---------------------------------------------------------------- one request

  /** What happens inside one slot touches nobody else. */
  lemma SlotUntouched(s: State, i: nat, sl: Slot, file: seq<Page>, id: nat)
    requires i < |s.slots| && s.slots[i].id != id && sl.id == s.slots[i].id && id in s.swap
    ensures Untouched(s, WithSlot(s, i, sl, file), id)
  {
    FindOther(s.slots, i, sl, id, 0);
  }

  lemma FrameUntouched(s: State, t: TableRef, e2: nat, id: nat)
    requires Inv(s) && Enabled(s, GetFrame(t, e2)) && id in s.swap && s.slots[t.slot].id != id
    ensures Untouched(s, ServeFrame(s, t, e2).0, id)
  {
    FrameDefined(s, t, e2);
    hide Inv, Readable, PointerResident, Shape, FileShape, SlotOk, Untouched;
    var q := PageNo(s.c, t.row, e2);
    var sl := s.slots[t.slot];
    FrameOwner(s, t, e2);
    var (sl', file') := PageIn(s.c.alg, sl, s.swap[sl.id], q);
    SlotUntouched(s, t.slot, sl', file', id);
  }

  lemma FrameOwner(s: State, t: TableRef, e2: nat)
    requires Inv(s) && Enabled(s, GetFrame(t, e2))
    ensures var sl := s.slots[t.slot];
            var q := PageNo(s.c, t.row, e2);
            && q < |sl.pages| && |sl.frames| > 0 && Readable(sl, s.swap[sl.id])
            && PageIn(s.c.alg, sl, s.swap[sl.id], q).0.id == sl.id
  {
    FrameDefined(s, t, e2);
    hide Inv;
  }

  lemma ReadUntouched(s: State, p: Place, id: nat)
    requires OwnerAt(s, p) != Nobody && OwnerAt(s, p).id != id
    requires Inv(s) && Enabled(s, Read(p)) && id in s.swap
    ensures Untouched(s, ServeRead(s, p).0, id)
  {
    PlaceDefined(s, p);
    OwnedActive(s, p);
    hide Inv, Readable, PointerResident, Shape, FileShape, Untouched;
    var sl := s.slots[p.slot];
    assert s.swap[sl.id := s.swap[sl.id]] == s.swap;
    SlotUntouched(s, p.slot, Touch(sl, p.frame), s.swap[sl.id], id);
  }

  lemma WriteUntouched(s: State, p: Place, v: seq<Byte>, id: nat)
    requires OwnerAt(s, p) != Nobody && OwnerAt(s, p).id != id
    requires Inv(s) && Enabled(s, Write(p, v)) && id in s.swap
    ensures Untouched(s, ServeWrite(s, p, v).0, id)
  {
    PlaceDefined(s, p);
    OwnedActive(s, p);
    hide Inv, Readable, PointerResident, Shape, FileShape, Untouched;
    var sl := s.slots[p.slot];
    assert s.swap[sl.id := s.swap[sl.id]] == s.swap;
    SlotUntouched(s, p.slot, Store(sl, p.frame, p.off, v), s.swap[sl.id], id);
  }

  lemma IdNotZero(s: State)
    requires Inv(s)
    ensures 0 !in s.swap && s.nextId !in s.swap
  {
  }

  lemma CreateUntouched(s: State, size: nat, id: nat)
    requires Inv(s) && id in s.swap
    ensures Untouched(s, ServeCreate(s, size).0, id)
  {
    hide Inv, Untouched;
    IdNotZero(s);
    UntouchedSelf(s, id);
    if size <= s.c.K * s.c.T && HasFree(s) {
      AdmitInv(s, size);
    }
  }

  /** A request keeps slot, file and suspended row of every process it is not about. */
  lemma ServeUntouched(s: State, r: Request, id: nat)
    requires Inv(s) && Enabled(s, r) && id in s.swap && About(s, r) != id
    ensures Untouched(s, Serve(s, r).0, id)
  {
    hide Inv, Untouched, ServeCreate, ServeFrame, ServeRead, ServeWrite, DoSuspend, Wake;
    UntouchedSelf(s, id);
    match r
    case Create(size) => CreateUntouched(s, size, id);
    case Table(x, _) => if x in s.suspended { WakeInv(s, x); }
    case GetFrame(t, e2) => FrameUntouched(s, t, e2, id);
    case Read(p) => ReadUntouched(s, p, id);
    case Write(p, v) => WriteUntouched(s, p, v, id);
    case Suspend(x) => if x !in s.suspended { ActiveSlot(s, x); SuspendInv(s, x); }
    case Finish(x) => FinishInv(s, x);
  }

  lemma StaysIn(s: State, s': State, id: nat)
    requires Untouched(s, s', id)
    ensures id in s'.swap
  {
  }

  // ---------------------------------------------------------------- runs about others

  /** No request of the run is about process id. */
  ghost predicate NoneAbout(s: State, rs: seq<Request>, id: nat)
    requires Inv(s) && Legal(s, rs)
    decreases |rs|
  {
    hide Inv, Serve, Enabled;
    rs == [] || (About(s, rs[0]) != id && NoneAbout(Served(s, rs[0]), rs[1..], id))
  }

  /** Then the process keeps slot, file and suspended row. */
  lemma {:induction false} OthersRun(s: State, rs: seq<Request>, id: nat)
    requires Inv(s) && Legal(s, rs) && NoneAbout(s, rs, id) && id in s.swap
    ensures Untouched(s, Run(s, rs), id)
    decreases |rs|
  {
    hide Inv, Untouched, Serve, Enabled, About;
    if rs == [] {
      UntouchedSelf(s, id);
    } else {
      var s' := Served(s, rs[0]);
      ServeUntouched(s, rs[0], id);
      StaysIn(s, s', id);
      OthersRun(s', rs[1..], id);
      UntouchedTrans(s, s', Run(s', rs[1..]), id);
    }
  }

  /** A walk mixed with any requests about other processes, before and after its second
      request, still ends at a byte owned by exactly the process, page and offset asked
      for. */
  lemma InterleavedWalk(s: State, id: nat, l: Logical, before: seq<Request>, after: seq<Request>)
    requires Inv(s) && CanAccess(s, id, l)
    requires Legal(Served(s, Table(id, l.e1)), before) && NoneAbout(Served(s, Table(id, l.e1)), before, id)
    requires var reply := Serve(s, Table(id, l.e1)).1;
             var s2 := Run(Served(s, Table(id, l.e1)), before);
             Enabled(s2, GetFrame(reply.table, l.e2)) ==>
               Legal(Served(s2, GetFrame(reply.table, l.e2)), after)
               && NoneAbout(Served(s2, GetFrame(reply.table, l.e2)), after, id)
    ensures var reply := Serve(s, Table(id, l.e1)).1;
            var s2 := Run(Served(s, Table(id, l.e1)), before);
            && reply.Tables? && Enabled(s2, GetFrame(reply.table, l.e2))
            && var frame := Serve(s2, GetFrame(reply.table, l.e2)).1;
               var s4 := Run(Served(s2, GetFrame(reply.table, l.e2)), after);
               && frame.At?
               && var p := frame.place.(off := l.off);
                  OwnerAt(s4, p) == Owner(id, PageNo(s.c, l.e1, l.e2), l.off) && Enabled(s4, Read(p))
  {
    hide Inv, Untouched, OwnerAt, Run, ServeTable, ServeFrame, NoneAbout, SameImages, PageNo;
    TableStep(s, id, l);
    var reply := Serve(s, Table(id, l.e1)).1;
    var s1 := Served(s, Table(id, l.e1));
    OthersRun(s1, before, id);
    var s2 := Run(s1, before);
    TableStays(s1, s2, id, reply.table, l);
    FrameStep(s2, reply.table, l.e2);
    var frame := Serve(s2, GetFrame(reply.table, l.e2)).1;
    var s3 := Served(s2, GetFrame(reply.table, l.e2));
    OthersRun(s3, after, id);
    PlaceStays(s3, Run(s3, after), id, frame.place, l);
  }

  /** The table named by the first answer still belongs to the process. */
  lemma TableStays(s: State, s': State, id: nat, t: TableRef, l: Logical)
    requires Inv(s) && Inv(s') && s'.c == s.c && id !in s.suspended && InProcess(s, id, l)
    requires Untouched(s, s', id) && t == TableRef(FindSlot(s.slots, id, 0), l.e1)
    ensures Enabled(s', GetFrame(t, l.e2)) && s'.slots[t.slot].id == id && id !in s'.suspended
  {
    hide Inv, SlotOk, FindSlot, Good, Vacant;
    ActiveSlot(s, id);
  }

  lemma PlaceStays(s: State, s': State, id: nat, base: Place, l: Logical)
    requires Inv(s) && s'.c == s.c && Untouched(s, s', id) && l.off + WORD <= s.c.T
    requires OwnerAt(s, base) != Nobody && OwnerAt(s, base).id == id
    ensures OwnerAt(s', base.(off := l.off)) == OwnerAt(s, base).(off := l.off)
    ensures Enabled(s', Read(base.(off := l.off)))
  {
    hide Untouched;
    UntouchedOwner(s, s', id, base);
    hide Inv;
  }

  // ---------------------------------------------------------------- suspended and woken

  /** Suspended, and woken after any run of requests about other processes, a process finds
      its image, its size and exactly the pages it had written, all of them in swap, whatever
      slot it wakes in; its old slot was vacant in between. */
  lemma SuspendWakeRoundTrip(s: State, id: nat, rs: seq<Request>)
    requires Inv(s) && id in s.swap && id !in s.suspended
    requires Legal(Served(s, Suspend(id)), rs) && NoneAbout(Served(s, Suspend(id)), rs, id)
    requires HasFree(Run(Served(s, Suspend(id)), rs))
    ensures var s1 := Served(s, Suspend(id));
            var later := Run(s1, rs);
            && id in later.suspended
            && var s3 := Wake(later, id);
               var i, k := FindSlot(s.slots, id, 0), FindSlot(s3.slots, id, 0);
               && i < |s.slots| == |s1.slots| && k < |s3.slots|
               && Vacant(s1.slots[i], s.c.T)
               && Inv(s3) && ImageOf(s3, id) == ImageOf(s, id)
               && |s.slots[i].pages| == |s3.slots[k].pages| == s.c.K
               && s3.slots[k].size == s.slots[i].size
               && forall q | 0 <= q < s.c.K :: s3.slots[k].pages[q] == BLANK.(inSwap := Known(s.slots[i].pages[q]))
  {
    hide Inv, Good, Vacant, Untouched, ImageOf, DoSuspend, Wake, Run, Legal, NoneAbout;
    ActiveSlot(s, id);
    SuspendInv(s, id);
    var s1 := Served(s, Suspend(id));
    OthersRun(s1, rs, id);
    UntouchedRow(s1, Run(s1, rs), id);
    WakeRestores(s, Run(s1, rs), id);
  }
}
