/** Address translation in the CPU: TLB first, page walk on a miss
    (cpu/src/cpu_mem_client.c), and when the TLB cannot be told from the walk.

    Nothing tells the CPU that memory has replaced a page.  With one entry, or with a
    frame for every page of a process, that does no harm; in every other configuration
    some program is led to the wrong bytes.
 */
module Translation {
  import opened Arith
  import opened Paging
  import opened VirtualMemory
  import opened Addressing
  import opened MemoryProofs
  import opened FlatMemory
  import T = TlbCache

  // ---------------------------------------------------------------- one translation

  /** `__cpu_obtener_marco`: memory, physical address and TLB afterwards. */
  function Translate(s: State, t: T.Cache, id: nat, l: Logical): (State, nat, T.Cache)
    requires Inv(s) && CanAccess(s, id, l) && T.Ok(t)
  {
    var page := PageNo(s.c, l.e1, l.e2);
    T.MissLeaves(t, page);
    var (t', base) := T.Lookup(t, page);
    if base >= 0 then (s, base + l.off, t')
    else
      var (s', p) := Walk(s, id, l);
      var walked := AddressOf(s.c, p.(off := 0));
      (s', walked + l.off, T.Register(t', page, walked))
  }

  /** The address the TLB gives, if it has one, is the byte that was asked for. */
  ghost predicate Right(s: State, t: T.Cache, id: nat, l: Logical)
    requires s.c.T > 0 && s.c.M > 0
  {
    var page := PageNo(s.c, l.e1, l.e2);
    var base := T.Lookup(t, page).1;
    base >= 0 ==> OwnerAt(s, Locate(s.c, base + l.off)) == Owner(id, page, l.off)
  }

  /** A byte owned by a page of a process lies in that page's frame: a walk finds the
      page present, changes nothing and leads to the same byte. */
  lemma OwnedWalk(s: State, id: nat, l: Logical, p: Place)
    requires Inv(s) && CanAccess(s, id, l)
    requires OwnerAt(s, p) == Owner(id, PageNo(s.c, l.e1, l.e2), l.off)
    ensures Walk(s, id, l) == (s, p) && id !in s.suspended
  {
    hide Readable, PointerResident, Shape, FileShape, Vacant;
    OwnedActive(s, p);
    hide Inv;
    TableStep(s, id, l);
    OwnedPresent(s, id, p);
    hide SlotOk, Good;
    var (s1, reply) := ServeTable(s, id, l.e1);
    assert s1 == s && reply.table == TableRef(p.slot, l.e1);
    PresentFrame(s, reply.table, l.e2, p);
  }

  lemma PresentFrame(s: State, t: TableRef, e2: nat, p: Place)
    requires Inv(s) && Enabled(s, GetFrame(t, e2)) && p.slot == t.slot
    requires PageNo(s.c, t.row, e2) < |s.slots[t.slot].pages|
    requires s.slots[t.slot].pages[PageNo(s.c, t.row, e2)].present
    requires s.slots[t.slot].pages[PageNo(s.c, t.row, e2)].frame == p.frame
    ensures ServeFrame(s, t, e2) == (s, At(p.(off := 0)))
  {
    FrameDefined(s, t, e2);
    hide Inv, Readable, PointerResident, Shape, FileShape, SlotOk;
    var sl := s.slots[t.slot];
    assert s.slots[t.slot := sl] == s.slots;
    assert s.swap[sl.id := s.swap[sl.id]] == s.swap;
  }

  // ---------------------------------------------------------------- coherence

  /** The entry names the frame that now holds its page. */
  ghost predicate EntryRight(s: State, id: nat, e: T.Slot)
    requires s.c.T > 0 && s.c.M > 0
  {
    e.page >= 0 && e.frame >= 0 && OwnerAt(s, Locate(s.c, e.frame)) == Owner(id, e.page, 0)
  }

  ghost predicate Coherent(s: State, id: nat, t: T.Cache)
    requires s.c.T > 0 && s.c.M > 0
  {
    T.Ok(t) && forall i | 0 <= i < T.Used(t) :: EntryRight(s, id, t.slots[i])
  }

  lemma LocateOffset(c: Config, base: nat, off: nat)
    requires c.T > 0 && c.M > 0 && Locate(c, base).off == 0 && off < c.T
    ensures Locate(c, base + off) == Locate(c, base).(off := off)
  {
    DivMod(base, c.T);
    DivUnique(base + off, c.T, base / c.T, off);
  }

  /** A coherent TLB never leads astray. */
  lemma CoherentRight(s: State, id: nat, t: T.Cache, l: Logical)
    requires ConfigOk(s.c) && Coherent(s, id, t) && l.off < s.c.T
    ensures Right(s, t, id, l)
  {
    var page := PageNo(s.c, l.e1, l.e2);
    T.MissLeaves(t, page);
    hide PageNo;
    var base := T.Lookup(t, page).1;
    if base >= 0 {
      var k := T.FindPage(t.slots, page, 0);
      assert k < T.Used(t) && EntryRight(s, id, t.slots[k]);
      LocateOffset(s.c, base, l.off);
    }
  }

  // ---------------------------------------------------------------- what keeps entries right

  ghost predicate SameOwners(s: State, s': State) {
    forall p :: OwnerAt(s', p) == OwnerAt(s, p)
  }

  lemma AccessOwners(s: State, p: Place, v: seq<Byte>)
    requires Inv(s)
    ensures Enabled(s, Read(p)) ==> SameOwners(s, ServeRead(s, p).0)
    ensures Enabled(s, Write(p, v)) ==> SameOwners(s, ServeWrite(s, p, v).0)
  {
    if Enabled(s, Read(p)) {
      ReadOwners(s, p);
    }
    if Enabled(s, Write(p, v)) {
      WriteOwners(s, p, v);
    }
    hide Inv, Enabled, SameOwners, ServeRead, ServeWrite;
  }

  lemma ReadOwners(s: State, p: Place)
    requires Inv(s) && Enabled(s, Read(p))
    ensures SameOwners(s, ServeRead(s, p).0)
  {
    hide Inv;
    PlaceDefined(s, p);
  }

  lemma WriteOwners(s: State, p: Place, v: seq<Byte>)
    requires Inv(s) && Enabled(s, Write(p, v))
    ensures SameOwners(s, ServeWrite(s, p, v).0)
  {
    hide Inv, Patch;
    PlaceDefined(s, p);
  }

  lemma UntouchedCoherent(s: State, s': State, id: nat, t: T.Cache)
    requires Inv(s) && s'.c == s.c && Untouched(s, s', id) && s.c.T > 0 && s.c.M > 0 && Coherent(s, id, t)
    ensures Coherent(s', id, t)
  {
    hide Inv, Untouched, OwnerAt, Locate;
    forall i | 0 <= i < T.Used(t) ensures EntryRight(s', id, t.slots[i]) {
      assert EntryRight(s, id, t.slots[i]);
      UntouchedOwner(s, s', id, Locate(s.c, t.slots[i].frame));
    }
  }

  /** A renewed stamp changes no translation. */
  lemma LookupCoherent(s: State, id: nat, t: T.Cache, page: nat)
    requires s.c.T > 0 && s.c.M > 0 && Coherent(s, id, t)
    ensures Coherent(s, id, T.Lookup(t, page).0) && |T.Lookup(t, page).0.slots| == |t.slots|
  {
    T.MissLeaves(t, page);
    hide OwnerAt, Locate;
    var t' := T.Lookup(t, page).0;
    forall i | 0 <= i < T.Used(t) ensures EntryRight(s, id, t'.slots[i]) {
      assert EntryRight(s, id, t.slots[i]);
    }
  }

  /** What a registration needs: the new entry is right, and so is every entry it
      leaves in place. */
  lemma RegisterCoherent(s: State, id: nat, t: T.Cache, page: nat, walked: nat)
    requires s.c.T > 0 && s.c.M > 0 && T.Ok(t)
    requires forall i | 0 <= i < T.Used(t) :: t.slots[i].page != page
    requires EntryRight(s, id, T.Slot(page, walked, 0))
    requires |t.slots| == 1 || forall i | 0 <= i < T.Used(t) :: EntryRight(s, id, t.slots[i])
    ensures T.FirstEmpty(t.slots, 0) == T.Used(t) && Coherent(s, id, T.Register(t, page, walked))
  {
    T.OkFirstEmpty(t);
    hide OwnerAt, Locate;
    var t' := T.Register(t, page, walked);
    forall i | 0 <= i < T.Used(t') ensures EntryRight(s, id, t'.slots[i]) {
      if i != T.Victim(t) {
        assert i < T.Used(t) && t'.slots[i] == t.slots[i];
      }
    }
  }

  // ---------------------------------------------------------------- a frame for every page

  lemma {:induction false} FramePages(sl: Slot, frames: set<nat>, pages: set<nat>)
    requires MapsInverse(sl) && forall j | j in frames :: 0 <= j < |sl.frames| && sl.frames[j].inUse
    requires pages == set j | j in frames :: sl.frames[j].page
    ensures |pages| == |frames|
    decreases frames
  {
    if frames != {} {
      var j :| j in frames;
      var rest := frames - {j};
      var restPages: set<nat> := set x | x in rest :: sl.frames[x].page;
      FramePages(sl, rest, restPages);
      assert pages == restPages + {sl.frames[j].page};
    }
  }

  /** With as many frames as pages, a page that is missing always finds a free frame. */
  lemma RoomyFault(sl: Slot, file: seq<Page>, T: nat, q: nat)
    requires Good(sl, file, T) && |sl.pages| <= |sl.frames| && q < |sl.pages| && !sl.pages[q].present
    ensures FirstFree(sl.frames, 0) < |sl.frames|
  {
    hide PointerResident, Shape, FileShape, SwapFresh;
    if FirstFree(sl.frames, 0) == |sl.frames| {
      var frames := Below(|sl.frames|);
      var pages: set<nat> := set j | j in frames :: sl.frames[j].page;
      FramePages(sl, frames, pages);
      assert pages <= Below(|sl.pages|) - {q};
      Subsets(pages, Below(|sl.pages|) - {q});
    }
  }

  /** Then a page request takes no frame from anybody. */
  lemma FrameKeepsOwners(s: State, t: TableRef, e2: nat, p: Place)
    requires Inv(s) && Enabled(s, GetFrame(t, e2)) && s.c.M >= s.c.K
    requires p.slot == t.slot && OwnerAt(s, p) != Nobody
    ensures OwnerAt(ServeFrame(s, t, e2).0, p) == OwnerAt(s, p)
  {
    hide Inv, Shape, FileShape, SelectVictim, Vacant, PointerResident, Readable, Good, Enabled, PageNo;
    FrameDefined(s, t, e2);
    var sl := s.slots[t.slot];
    var q := PageNo(s.c, t.row, e2);
    SlotWidth(s, t);
    if !sl.pages[q].present {
      RoomyFault(sl, s.swap[sl.id], s.c.T, q);
    }
  }

  lemma SlotWidth(s: State, t: TableRef)
    requires Inv(s) && t.slot < |s.slots|
    ensures |s.slots[t.slot].pages| == s.c.K && |s.slots[t.slot].frames| == s.c.M
  {
    assert SlotOk(s, s.slots[t.slot]);
  }

  lemma RoomyWalk(s: State, id: nat, l: Logical, p: Place)
    requires Inv(s) && CanAccess(s, id, l) && s.c.M >= s.c.K
    requires OwnerAt(s, p) != Nobody && OwnerAt(s, p).id == id
    ensures OwnerAt(Walk(s, id, l).0, p) == OwnerAt(s, p)
  {
    hide SlotOk, Good;
    OwnedPresent(s, id, p);
    TableStep(s, id, l);
    hide Inv, Enabled;
    var (s1, reply) := ServeTable(s, id, l.e1);
    assert s1 == s && reply.table == TableRef(p.slot, l.e1);
    FrameKeepsOwners(s, reply.table, l.e2, p);
  }

  // ---------------------------------------------------------------- one translation step

  /** The configurations in which a page replacement never leaves a stale entry. */
  predicate Harmless(c: Config, entries: nat) {
    entries == 1 || c.M >= c.K
  }

  lemma OffsetBelow(s: State, id: nat, l: Logical)
    requires CanAccess(s, id, l)
    ensures l.off < s.c.T
  {
  }

  lemma OwnerOffset(s: State, p: Place)
    requires OwnerAt(s, p) != Nobody
    ensures OwnerAt(s, p.(off := 0)) == OwnerAt(s, p).(off := 0)
  {
  }

  /** An address is the address of its place. */
  lemma AddressIs(c: Config, address: nat)
    requires c.T > 0 && c.M > 0
    ensures address == AddressOf(c, Locate(c, address))
  {
    DivMod(address, c.T);
    DivMod(address / c.T, c.M);
  }

  /** Where the walk on a miss leads. */
  lemma MissPlace(s: State, id: nat, l: Logical)
    requires Inv(s) && CanAccess(s, id, l) && s.c.T > 0 && s.c.M > 0
    ensures var (w, p) := Walk(s, id, l);
            var walked := AddressOf(s.c, p.(off := 0));
            && Locate(s.c, walked + l.off) == p
            && w.c == s.c && EntryRight(w, id, T.Slot(PageNo(s.c, l.e1, l.e2), walked, 0))
  {
    hide Inv, CanAccess, Walk, SameImages, PageNo, OwnerAt, Locate, Enabled;
    var (w, p) := Walk(s, id, l);
    WalkFinds(s, id, l);
    OffsetBelow(s, id, l);
    LocateInvertsAddress(s.c, p);
    LocateInvertsAddress(s.c, p.(off := 0));
    OwnerOffset(w, p);
  }

  /** A translation that is right cannot be told from the walk: memory is where the walk
      would leave it and the address is the one the walk would give. */
  lemma RightIsWalk(s: State, t: T.Cache, id: nat, l: Logical)
    requires Inv(s) && CanAccess(s, id, l) && ConfigOk(s.c) && T.Ok(t) && Right(s, t, id, l)
    ensures var (s', address, t') := Translate(s, t, id, l);
            && (s', Locate(s.c, address)) == Walk(s, id, l)
            && address == AddressOf(s.c, Walk(s, id, l).1)
            && T.Ok(t') && |t'.slots| == |t.slots|
  {
    hide Inv, CanAccess, Walk, Locate, OwnerAt, PageNo, T.FirstEmpty, T.Lookup, T.Register, EntryRight;
    var page := PageNo(s.c, l.e1, l.e2);
    T.MissLeaves(t, page);
    T.AccessOk(t, page, AddressOf(s.c, Walk(s, id, l).1.(off := 0)));
    var base := T.Lookup(t, page).1;
    if base >= 0 {
      OwnedWalk(s, id, l, Locate(s.c, base + l.off));
      AddressIs(s.c, base + l.off);
    } else {
      MissPlace(s, id, l);
      AddressIs(s.c, AddressOf(s.c, Walk(s, id, l).1.(off := 0)) + l.off);
    }
  }

  /** In a harmless configuration a coherent TLB is right, and stays coherent through the
      translation, page replacement included. */
  lemma TranslateStep(s: State, t: T.Cache, id: nat, l: Logical)
    requires Inv(s) && CanAccess(s, id, l) && ConfigOk(s.c) && Coherent(s, id, t) && Harmless(s.c, |t.slots|)
    ensures Right(s, t, id, l)
    ensures var (s', address, t') := Translate(s, t, id, l);
            s'.c == s.c && Coherent(s', id, t')
  {
    hide Inv, CanAccess, Walk, Locate, OwnerAt, PageNo, T.FirstEmpty, T.Lookup, EntryRight, T.Register;
    var page := PageNo(s.c, l.e1, l.e2);
    T.MissLeaves(t, page);
    OffsetBelow(s, id, l);
    var base := T.Lookup(t, page).1;
    CoherentRight(s, id, t, l);
    if base >= 0 {
      LookupCoherent(s, id, t, page);
    } else {
      MissCoherent(s, t, id, l);
    }
  }

  lemma MissCoherent(s: State, t: T.Cache, id: nat, l: Logical)
    requires Inv(s) && CanAccess(s, id, l) && s.c.T > 0 && s.c.M > 0 && Coherent(s, id, t) && Harmless(s.c, |t.slots|)
    requires T.Lookup(t, PageNo(s.c, l.e1, l.e2)).1 < 0
    ensures var (w, p) := Walk(s, id, l);
            var page := PageNo(s.c, l.e1, l.e2);
            && w.c == s.c && T.FirstEmpty(t.slots, 0) == T.Used(t)
            && Coherent(w, id, T.Register(t, page, AddressOf(s.c, p.(off := 0))))
  {
    hide Inv, CanAccess, Walk, SameImages, PageNo, OwnerAt, Locate, T.Lookup, T.FirstEmpty, T.Register, Enabled;
    var page := PageNo(s.c, l.e1, l.e2);
    var (w, p) := Walk(s, id, l);
    MissPlace(s, id, l);
    T.MissLeaves(t, page);
    if |t.slots| != 1 {
      forall i | 0 <= i < T.Used(t) ensures EntryRight(w, id, t.slots[i]) {
        assert EntryRight(s, id, t.slots[i]);
        RoomyWalk(s, id, l, Locate(s.c, t.slots[i].frame));
      }
    }
    RegisterCoherent(w, id, t, page, AddressOf(s.c, p.(off := 0)));
  }
}
