/** The law of the memory server: every process has a flat array of bytes.

    The specification knows nothing of tables, frames or swap; it is a map from
    (process, page, offset) to the last byte written there.  Addressing shows that
    (page, offset) and logical addresses are in bijection.
 */
module FlatMemory {
  import opened Paging
  import opened VirtualMemory
  import opened MemoryProofs

  type Flat = map<(nat, nat, nat), Byte>

  // ---------------------------------------------------------------- specification

  function Written(flat: Flat, id: nat, page: nat, off: nat, v: seq<Byte>): Flat
    requires |v| == WORD
  {
    flat[(id, page, off) := v[0]][(id, page, off + 1) := v[1]]
        [(id, page, off + 2) := v[2]][(id, page, off + 3) := v[3]]
  }

  /** A write changes the word at the byte the address belongs to; a process that ends
      takes its bytes along; no other request changes anything. */
  function FlatServe(s: State, flat: Flat, r: Request): Flat {
    match r
    case Write(p, v) =>
      var o := OwnerAt(s, p);
      if o != Nobody && |v| == WORD then Written(flat, o.id, o.page, o.off, v) else flat
    case Finish(id) => Without(flat, id)
    case _ => flat
  }

  function Without(flat: Flat, id: nat): Flat {
    map k | k in flat && k.0 != id :: flat[k]
  }

  /** A word read back agrees with the flat array on the bytes ever written. */
  ghost predicate Agrees(flat: Flat, id: nat, page: nat, off: nat, v: seq<Byte>) {
    && |v| == WORD
    && forall k | 0 <= k < WORD && (id, page, off + k) in flat :: v[k] == flat[(id, page, off + k)]
  }

  // ---------------------------------------------------------------- the machine

  /** The page of the address lies inside the process and the word inside the page. */
  predicate InProcess(s: State, id: nat, l: Logical) {
    && id in s.swap
    && l.e1 < s.c.E && l.e2 < s.c.E && l.off + WORD <= s.c.T
    && PageNo(s.c, l.e1, l.e2) < |s.swap[id]|
  }

  /** And a suspended process finds a slot to wake up in. */
  predicate CanAccess(s: State, id: nat, l: Logical) {
    InProcess(s, id, l) && (id in s.suspended ==> HasFree(s))
  }

  /** The first request of a walk makes the process active and leads to its slot. */
  lemma TableStep(s: State, id: nat, l: Logical)
    requires Inv(s) && CanAccess(s, id, l)
    ensures Enabled(s, Table(id, l.e1))
    ensures var (s1, reply) := ServeTable(s, id, l.e1);
            && Inv(s1) && s1.c == s.c && s1.swap == s.swap && id !in s1.suspended && SameImages(s, s1, 0)
            && reply.Tables? && reply.table == TableRef(FindSlot(s1.slots, id, 0), l.e1)
            && Enabled(s1, GetFrame(reply.table, l.e2))
            && s1.slots[reply.table.slot].id == id
  {
    hide Woken, Good, Vacant, ImageOf, AllSuspendedOk, IdsDistinct;
    if id in s.suspended {
      WakeStep(s, id);
    }
    ActiveSlot(ServeTable(s, id, l.e1).0, id);
  }

  /** The two requests of `__cpu_obtener_marco` on a TLB miss, and where they lead. */
  function Walk(s: State, id: nat, l: Logical): (State, Place)
    requires Inv(s) && CanAccess(s, id, l)
  {
    TableStep(s, id, l);
    hide Inv, Enabled;
    var (s1, reply) := ServeTable(s, id, l.e1);
    var (s2, frame) := ServeFrame(s1, reply.table, l.e2);
    (s2, frame.place.(off := l.off))
  }

  /** The walk changes no image, and the byte it ends at is owned by exactly the
      process, page and offset that were asked for. */
  lemma WalkFinds(s: State, id: nat, l: Logical)
    requires Inv(s) && CanAccess(s, id, l)
    ensures var (s', p) := Walk(s, id, l);
            && Inv(s') && s'.c == s.c && s'.swap.Keys == s.swap.Keys && SameImages(s, s', 0)
            && id !in s'.suspended && |s'.swap[id]| == |s.swap[id]|
            && p.slot < s.c.P && p.frame < s.c.M && p.off == l.off
            && OwnerAt(s', p) == Owner(id, PageNo(s.c, l.e1, l.e2), l.off)
            && Enabled(s', Read(p))
  {
    hide ServeTable, ServeFrame, SameImages, ImageOf, SlotsOk, AllSuspendedOk, LiveOk, IdsDistinct;
    TableStep(s, id, l);
    var (s1, reply) := ServeTable(s, id, l.e1);
    assert |s1.slots| == s.c.P;
    FrameStep(s1, reply.table, l.e2);
    hide Inv;
    SameImagesTrans(s, s1, Walk(s, id, l).0);
  }

  lemma SameImagesTrans(s: State, s1: State, s2: State)
    requires Inv(s) && s.swap.Keys == s1.swap.Keys == s2.swap.Keys
    requires SameImages(s, s1, 0) && SameImages(s1, s2, 0)
    ensures SameImages(s, s2, 0)
  {
    assert forall id | id in s.swap :: id != 0;
    hide Inv, ImageOf;
  }

  function LoadWord(s: State, id: nat, l: Logical): (State, Reply)
    requires Inv(s) && CanAccess(s, id, l)
  {
    WalkFinds(s, id, l);
    hide Inv, Walk, SameImages;
    ServeRead(Walk(s, id, l).0, Walk(s, id, l).1)
  }

  /** One request, served under `mutexMemoriaData`. */
  function Serve(s: State, r: Request): (State, Reply)
    requires Inv(s) && Enabled(s, r)
  {
    match r
    case Create(size) => ServeCreate(s, size)
    case Table(id, e1) => ServeTable(s, id, e1)
    case GetFrame(t, e2) => ServeFrame(s, t, e2)
    case Read(p) => ServeRead(s, p)
    case Write(p, v) => ServeWrite(s, p, v)
    case Suspend(id) => ServeSuspend(s, id)
    case Finish(id) => ServeFinish(s, id)
  }

  // ---------------------------------------------------------------- refinement

  /** Every byte ever written is known to the machine, with its last value. */
  ghost predicate Represents(s: State, flat: Flat) {
    forall id, page, off | (id, page, off) in flat ::
      && id in s.swap && page in ImageOf(s, id)
      && off < |ImageOf(s, id)[page]| && ImageOf(s, id)[page][off] == flat[(id, page, off)]
  }

  lemma SameRepresents(s: State, s': State, flat: Flat)
    requires Represents(s, flat) && SameImages(s, s', 0)
    requires Inv(s) && s.swap.Keys <= s'.swap.Keys
    ensures Represents(s', flat)
  {
    assert forall id | id in s.swap :: id != 0;
    hide Inv, ImageOf;
  }

  lemma EndRepresents(s: State, s': State, flat: Flat, id: nat)
    requires Represents(s, flat) && SameImages(s, s', 0)
    requires Inv(s) && s'.swap.Keys == s.swap.Keys - {id}
    ensures Represents(s', Without(flat, id))
  {
    hide Inv, ImageOf;
    forall x, page, off | (x, page, off) in flat && x != id
      ensures x in s'.swap && ImageOf(s', x) == ImageOf(s, x)
    {
      LiveNotZero(s, x);
    }
  }

  lemma LiveNotZero(s: State, id: nat)
    requires Inv(s) && id in s.swap
    ensures id != 0
  {
  }

  /** A write changes the flat array at the four bytes of its word and nowhere else. */
  lemma WroteRepresents(s: State, s': State, flat: Flat, o: Owner, before: Page, v: seq<Byte>)
    requires Represents(s, flat) && Wrote(s, s', o, before, v) && |v| == WORD
    requires s'.swap.Keys == s.swap.Keys
    ensures Represents(s', Written(flat, o.id, o.page, o.off, v))
  {
    hide ImageOf;
    var flat' := Written(flat, o.id, o.page, o.off, v);
    var after := Patch(before, o.off, v);
    assert ImageOf(s', o.id)[o.page] == after;
    forall id, page, off | (id, page, off) in flat'
      ensures id in s'.swap && page in ImageOf(s', id)
              && off < |ImageOf(s', id)[page]| && ImageOf(s', id)[page][off] == flat'[(id, page, off)]
    {
      if id == o.id && page == o.page {
        if off < o.off || o.off + WORD <= off {
          assert (id, page, off) in flat && flat'[(id, page, off)] == flat[(id, page, off)];
        } else {
          WrittenWord(flat, id, page, o.off, v, off - o.off);
        }
      } else {
        assert (id, page, off) in flat && flat'[(id, page, off)] == flat[(id, page, off)];
      }
    }
  }

  lemma WrittenWord(flat: Flat, id: nat, page: nat, off: nat, v: seq<Byte>, k: nat)
    requires |v| == WORD && k < WORD
    ensures (id, page, off + k) in Written(flat, id, page, off, v)
    ensures Written(flat, id, page, off, v)[(id, page, off + k)] == v[k]
  {
    assert k == 0 || k == 1 || k == 2 || k == 3;
  }

  /** A physical read changes nothing and agrees with the flat array at the byte the
      address belongs to. */
  lemma ReadAgrees(s: State, flat: Flat, p: Place)
    requires Inv(s) && Represents(s, flat) && Enabled(s, Read(p))
    ensures var (s', reply) := ServeRead(s, p);
            var o := OwnerAt(s, p);
            && Inv(s') && Represents(s', flat)
            && reply.Value? && Agrees(flat, o.id, o.page, o.off, reply.v)
  {
    hide Inv, ServeRead, SameImages;
    ReadStep(s, p);
    hide ImageOf;
    SameRepresents(s, ServeRead(s, p).0, flat);
  }

  lemma ServeConfig(s: State, r: Request)
    requires Inv(s) && Enabled(s, r)
    ensures Serve(s, r).0.c == s.c
  {
    hide Inv, Enabled;
  }

  /** A table request wakes the process if need be and changes no image. */
  lemma TableKeeps(s: State, id: nat, e1: nat)
    requires Inv(s) && Enabled(s, Table(id, e1))
    ensures var s' := ServeTable(s, id, e1).0;
            Inv(s') && s'.swap == s.swap && SameImages(s, s', 0)
  {
    hide Inv;
    if id in s.suspended {
      WakeStep(s, id);
    }
  }

  lemma WriteRepresents(s: State, flat: Flat, p: Place, v: seq<Byte>)
    requires Inv(s) && Represents(s, flat) && Enabled(s, Write(p, v))
    ensures Inv(ServeWrite(s, p, v).0) && Represents(ServeWrite(s, p, v).0, FlatServe(s, flat, Write(p, v)))
  {
    hide Inv, ServeWrite, Represents, Wrote, Written, OwnerAt;
    var before := WriteStep(s, p, v);
    WroteRepresents(s, ServeWrite(s, p, v).0, flat, OwnerAt(s, p), before, v);
  }

  /** One request keeps the invariant and the representation of the flat array, and what
      a read answers agrees with it at the byte the address belongs to. */
  lemma ServeStep(s: State, flat: Flat, r: Request)
    requires Inv(s) && Represents(s, flat) && Enabled(s, r)
    ensures var (s', reply) := Serve(s, r);
            && Inv(s') && s'.c == s.c && Represents(s', FlatServe(s, flat, r))
            && (r.Read? ==>
                  var o := OwnerAt(s, r.at);
                  o != Nobody && reply.Value? && Agrees(flat, o.id, o.page, o.off, reply.v))
  {
    hide Inv, ServeCreate, ServeTable, ServeFrame, ServeRead, ServeWrite, ServeSuspend, ServeFinish, Represents;
    hide Agrees, SameImages, Written, Without;
    ServeConfig(s, r);
    var s' := Serve(s, r).0;
    match r
    case Create(size) => CreateStep(s, size); SameRepresents(s, s', flat);
    case Table(id, e1) => TableKeeps(s, id, e1); SameRepresents(s, s', flat);
    case GetFrame(t, e2) => FrameStep(s, t, e2); SameRepresents(s, s', flat);
    case Read(p) => ReadAgrees(s, flat, p);
    case Write(p, v) => WriteRepresents(s, flat, p, v);
    case Suspend(id) => SuspendStep(s, id); SameRepresents(s, s', flat);
    case Finish(id) => FinishStep(s, id); EndRepresents(s, s', flat, id);
  }

  // ---------------------------------------------------------------- whole runs

  lemma ServeInv(s: State, r: Request)
    requires Inv(s) && Enabled(s, r)
    ensures Inv(Serve(s, r).0) && Serve(s, r).0.c == s.c
  {
    hide Inv, Serve, Enabled;
    ServeStep(s, map[], r);
  }

  /** The state after one request. */
  ghost function Served(s: State, r: Request): (s': State)
    requires Inv(s) && Enabled(s, r)
    ensures Inv(s') && s'.c == s.c && s' == Serve(s, r).0
  {
    ServeInv(s, r);
    hide *;
    Serve(s, r).0
  }

  /** Every request of the run meets its premises when its turn comes. */
  ghost predicate Legal(s: State, rs: seq<Request>)
    requires Inv(s)
    decreases |rs|
  {
    hide Inv, Serve;
    rs == [] || (Enabled(s, rs[0]) && Legal(Served(s, rs[0]), rs[1..]))
  }

  ghost function Run(s: State, rs: seq<Request>): (s': State)
    requires Inv(s) && Legal(s, rs)
    ensures Inv(s') && s'.c == s.c
    decreases |rs|
  {
    hide Inv, Serve, Enabled;
    if rs == [] then s else Run(Served(s, rs[0]), rs[1..])
  }

  ghost function FlatRun(s: State, flat: Flat, rs: seq<Request>): Flat
    requires Inv(s) && Legal(s, rs)
    decreases |rs|
  {
    hide Inv, Serve, Enabled;
    if rs == [] then flat else FlatRun(Served(s, rs[0]), FlatServe(s, flat, rs[0]), rs[1..])
  }

  lemma {:induction false} RunKeeps(s: State, flat: Flat, rs: seq<Request>)
    requires Inv(s) && Represents(s, flat) && Legal(s, rs)
    ensures Represents(Run(s, rs), FlatRun(s, flat, rs))
    decreases |rs|
  {
    hide Inv, Represents, Serve, Enabled, FlatServe;
    if rs != [] {
      ServeStep(s, flat, rs[0]);
      RunKeeps(Served(s, rs[0]), FlatServe(s, flat, rs[0]), rs[1..]);
    }
  }

  /** The empty memory of start-up. */
  ghost function Fresh(c: Config): (s: State)
    requires ConfigOk(c)
    ensures Inv(s) && s.c == c && s == Init(c) && Represents(s, map[])
  {
    InitInv(c);
    Init(c)
  }

  /** The memory server is a flat array per process: after any run of single requests, of
      the CPU and of the kernel in any order, under either replacement algorithm, a read
      answers with the last bytes written at the process, page and offset its address
      belongs to. */
  lemma MemoryIsFlat(c: Config, rs: seq<Request>, p: Place)
    requires ConfigOk(c) && Legal(Fresh(c), rs) && Enabled(Run(Fresh(c), rs), Read(p))
    ensures var s := Run(Fresh(c), rs);
            var o := OwnerAt(s, p);
            var reply := Serve(s, Read(p)).1;
            && o != Nobody && reply.Value?
            && Agrees(FlatRun(Fresh(c), map[], rs), o.id, o.page, o.off, reply.v)
  {
    hide Inv, Represents, Fresh, Serve, Enabled, Agrees, OwnerAt;
    RunKeeps(Fresh(c), map[], rs);
    ServeStep(Run(Fresh(c), rs), FlatRun(Fresh(c), map[], rs), Read(p));
  }

  /** In every reachable state forward and reverse map are inverse to each other, no slot
      has more pages in memory than frames, and a page that is in memory unmodified with a
      copy in swap equals that copy. */
  lemma MapsInverseInEveryRun(c: Config, rs: seq<Request>, i: nat, j: nat, q: nat)
    requires ConfigOk(c) && Legal(Fresh(c), rs)
    requires i < c.P && j < c.M && q < c.K
    ensures var s := Run(Fresh(c), rs);
            && i < |s.slots| && j < |s.slots[i].frames| && q < |s.slots[i].pages| && |s.slots[i].ram| == c.M
            && var sl := s.slots[i];
               && (sl.frames[j] == Frame(true, q) <==> sl.pages[q].present && sl.pages[q].frame == j)
               && |set x | 0 <= x < |sl.pages| && sl.pages[x].present| <= c.M
               && (sl.pages[q].present && sl.pages[q].inSwap && !sl.pages[q].modified ==>
                     && sl.id in s.swap && q < |s.swap[sl.id]| && 0 <= sl.pages[q].frame < c.M
                     && sl.ram[sl.pages[q].frame] == s.swap[sl.id][q])
  {
    var s := Run(Fresh(c), rs);
    hide Run, Legal, Fresh, Represents, PointerResident;
    SlotMaps(s, i);
    hide Inv;
    var sl := s.slots[i];
    var resident := set x: nat | x < |sl.pages| && sl.pages[x].present;
    assert resident == set x | 0 <= x < |sl.pages| && sl.pages[x].present;
    if sl.id == 0 {
      assert resident == {};
    } else {
      ResidentAtMostFrames(sl, s.swap[sl.id], c.T, resident);
    }
  }

  lemma SlotMaps(s: State, i: nat)
    requires Inv(s) && i < s.c.P
    ensures i < |s.slots|
    ensures var sl := s.slots[i];
            && |sl.pages| == s.c.K && |sl.frames| == s.c.M && |sl.ram| == s.c.M
            && (sl.id == 0 ==> Vacant(sl, s.c.T))
            && (sl.id != 0 ==> sl.id in s.swap && Good(sl, s.swap[sl.id], s.c.T))
  {
    assert SlotOk(s, s.slots[i]);
  }
}
