/** The memory server as a machine over requests (memoria/src/atender_cpu.c,
    atender_kernel.c, tabla_nivel_1.c, tabla_suspendido.c).

    One step is one request served under `mutexMemoriaData`.  Table numbers and
    physical addresses are the global ones of the source.
 */
module VirtualMemory {
  import opened Replacement
  import opened Paging
  import opened PagingProofs

  /** entradasPorTabla, pages of a process (E squared), cantidadMarcosProceso,
      cantidadProcesosMax, tamanioPagina and the replacement algorithm. */
  datatype Config = Config(E: nat, K: nat, M: nat, P: nat, T: nat, alg: Algorithm)

  /** A row of `tablaSuspendidos`: size of the process and its pages in swap. */
  datatype Suspended = Suspended(size: nat, pages: seq<nat>)

  datatype State = State(c: Config, slots: seq<Slot>, swap: map<nat, seq<Page>>,
                         suspended: map<nat, Suspended>, nextId: nat)

  /** A level-2 table: slot and row; `TableNumber` is its number in the source. */
  datatype TableRef = TableRef(slot: nat, row: nat)

  /** A byte of main memory: slot, frame of the slot, offset; `AddressOf` is its
      physical address. */
  datatype Place = Place(slot: nat, frame: nat, off: nat)

  /** A logical address as the CPU splits it: the two table entries and the offset. */
  datatype Logical = Logical(e1: nat, e2: nat, off: nat)

  datatype Request =
    | Create(size: nat)
    | Table(id: nat, e1: nat)
    | GetFrame(table: TableRef, e2: nat)
    | Read(at: Place)
    | Write(at: Place, v: seq<Byte>)
    | Suspend(id: nat)
    | Finish(id: nat)

  datatype Reply = Ok | Refused | Id(id: nat) | Tables(table: TableRef) | At(place: Place) | Value(v: seq<Byte>)

  const WORD := 4

  /** Page number inside a process of entry e2 of its table number e1. */
  function PageNo(c: Config, e1: nat, e2: nat): nat {
    e1 * c.E + e2
  }

  // ---------------------------------------------------------------- lookups

  /** First slot from i on with this id, or |slots|. */
  function FindSlot(slots: seq<Slot>, id: nat, i: nat): (k: nat)
    requires i <= |slots|
    ensures i <= k <= |slots|
    ensures forall x | i <= x < k :: slots[x].id != id
    ensures k < |slots| ==> slots[k].id == id
    decreases |slots| - i
  {
    if i == |slots| || slots[i].id == id then i else FindSlot(slots, id, i + 1)
  }

  predicate HasFree(s: State) {
    FindSlot(s.slots, 0, 0) < |s.slots|
  }

  predicate Active(s: State, id: nat) {
    id != 0 && FindSlot(s.slots, id, 0) < |s.slots|
  }

  // ---------------------------------------------------------------- invariant

  ghost predicate ConfigOk(c: Config) {
    c.E > 0 && c.M > 0 && c.P > 0 && c.T > 0 && c.K == c.E * c.E
  }

  ghost predicate SlotOk(s: State, sl: Slot)
    requires s.c.T > 0
  {
    && |sl.pages| == s.c.K && |sl.frames| == s.c.M
    && (sl.id == 0 ==> Vacant(sl, s.c.T))
    && (sl.id != 0 ==>
          && sl.id in s.swap && sl.id !in s.suspended
          && |s.swap[sl.id]| == sl.size / s.c.T
          && Good(sl, s.swap[sl.id], s.c.T))
  }

  ghost predicate SuspendedOk(s: State, id: nat)
    requires s.c.T > 0 && id in s.suspended
  {
    && id in s.swap
    && |s.swap[id]| == s.suspended[id].size / s.c.T
    && FileShape(s.swap[id], s.c.T)
    && forall q | q in s.suspended[id].pages :: q < |s.swap[id]| && q < s.c.K
  }

  ghost predicate SlotsOk(s: State)
    requires s.c.T > 0
  {
    forall i | 0 <= i < |s.slots| :: SlotOk(s, s.slots[i])
  }

  ghost predicate IdsDistinct(slots: seq<Slot>) {
    forall i, k | 0 <= i < k < |slots| && slots[i].id != 0 :: slots[i].id != slots[k].id
  }

  ghost predicate AllSuspendedOk(s: State)
    requires s.c.T > 0
  {
    forall id | id in s.suspended :: SuspendedOk(s, id)
  }

  /** A process is live while it has a swap file; it is then active or suspended. */
  ghost predicate LiveOk(s: State) {
    && 0 < s.nextId
    && forall id | id in s.swap ::
         0 < id < s.nextId && |s.swap[id]| <= s.c.K && (id in s.suspended || Active(s, id))
  }

  /** Every live process is active in exactly one slot or suspended, never both. */
  ghost predicate Inv(s: State) {
    ConfigOk(s.c) && |s.slots| == s.c.P && SlotsOk(s) && IdsDistinct(s.slots) && AllSuspendedOk(s) && LiveOk(s)
  }

  // ---------------------------------------------------------------- initial state

  function BlankSlot(c: Config): Slot {
    Slot(0, 0, 0, seq(c.K, q => BLANK), seq(c.M, j => FREE), seq(c.M, j => seq(c.T, k => 0)))
  }

  function Init(c: Config): State {
    State(c, seq(c.P, i => BlankSlot(c)), map[], map[], 1)
  }

  lemma InitInv(c: Config)
    requires ConfigOk(c)
    ensures Inv(Init(c))
  {
  }

  // ---------------------------------------------------------------- suspension

  function KnownPages(pages: seq<Entry>, n: nat): (r: seq<nat>)
    requires n <= |pages|
    ensures forall q :: q in r <==> 0 <= q < n && Known(pages[q])
  {
    if n == 0 then []
    else KnownPages(pages, n - 1) + if Known(pages[n - 1]) then [n - 1] else []
  }

  /** The swap file once every present and modified page has been written out. */
  function FlushedFile(sl: Slot, file: seq<Page>): (r: seq<Page>)
    requires Readable(sl, file)
    ensures |r| == |file|
  {
    seq(|file|, q requires 0 <= q < |file| =>
      if q < |sl.pages| && sl.pages[q].present && sl.pages[q].modified then sl.ram[sl.pages[q].frame] else file[q])
  }

  /** The slot given back, the frames that were in use zeroed. */
  function Emptied(sl: Slot, T: nat): Slot
    requires |sl.frames| == |sl.ram|
  {
    Slot(0, 0, 0, seq(|sl.pages|, q => BLANK), seq(|sl.frames|, j => FREE),
         seq(|sl.ram|, j requires 0 <= j < |sl.ram| => if sl.frames[j].inUse then seq(T, k => 0) else sl.ram[j]))
  }

  /** The slot of a finished process: tables cleared, memory left as it was. */
  function Dropped(sl: Slot): Slot {
    Slot(0, 0, 0, seq(|sl.pages|, q => BLANK), seq(|sl.frames|, j => FREE), sl.ram)
  }

  function DoSuspend(s: State, id: nat): State
    requires Inv(s) && Active(s, id)
  {
    var i := FindSlot(s.slots, id, 0);
    var sl := s.slots[i];
    s.(slots := s.slots[i := Emptied(sl, s.c.T)],
       swap := s.swap[id := FlushedFile(sl, s.swap[id])],
       suspended := s.suspended[id := Suspended(sl.size, KnownPages(sl.pages, |sl.pages|))])
  }

  function Woken(sl: Slot, id: nat, sus: Suspended): Slot {
    sl.(id := id, size := sus.size,
        pages := seq(|sl.pages|, q requires 0 <= q < |sl.pages| =>
                   if q in sus.pages then sl.pages[q].(inSwap := true) else sl.pages[q]))
  }

  function Wake(s: State, id: nat): State
    requires id in s.suspended && HasFree(s)
  {
    var i := FindSlot(s.slots, 0, 0);
    s.(slots := s.slots[i := Woken(s.slots[i], id, s.suspended[id])], suspended := s.suspended - {id})
  }

  // ---------------------------------------------------------------- requests

  /** Whose byte a physical address is: the reverse map of frames. */
  datatype Owner = Nobody | Owner(id: nat, page: nat, off: nat)

  function OwnerAt(s: State, p: Place): Owner {
    if p.slot < |s.slots| && p.frame < |s.slots[p.slot].frames|
       && s.slots[p.slot].frames[p.frame].inUse && s.slots[p.slot].frames[p.frame].page >= 0
    then Owner(s.slots[p.slot].id, s.slots[p.slot].frames[p.frame].page, p.off)
    else Nobody
  }

  /** What the callers guarantee: ids are live, numbers are in range, the page lies
      inside the process and a word inside one page; waking up finds a slot. */
  predicate Enabled(s: State, r: Request) {
    match r
    case Create(size) => true
    case Table(id, e1) => id in s.swap && e1 < s.c.E && (id in s.suspended ==> HasFree(s))
    case GetFrame(t, e2) =>
      && t.slot < |s.slots| && t.row < s.c.E && e2 < s.c.E
      && s.slots[t.slot].id in s.swap
      && PageNo(s.c, t.row, e2) < |s.swap[s.slots[t.slot].id]|
    case Read(p) => OwnerAt(s, p) != Nobody && p.off + WORD <= s.c.T
    case Write(p, v) => OwnerAt(s, p) != Nobody && |v| == WORD && p.off + WORD <= s.c.T
    case Suspend(id) => id in s.swap
    case Finish(id) => id in s.swap
  }

  function ServeCreate(s: State, size: nat): (State, Reply)
    requires s.c.T > 0
  {
    if size <= s.c.K * s.c.T && HasFree(s) then
      var i := FindSlot(s.slots, 0, 0);
      (s.(slots := s.slots[i := s.slots[i].(id := s.nextId, size := size)],
          swap := s.swap[s.nextId := seq(size / s.c.T, q => seq(s.c.T, k => 0))],
          nextId := s.nextId + 1),
       Id(s.nextId))
    else (s, Refused)
  }

  function ServeTable(s: State, id: nat, e1: nat): (State, Reply)
    requires Enabled(s, Table(id, e1))
  {
    var s' := if id in s.suspended then Wake(s, id) else s;
    (s', Tables(TableRef(FindSlot(s'.slots, id, 0), e1)))
  }

  function ServeFrame(s: State, t: TableRef, e2: nat): (State, Reply)
    requires Inv(s) && Enabled(s, GetFrame(t, e2))
  {
    hide Inv, PageIn, Shape, FileShape, PointerResident, SwapFresh, MapsInverse, Vacant;
    var id := s.slots[t.slot].id;
    var q := PageNo(s.c, t.row, e2);
    FrameDefined(s, t, e2);
    var (sl, file) := PageIn(s.c.alg, s.slots[t.slot], s.swap[id], q);
    (s.(slots := s.slots[t.slot := sl], swap := s.swap[id := file]),
     At(Place(t.slot, sl.pages[q].frame, 0)))
  }

  /** The page asked for is one of the slot's, and it ends up in one of its frames. */
  lemma FrameDefined(s: State, t: TableRef, e2: nat)
    requires Inv(s) && Enabled(s, GetFrame(t, e2))
    ensures var q := PageNo(s.c, t.row, e2);
            var sl := s.slots[t.slot];
            && s.c.T > 0 && q < |sl.pages| && SlotOk(s, sl) && sl.id != 0
            && Good(sl, s.swap[sl.id], s.c.T) && |sl.frames| > 0 && |sl.frames| == s.c.M
            && q < |PageIn(s.c.alg, sl, s.swap[sl.id], q).0.pages|
            && 0 <= PageIn(s.c.alg, sl, s.swap[sl.id], q).0.pages[q].frame
  {
    var q := PageNo(s.c, t.row, e2);
    var sl := s.slots[t.slot];
    assert SlotOk(s, sl) && |s.swap[sl.id]| <= s.c.K;
    PageInKeeps(s.c.alg, sl, s.swap[sl.id], s.c.T, q);
    hide Inv, PageIn;
  }

  function ServeRead(s: State, p: Place): (State, Reply)
    requires Inv(s) && Enabled(s, Read(p))
  {
    PlaceDefined(s, p);
    hide Inv;
    var sl := s.slots[p.slot];
    (s.(slots := s.slots[p.slot := Touch(sl, p.frame)]), Value(sl.ram[p.frame][p.off..p.off + WORD]))
  }

  lemma PlaceDefined(s: State, p: Place)
    requires Inv(s) && OwnerAt(s, p) != Nobody
    ensures var sl := s.slots[p.slot];
            && 0 <= sl.frames[p.frame].page < |sl.pages| && sl.id != 0
            && |sl.ram| == |sl.frames| && |sl.ram[p.frame]| == s.c.T
  {
    assert SlotOk(s, s.slots[p.slot]);
    hide Inv;
  }

  function ServeWrite(s: State, p: Place, v: seq<Byte>): (State, Reply)
    requires Inv(s) && Enabled(s, Write(p, v))
  {
    PlaceDefined(s, p);
    hide Inv;
    (s.(slots := s.slots[p.slot := Store(s.slots[p.slot], p.frame, p.off, v)]), Ok)
  }

  function ServeSuspend(s: State, id: nat): (State, Reply)
    requires Inv(s) && Enabled(s, Suspend(id))
  {
    (if id in s.suspended then s else DoSuspend(s, id), Ok)
  }

  function ServeFinish(s: State, id: nat): (State, Reply)
    requires Inv(s) && Enabled(s, Finish(id))
  {
    if id in s.suspended then (s.(suspended := s.suspended - {id}, swap := s.swap - {id}), Ok)
    else
      var i := FindSlot(s.slots, id, 0);
      (s.(slots := s.slots[i := Dropped(s.slots[i])], swap := s.swap - {id}), Ok)
  }
}
