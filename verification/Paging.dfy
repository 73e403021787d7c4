/** The pages of one process slot (memoria/src/tabla_nivel_2.c, marcos.c and the
    page-fault path of atender_cpu.c), on values.

    Replacement is local, so a slot is seen here on its own: pages, frames and the
    clock pointer are numbered from 0 inside the slot, and `file` is the swap file
    of the process as a sequence of whole pages.  Module MemoryServer works on the
    global tables of the source and is proved to compute these functions.
 */
module Paging {
  import opened Replacement

  type Byte = b: int | 0 <= b < 256
  type Page = seq<Byte>

  /** `t_entrada_nivel_2`; `frame` is -1 until the page has been loaded once. */
  datatype Entry = Entry(frame: int, present: bool, used: bool, modified: bool, inSwap: bool)

  /** `t_marcos`: the reverse map. */
  datatype Frame = Frame(inUse: bool, page: int)

  /** A level-1 slot with the entries, frames and memory it owns; id 0 means free. */
  datatype Slot = Slot(id: nat, size: nat, pointer: int, pages: seq<Entry>, frames: seq<Frame>, ram: seq<Page>)

  const BLANK := Entry(-1, false, false, false, false)
  const FREE := Frame(false, -1)

  // ---------------------------------------------------------------- invariants

  /** Shape: page size T, as many page frames of memory as frames. */
  ghost predicate Shape(sl: Slot, T: nat) {
    && |sl.frames| == |sl.ram|
    && |sl.frames| > 0
    && (forall j | 0 <= j < |sl.ram| :: |sl.ram[j]| == T)
  }

  ghost predicate FileShape(file: seq<Page>, T: nat) {
    forall q | 0 <= q < |file| :: |file[q]| == T
  }

  /** Forward and reverse map are inverse to each other. */
  ghost predicate MapsInverse(sl: Slot) {
    && (forall q | 0 <= q < |sl.pages| && sl.pages[q].present ::
          0 <= sl.pages[q].frame < |sl.frames| && sl.frames[sl.pages[q].frame] == Frame(true, q))
    && (forall j | 0 <= j < |sl.frames| && sl.frames[j].inUse ::
          0 <= sl.frames[j].page < |sl.pages|
          && sl.pages[sl.frames[j].page].present
          && sl.pages[sl.frames[j].page].frame == j)
    && (forall j | 0 <= j < |sl.frames| && !sl.frames[j].inUse :: sl.frames[j] == FREE)
  }

  /** Swap is never stale: what is in swap and not modified in memory is the same
      in both places; pages of the process lie inside its file. */
  ghost predicate SwapFresh(sl: Slot, file: seq<Page>)
    requires MapsInverse(sl) && |sl.frames| == |sl.ram|
  {
    && (forall q | 0 <= q < |sl.pages| && (sl.pages[q].present || sl.pages[q].inSwap) :: q < |file|)
    && (forall q | 0 <= q < |sl.pages| && sl.pages[q].present && sl.pages[q].inSwap && !sl.pages[q].modified ::
          sl.ram[sl.pages[q].frame] == file[q])
  }

  /** Frames fill in order, and from the moment frame 0 is filled the pointer of a
      slot with two frames or more names a resident page. */
  ghost predicate PointerResident(sl: Slot) {
    && (forall j, k | 0 <= j < k < |sl.frames| && sl.frames[k].inUse :: sl.frames[j].inUse)
    && (|sl.frames| >= 2 && sl.frames[0].inUse ==>
          exists j :: 0 <= j < |sl.frames| && sl.frames[j] == Frame(true, sl.pointer))
    && (|sl.frames| > 0 && sl.frames[0].inUse && !sl.frames[|sl.frames| - 1].inUse ==>
          sl.pointer == sl.frames[0].page)
  }

  /** What it takes to say where the content of a page is. */
  ghost predicate Readable(sl: Slot, file: seq<Page>) {
    |sl.frames| == |sl.ram| && MapsInverse(sl) && SwapFresh(sl, file)
  }

  ghost predicate Good(sl: Slot, file: seq<Page>, T: nat) {
    Shape(sl, T) && FileShape(file, T) && Readable(sl, file) && PointerResident(sl)
  }

  /** A slot no process has: no page, no frame, pointer 0. */
  ghost predicate Vacant(sl: Slot, T: nat) {
    && Shape(sl, T)
    && sl.id == 0 && sl.size == 0 && sl.pointer == 0
    && (forall q | 0 <= q < |sl.pages| :: sl.pages[q] == BLANK)
    && (forall j | 0 <= j < |sl.frames| :: sl.frames[j] == FREE)
  }

  // ---------------------------------------------------------------- contents

  /** A page has a stable content once written: it is modified in memory or has a
      copy in swap.  Otherwise it holds whatever its frame held before. */
  predicate Known(e: Entry) {
    (e.present && e.modified) || e.inSwap
  }

  function Content(sl: Slot, file: seq<Page>, q: nat): Page
    requires Readable(sl, file)
    requires q < |sl.pages| && Known(sl.pages[q])
  {
    if sl.pages[q].present then sl.ram[sl.pages[q].frame] else file[q]
  }

  /** What a process sees: its pages with a stable content. */
  ghost function Image(sl: Slot, file: seq<Page>): (m: map<nat, Page>)
    requires Readable(sl, file)
  {
    map q: nat | q < |sl.pages| && Known(sl.pages[q]) :: Content(sl, file, q)
  }

  // ---------------------------------------------------------------- operations

  function SwapOut(sl: Slot, file: seq<Page>, q: nat): (Slot, seq<Page>)
    requires q < |sl.pages| && 0 <= sl.pages[q].frame < |sl.frames| && |sl.frames| == |sl.ram|
    requires sl.pages[q].modified ==> q < |file|
  {
    var e := sl.pages[q];
    (sl.(pages := sl.pages[q := e.(present := false, inSwap := e.inSwap || e.modified)],
         frames := sl.frames[e.frame := Frame(true, -1)]),
     if e.modified then file[q := sl.ram[e.frame]] else file)
  }

  function SwapIn(sl: Slot, file: seq<Page>, q: nat, j: nat): Slot
    requires q < |sl.pages| && j < |sl.frames| && |sl.frames| == |sl.ram|
    requires sl.pages[q].inSwap ==> q < |file|
  {
    var e := sl.pages[q];
    sl.(pages := sl.pages[q := Entry(j, true, false, false, e.inSwap)],
        ram := if e.inSwap then sl.ram[j := file[q]] else sl.ram,
        frames := sl.frames[j := Frame(true, q)])
  }

  /** `obtener_marco_libre`: the first free frame from j on, or |frames|. */
  function FirstFree(frames: seq<Frame>, j: nat): (k: nat)
    requires j <= |frames|
    ensures j <= k <= |frames|
    ensures forall i | j <= i < k :: frames[i].inUse
    ensures k < |frames| ==> !frames[k].inUse
    decreases |frames| - j
  {
    if j == |frames| || !frames[j].inUse then j else FirstFree(frames, j + 1)
  }

  /** `__cargar_tabla` remembers the last row whose page is the pointer, below n. */
  function PointerRow(frames: seq<Frame>, pointer: int, n: nat): (k: int)
    requires n <= |frames|
    ensures -1 <= k < n
    ensures k >= 0 ==> frames[k].page == pointer
    ensures forall i | 0 <= i < n && frames[i].page == pointer :: i <= k
  {
    if n == 0 then -1
    else if frames[n - 1].page == pointer then n - 1
    else PointerRow(frames, pointer, n - 1)
  }

  /** The index the table is rotated by: the row of the pointer, else no rotation. */
  function Hand(sl: Slot): (h: nat)
    ensures h < |sl.frames| || h == 0
  {
    var k := PointerRow(sl.frames, sl.pointer, |sl.frames|);
    if k < 0 then 0 else k
  }

  predicate AllResident(sl: Slot) {
    forall j | 0 <= j < |sl.frames| :: 0 <= sl.frames[j].page < |sl.pages|
  }

  function Rows(sl: Slot): (r: seq<Row>)
    requires AllResident(sl)
    ensures |r| == |sl.frames|
  {
    seq(|sl.frames|, j requires 0 <= j < |sl.frames| =>
      var q := sl.frames[j].page; Row(q, sl.pages[q].used, sl.pages[q].modified))
  }

  function Loaded(sl: Slot): (r: seq<Row>)
    requires AllResident(sl) && |sl.frames| > 0
    ensures |r| == |sl.frames|
  {
    Rows(sl)[Hand(sl)..] + Rows(sl)[..Hand(sl)]
  }

  /** `__descargar_tabla`: the use bits of the first n rows go back to the pages. */
  function Stored(pages: seq<Entry>, rows: seq<Row>, n: nat): (r: seq<Entry>)
    requires n <= |rows| && forall i | 0 <= i < |rows| :: rows[i].page < |pages|
    ensures |r| == |pages|
  {
    if n == 0 then pages
    else
      var r := Stored(pages, rows, n - 1);
      r[rows[n - 1].page := r[rows[n - 1].page].(used := rows[n - 1].used)]
  }

  /** `seleccionar_victima_*`: the local page chosen, the pointer moved to the row
      after it, and the bits stored back. */
  function SelectVictim(alg: Algorithm, sl: Slot): (r: (nat, Slot))
    requires AllResident(sl) && |sl.frames| > 0
    ensures r.0 < |sl.pages|
  {
    var rows := Loaded(sl);
    var c := Choose(alg, rows);
    LoadedInRange(sl);
    ChoicePagesInRange(alg, rows, |sl.pages|);
    var next := if c.victim == |rows| - 1 then 0 else c.victim + 1;
    (c.rows[c.victim].page,
     sl.(pointer := c.rows[next].page, pages := Stored(sl.pages, c.rows, |rows|)))
  }

  lemma LoadedInRange(sl: Slot)
    requires AllResident(sl) && |sl.frames| > 0
    ensures forall i | 0 <= i < |sl.frames| :: Loaded(sl)[i].page < |sl.pages|
  {
  }

  lemma ChoicePagesInRange(alg: Algorithm, rows: seq<Row>, n: nat)
    requires |rows| > 0 && forall i | 0 <= i < |rows| :: rows[i].page < n
    ensures forall i | 0 <= i < |rows| :: Choose(alg, rows).rows[i].page < n
  {
    forall i | 0 <= i < |rows| ensures Choose(alg, rows).rows[i].page < n {
      ChoiceOnlyClearsUse(alg, rows, i);
    }
  }

  /** `__obtener_marco`: the page becomes present; a free frame is used if there is
      one, else a victim makes room. */
  function PageIn(alg: Algorithm, sl: Slot, file: seq<Page>, q: nat): (Slot, seq<Page>)
    requires q < |sl.pages| && |sl.frames| > 0 && Readable(sl, file)
  {
    if sl.pages[q].present then (sl, file)
    else
      var j := FirstFree(sl.frames, 0);
      if j < |sl.frames| then
        var pointed := if j == 0 then sl.(pointer := q) else sl;
        (SwapIn(pointed, file, q, j), file)
      else
        var (victim, swept) := SelectVictim(alg, sl);
        SelectionFacts(alg, sl);
        var frame := swept.pages[victim].frame;
        var (out, file') := SwapOut(swept, file, victim);
        (SwapIn(out, file', q, frame), file')
  }

  /** `actualizar_lectura_pagina` / `actualizar_escritura_pagina` on the page a frame
      holds, with the bytes of a write. */
  function Touch(sl: Slot, j: nat): Slot
    requires j < |sl.frames| && 0 <= sl.frames[j].page < |sl.pages|
  {
    var q := sl.frames[j].page;
    sl.(pages := sl.pages[q := sl.pages[q].(used := true)])
  }

  function Patch(page: Page, off: nat, v: seq<Byte>): (r: Page)
    requires off + |v| <= |page|
    ensures |r| == |page|
    ensures forall k | 0 <= k < |page| :: r[k] == if off <= k < off + |v| then v[k - off] else page[k]
  {
    page[..off] + v + page[off + |v|..]
  }

  function Store(sl: Slot, j: nat, off: nat, v: seq<Byte>): Slot
    requires j < |sl.frames| == |sl.ram| && 0 <= sl.frames[j].page < |sl.pages|
    requires off + |v| <= |sl.ram[j]|
  {
    var q := sl.frames[j].page;
    sl.(pages := sl.pages[q := sl.pages[q].(used := true, modified := true)],
        ram := sl.ram[j := Patch(sl.ram[j], off, v)])
  }

  // ---------------------------------------------------------------- selection facts

  lemma {:induction false} StoredAt(pages: seq<Entry>, rows: seq<Row>, n: nat, q: nat)
    requires n <= |rows| && q < |pages|
    requires forall i | 0 <= i < |rows| :: rows[i].page < |pages|
    ensures Stored(pages, rows, n)[q] == pages[q].(used := Stored(pages, rows, n)[q].used)
    ensures (forall i | 0 <= i < n :: rows[i].page != q) ==> Stored(pages, rows, n)[q] == pages[q]
    ensures forall i | 0 <= i < n && rows[i].page == q && (forall k | i < k < n :: rows[k].page != q) ::
              Stored(pages, rows, n)[q].used == rows[i].used
  {
    if n > 0 {
      StoredAt(pages, rows, n - 1, q);
    }
  }

  lemma SelectionKeepsEntries(alg: Algorithm, sl: Slot)
    requires AllResident(sl) && |sl.frames| > 0
    ensures var swept := SelectVictim(alg, sl).1;
            && swept == sl.(pointer := swept.pointer, pages := swept.pages)
            && |swept.pages| == |sl.pages|
            && (forall q | 0 <= q < |sl.pages| :: swept.pages[q] == sl.pages[q].(used := swept.pages[q].used))
  {
    var rows := Loaded(sl);
    var c := Choose(alg, rows);
    LoadedInRange(sl);
    ChoicePagesInRange(alg, rows, |sl.pages|);
    forall q | 0 <= q < |sl.pages|
      ensures Stored(sl.pages, c.rows, |rows|)[q] == sl.pages[q].(used := Stored(sl.pages, c.rows, |rows|)[q].used)
    {
      StoredAt(sl.pages, c.rows, |rows|, q);
    }
  }

  /** The frame of row i of the loaded table. */
  function FrameOfRow(sl: Slot, i: nat): (j: nat)
    requires i < |sl.frames|
    ensures j < |sl.frames|
    ensures AllResident(sl) ==> Loaded(sl)[i] == Rows(sl)[j]
  {
    var h := Hand(sl);
    if i < |sl.frames| - h then h + i else i - (|sl.frames| - h)
  }

  /** The victim is the page of the chosen row's frame, the pointer the page of the
      frame after it. */
  lemma SelectionFrames(alg: Algorithm, sl: Slot)
    requires AllResident(sl) && |sl.frames| > 0
    ensures var v := Choose(alg, Loaded(sl)).victim;
            var next := if v == |sl.frames| - 1 then 0 else v + 1;
            && SelectVictim(alg, sl).0 == sl.frames[FrameOfRow(sl, v)].page
            && SelectVictim(alg, sl).1.pointer == sl.frames[FrameOfRow(sl, next)].page
  {
    var rows := Loaded(sl);
    var c := Choose(alg, rows);
    ChoiceOnlyClearsUse(alg, rows, c.victim);
    ChoiceOnlyClearsUse(alg, rows, if c.victim == |rows| - 1 then 0 else c.victim + 1);
  }

  lemma AllInUse(sl: Slot)
    requires MapsInverse(sl) && (forall j | 0 <= j < |sl.frames| :: sl.frames[j].inUse)
    ensures AllResident(sl)
  {
  }

  /** Use bits and pointer have no part in the maps. */
  lemma SameInverse(sl: Slot, swept: Slot)
    requires MapsInverse(sl) && swept == sl.(pointer := swept.pointer, pages := swept.pages)
    requires |swept.pages| == |sl.pages|
    requires forall q | 0 <= q < |sl.pages| :: swept.pages[q] == sl.pages[q].(used := swept.pages[q].used)
    ensures MapsInverse(swept)
  {
  }

  /** What a selection does to a slot whose frames are all in use: it only moves the
      pointer and clears use bits, and the victim is one of the resident pages. */
  lemma SelectionFacts(alg: Algorithm, sl: Slot)
    requires |sl.frames| > 0 && MapsInverse(sl) && (forall j | 0 <= j < |sl.frames| :: sl.frames[j].inUse)
    ensures AllResident(sl)
    ensures var (victim, swept) := SelectVictim(alg, sl);
            && sl.pages[victim].present
            && swept == sl.(pointer := swept.pointer, pages := swept.pages)
            && |swept.pages| == |sl.pages|
            && (forall q | 0 <= q < |sl.pages| :: swept.pages[q] == sl.pages[q].(used := swept.pages[q].used))
            && MapsInverse(swept)
            && (exists j :: 0 <= j < |sl.frames| && sl.frames[j] == Frame(true, swept.pointer))
            && (|sl.frames| >= 2 ==> swept.pointer != victim)
  {
    AllInUse(sl);
    SelectionKeepsEntries(alg, sl);
    SelectionFrames(alg, sl);
    hide SelectVictim;
    SameInverse(sl, SelectVictim(alg, sl).1);
    var v := Choose(alg, Loaded(sl)).victim;
    var next := if v == |sl.frames| - 1 then 0 else v + 1;
    assert sl.frames[FrameOfRow(sl, next)].inUse;
    assert FrameOfRow(sl, v) != FrameOfRow(sl, next) || |sl.frames| == 1;
  }
}
