/** The memory server with the tables of the source: level-1 slots, level-2 tables,
    frames and main memory as global arrays indexed by the global numbers.

    The ghost field `st` is the machine state of VirtualMemory the arrays stand for;
    `Valid` ties the two together, and every method is proved to take `st` where the
    corresponding function of Paging or VirtualMemory takes it.
 */
module MemoryServer {
  import opened Arith
  import opened Replacement
  import opened Paging
  import opened PagingProofs
  import opened VirtualMemory
  import opened Addressing
  import opened MemoryProofs

  /** `t_tabla_nivel_1`. */
  datatype Level1 = Level1(id: nat, size: nat, tables: seq<nat>, frames: seq<nat>, pointer: int)

  // ---------------------------------------------------------------- global forms

  /** A level-2 entry holds a global frame number. */
  function GlobalEntry(c: Config, slot: nat, e: Entry): Entry {
    e.(frame := if e.frame < 0 then -1 else FrameNumber(c, slot, e.frame))
  }

  /** The global number of page q of a slot. */
  function GlobalOf(c: Config, slot: nat, q: nat): nat {
    slot * c.K + q
  }

  function GlobalFrame(c: Config, slot: nat, f: Frame): Frame {
    f.(page := if f.page < 0 then -1 else GlobalOf(c, slot, f.page))
  }

  function RowOfTable(c: Config, sus: Suspended): seq<nat> {
    [sus.size, |sus.pages|] + sus.pages
  }

  predicate TableAt(c: Config, t: nat, r: TableRef) {
    r.slot < c.P && r.row < c.E && t == TableNumber(c, r)
  }

  predicate FrameAt(c: Config, f: nat, i: nat, j: nat) {
    i < c.P && j < c.M && f == FrameNumber(c, i, j)
  }

  function PutSlot(s: State, i: nat, sl: Slot): State
    requires i < |s.slots|
  {
    s.(slots := s.slots[i := sl])
  }

  lemma RowBounds(c: Config, row: nat, e: nat)
    requires ConfigOk(c) && row < c.E && e <= c.E
    ensures PageNo(c, row, e) <= c.K && PageNo(c, row, 0) + e == PageNo(c, row, e)
    ensures PageNo(c, row, c.E) == PageNo(c, row + 1, 0)
    ensures e < c.E ==> PageNo(c, row, e) < c.K && PageNo(c, row, e + 1) == PageNo(c, row, e) + 1
  {
    MulMonotone(row + 1, c.E, c.E);
  }

  lemma PageNoBelow(c: Config, a: nat, b: nat)
    requires ConfigOk(c) && a < c.E && b < c.E
    ensures PageNo(c, a, b) < c.K
  {
    PairBelow(a, b, c.E, c.E);
  }

  lemma PageNoInjective(c: Config, a: nat, b: nat, a': nat, b': nat)
    requires b < c.E && b' < c.E && PageNo(c, a, b) == PageNo(c, a', b')
    ensures a == a' && b == b'
  {
    QuotientUnique(c.E, a, b, a', b');
  }

  lemma TableNumberInjective(c: Config, r: TableRef, r': TableRef)
    requires r.row < c.E && r'.row < c.E && TableNumber(c, r) == TableNumber(c, r')
    ensures r == r'
  {
    QuotientUnique(c.E, r.slot, r.row, r'.slot, r'.row);
  }

  lemma FrameNumberInjective(c: Config, i: nat, j: nat, i': nat, j': nat)
    requires j < c.M && j' < c.M && FrameNumber(c, i, j) == FrameNumber(c, i', j')
    ensures i == i' && j == j'
  {
    QuotientUnique(c.M, i, j, i', j');
  }

  /** Row and column of page q, and every way the source takes its global number apart. */
  lemma PageParts(c: Config, i: nat, q: nat)
    requires ConfigOk(c) && i < c.P && q < c.K
    ensures 0 <= q / c.E < c.E && 0 <= q % c.E < c.E && PageNo(c, q / c.E, q % c.E) == q
    ensures c.E * c.E > 0
    ensures var p := GlobalOf(c, i, q);
            && p / c.E == TableNumber(c, TableRef(i, q / c.E))
            && p % (c.E * c.E) == q && p % (c.E * c.E) % c.E == q % c.E
            && p / (c.E * c.E) == i && p % (c.E * c.E) / c.E == q / c.E
  {
    DivBelow(q, c.E, c.E);
    var r := TableRef(i, q / c.E);
    GlobalPageBySlot(c, r, q % c.E);
    GlobalPageInverts(c, r, q % c.E);
  }

  lemma GlobalOfPage(c: Config, r: TableRef, e: nat)
    requires ConfigOk(c)
    ensures GlobalPage(c, TableNumber(c, r), e) == GlobalOf(c, r.slot, PageNo(c, r.row, e))
  {
    GlobalPageBySlot(c, r, e);
  }

  /** memcpy into an array. */
  method MemCopy(a: array<Byte>, base: nat, v: seq<Byte>)
    requires base + |v| <= a.Length
    modifies a
    ensures forall x | 0 <= x < a.Length :: a[x] == if base <= x < base + |v| then v[x - base] else old(a[x])
  {
    var k := 0;
    while k < |v|
      invariant k <= |v|
      invariant forall x | 0 <= x < a.Length :: a[x] == if base <= x < base + k then v[x - base] else old(a[x])
    {
      a[base + k] := v[k];
      k := k + 1;
    }
  }

  /** n entries from `base` on set to the blank entry. */
  function RowBlanked(pages: seq<Entry>, base: nat, n: nat): (r: seq<Entry>)
    ensures |r| == |pages|
    ensures forall q | 0 <= q < |pages| :: r[q] == if base <= q < base + n then BLANK else pages[q]
  {
    seq(|pages|, q requires 0 <= q < |pages| => if base <= q < base + n then BLANK else pages[q])
  }

  /** The first n frames freed. */
  function FreedUpTo(frames: seq<Frame>, n: nat): (r: seq<Frame>)
    ensures |r| == |frames|
    ensures forall j | 0 <= j < |frames| :: r[j] == if j < n then FREE else frames[j]
  {
    seq(|frames|, j requires 0 <= j < |frames| => if j < n then FREE else frames[j])
  }

  // ---------------------------------------------------------------- a suspension half way

  /** The slot of a process being suspended: the first n pages are out of memory and the
      entries below `lo` have been cleared. */
  function Parked(sl: Slot, T: nat, n: nat, lo: nat): (r: Slot)
    requires |sl.frames| == |sl.ram|
    ensures |r.pages| == |sl.pages| && |r.frames| == |sl.frames| && |r.ram| == |sl.ram|
  {
    sl.(pages := seq(|sl.pages|, q requires 0 <= q < |sl.pages| =>
                   var e := sl.pages[q];
                   if q < lo then BLANK
                   else if q < n && e.present then e.(present := false, inSwap := e.inSwap || e.modified)
                   else e),
        frames := seq(|sl.frames|, j requires 0 <= j < |sl.frames| =>
                    if sl.frames[j].inUse && sl.frames[j].page < n then Frame(true, -1) else sl.frames[j]),
        ram := seq(|sl.ram|, j requires 0 <= j < |sl.ram| =>
                 if sl.frames[j].inUse && sl.frames[j].page < n then seq(T, k => 0) else sl.ram[j]))
  }

  function ParkedFile(sl: Slot, file: seq<Page>, n: nat): (r: seq<Page>)
    ensures |r| == |file|
  {
    seq(|file|, q requires 0 <= q < |file| =>
      if q < n && q < |sl.pages| && sl.pages[q].present && sl.pages[q].modified && 0 <= sl.pages[q].frame < |sl.ram|
      then sl.ram[sl.pages[q].frame] else file[q])
  }

  lemma ParkedStart(sl: Slot, file: seq<Page>, T: nat)
    requires Good(sl, file, T)
    ensures Parked(sl, T, 0, 0) == sl && ParkedFile(sl, file, 0) == file
  {
  }

  /** Page n, not yet treated, is as it was; if it is not present nothing is to be done. */
  lemma ParkedNext(sl: Slot, file: seq<Page>, T: nat, n: nat, lo: nat)
    requires Good(sl, file, T) && lo <= n < |sl.pages|
    ensures var cur := Parked(sl, T, n, lo);
            && cur.pages[n] == sl.pages[n] && |cur.frames| == |cur.ram| == |sl.frames| && cur.id == sl.id
            && (sl.pages[n].present ==>
                  && 0 <= sl.pages[n].frame < |sl.frames| && n < |file|
                  && |cur.ram[sl.pages[n].frame]| == T)
            && (!sl.pages[n].present ==>
                  Parked(sl, T, n + 1, lo) == cur && ParkedFile(sl, file, n + 1) == ParkedFile(sl, file, n))
            && Known(sl.pages[n]) == Parked(sl, T, n + 1, lo).pages[n].inSwap
  {
  }

  /** Swapping page n out and zeroing its frame treats one more page. */
  lemma ParkedOneMore(sl: Slot, file: seq<Page>, T: nat, n: nat, lo: nat)
    requires Good(sl, file, T) && lo <= n < |sl.pages| && sl.pages[n].present
    ensures var j := sl.pages[n].frame;
            var cur := Parked(sl, T, n, lo);
            && 0 <= j < |sl.frames| && cur.pages[n] == sl.pages[n] && n < |file|
            && var (out, file') := Paging.SwapOut(cur, ParkedFile(sl, file, n), n);
               && Parked(sl, T, n + 1, lo) == out.(ram := out.ram[j := seq(T, k => 0)])
               && ParkedFile(sl, file, n + 1) == file'
  {
    hide PointerResident;
    var j := sl.pages[n].frame;
    var cur := Parked(sl, T, n, lo);
    var next := Parked(sl, T, n + 1, lo);
    var (out, file') := Paging.SwapOut(cur, ParkedFile(sl, file, n), n);
    assert sl.frames[j] == Frame(true, n);
    assert next.pages == out.pages;
    assert next.frames == out.frames;
    assert next.ram == out.ram[j := seq(T, k => 0)];
    assert ParkedFile(sl, file, n + 1) == file';
  }

  lemma ParkedCleared(sl: Slot, T: nat, n: nat, lo: nat, len: nat)
    requires |sl.frames| == |sl.ram| && n == lo + len
    ensures var cur := Parked(sl, T, n, lo);
            cur.(pages := RowBlanked(cur.pages, lo, len)) == Parked(sl, T, n, n)
  {
    var cur := Parked(sl, T, n, lo);
    assert RowBlanked(cur.pages, lo, len) == Parked(sl, T, n, n).pages;
  }

  lemma ParkedAll(sl: Slot, file: seq<Page>, T: nat)
    requires Good(sl, file, T)
    ensures var all := Parked(sl, T, |sl.pages|, |sl.pages|);
            all.(id := 0, size := 0, pointer := 0, frames := seq(|sl.frames|, j => FREE)) == Emptied(sl, T)
    ensures ParkedFile(sl, file, |sl.pages|) == FlushedFile(sl, file)
  {
    hide PointerResident;
    assert Parked(sl, T, |sl.pages|, |sl.pages|).pages == Emptied(sl, T).pages;
    assert Parked(sl, T, |sl.pages|, |sl.pages|).ram == Emptied(sl, T).ram;
  }

  /** Slot i is the only one with this id. */
  ghost predicate IdIn(s: State, c: Config, id: nat, i: nat) {
    && i < c.P == |s.slots| && s.slots[i].id == id
    && forall k | 0 <= k < c.P && k != i :: s.slots[k].id != id
  }

  /** s is the state half way through the suspension of slot i, which began in s0. */
  ghost predicate Parking(s: State, c: Config, s0: State, i: nat, file: seq<Page>, n: nat, lo: nat) {
    && i < |s0.slots| && ConfigOk(c) && s0.c == c
    && var sl := s0.slots[i];
       && |sl.pages| == c.K && |sl.frames| == c.M && Good(sl, file, c.T)
       && lo <= n <= c.K
       && s == WithSlot(s0, i, Parked(sl, c.T, n, lo), ParkedFile(sl, file, n))
  }

  lemma WithSlotTwice(s: State, i: nat, a: Slot, f: seq<Page>, b: Slot, g: seq<Page>)
    requires i < |s.slots| && a.id == s.slots[i].id
    ensures WithSlot(WithSlot(s, i, a, f), i, b, g) == WithSlot(s, i, b, g)
    ensures var s' := WithSlot(s, i, a, f);
            |s'.slots| == |s.slots| && s'.slots[i] == a && a.id in s'.swap && s'.swap[a.id] == f
  {
  }

  lemma ParkingFacts(s: State, c: Config, s0: State, id: nat, i: nat, file: seq<Page>, n: nat, lo: nat)
    requires Parking(s, c, s0, i, file, n, lo) && IdIn(s0, c, id, i)
    ensures ConfigOk(c) && IdIn(s, c, id, i) && s.c == c && |s0.slots[i].pages| == c.K && lo <= n <= c.K
  {
    var sl := s0.slots[i];
    assert |sl.frames| == |sl.ram|;
    ParkedId(sl, c.T, n, lo);
    hide Good, Parked, ParkedFile;
  }

  lemma ParkedId(sl: Slot, T: nat, n: nat, lo: nat)
    requires |sl.frames| == |sl.ram|
    ensures Parked(sl, T, n, lo).id == sl.id
  {
  }

  lemma ParkingHere(s: State, c: Config, s0: State, i: nat, file: seq<Page>, n: nat, lo: nat)
    requires Parking(s, c, s0, i, file, n, lo) && n < c.K
    ensures i < |s0.slots| == |s.slots| && n < |s0.slots[i].pages| == |s.slots[i].pages|
    ensures var y := s0.slots[i].pages[n];
            && s.slots[i].pages[n] == y
            && (y.present ==> 0 <= y.frame < c.M)
            && (!y.present ==> Parking(s, c, s0, i, file, n + 1, lo))
  {
    var sl := s0.slots[i];
    ParkedNext(sl, file, c.T, n, lo);
    WithSlotTwice(s0, i, Parked(sl, c.T, n, lo), ParkedFile(sl, file, n), sl, file);
    hide Good, Parked, ParkedFile;
  }

  lemma ParkingDone(s: State, c: Config, s0: State, i: nat, file: seq<Page>, n: nat, lo: nat)
    requires Parking(s, c, s0, i, file, n + 1, lo) && n < c.K && lo <= n
    ensures i < |s0.slots| == |s.slots| && n < |s0.slots[i].pages| == |s.slots[i].pages|
    ensures s.slots[i].pages[n].inSwap == Known(s0.slots[i].pages[n])
  {
    var sl := s0.slots[i];
    ParkedNext(sl, file, c.T, n, lo);
    WithSlotTwice(s0, i, Parked(sl, c.T, n + 1, lo), ParkedFile(sl, file, n + 1), sl, file);
    hide Good, Parked, ParkedFile;
  }

  lemma ParkingCleared(s: State, c: Config, s0: State, i: nat, file: seq<Page>, n: nat, lo: nat, len: nat)
    requires Parking(s, c, s0, i, file, n, lo) && n == lo + len
    ensures i < |s.slots|
    ensures var sl := s.slots[i];
            Parking(PutSlot(s, i, sl.(pages := RowBlanked(sl.pages, lo, len))), c, s0, i, file, n, n)
  {
    var sl := s0.slots[i];
    assert |sl.frames| == |sl.ram|;
    ParkedCleared(sl, c.T, n, lo, len);
    hide Good, Parked, ParkedFile;
  }

  lemma ParkingStart(s: State, c: Config, id: nat)
    requires Inv(s) && Active(s, id) && s.c == c
    ensures var i := FindSlot(s.slots, id, 0);
            && id in s.swap && ConfigOk(c) && PageNo(c, 0, 0) == 0 && PageNo(c, c.E, 0) == c.K
            && i < |s.slots| && |s.slots[i].pages| == c.K
            && IdIn(s, c, id, i) && Parking(s, c, s, i, s.swap[id], 0, 0)
  {
    ActiveSlot(s, id);
    hide Readable, PointerResident, Shape, FileShape, Vacant;
    var i := FindSlot(s.slots, id, 0);
    ParkedStart(s.slots[i], s.swap[id], c.T);
    assert s.slots[i := s.slots[i]] == s.slots;
    assert s.swap[id := s.swap[id]] == s.swap;
  }

  /** All pages out and all tables clear: what is left is clearing the slot itself and
      entering the row in the table of suspended processes. */
  lemma ParkingEnd(s: State, c: Config, s0: State, id: nat, file: seq<Page>)
    requires Inv(s0) && Active(s0, id) && s0.c == c && id in s0.swap && file == s0.swap[id]
    requires Parking(s, c, s0, FindSlot(s0.slots, id, 0), file, c.K, c.K)
    ensures var i := FindSlot(s0.slots, id, 0);
            && IdIn(s, c, id, i) && |s0.slots[i].pages| == c.K
            && var s1 := PutSlot(s, i, s.slots[i].(id := 0, size := 0, pointer := 0, frames := seq(c.M, j => FREE)));
               var sus := Suspended(s0.slots[i].size, KnownPages(s0.slots[i].pages, c.K));
               && s1.suspended == s0.suspended
               && s1.(suspended := s1.suspended[id := sus]) == DoSuspend(s0, id)
  {
    ActiveSlot(s0, id);
    var i := FindSlot(s0.slots, id, 0);
    var sl := s0.slots[i];
    hide Inv, Good, Vacant, Parked, ParkedFile, Emptied, FlushedFile, KnownPages;
    ParkedAll(sl, file, c.T);
    ParkingFacts(s, c, s0, id, i, file, c.K, c.K);
  }

  // ---------------------------------------------------------------- creation

  /** A level-1 slot nobody has, with the tables and frames dealt out to it. */
  predicate BlankLevel1(c: Config, i: nat, x: Level1) {
    && x.id == 0 && x.size == 0 && x.pointer == 0
    && |x.tables| == c.E && (forall a | 0 <= a < c.E :: x.tables[a] == TableNumber(c, TableRef(i, a)))
    && |x.frames| == c.M && (forall j | 0 <= j < c.M :: x.frames[j] == FrameNumber(c, i, j))
  }

  /** `crear_tablas_de_nivel_1`: two counters deal out level-2 tables and frames. */
  method CreateLevel1(c: Config) returns (level1: array<Level1>)
    requires ConfigOk(c)
    ensures fresh(level1) && level1.Length == c.P
    ensures forall i | 0 <= i < c.P :: BlankLevel1(c, i, level1[i])
  {
    level1 := new Level1[c.P](_ => Level1(0, 0, [], [], 0));
    var nextTable, nextFrame := 0, 0;
    var i := 0;
    while i < c.P
      invariant i <= c.P && nextTable == i * c.E && nextFrame == i * c.M
      invariant forall k | 0 <= k < i :: BlankLevel1(c, k, level1[k])
    {
      var tables, frames := [], [];
      var j := 0;
      while j < c.E
        invariant j <= c.E && |tables| == j && nextTable == i * c.E + j
        invariant forall a | 0 <= a < j :: tables[a] == TableNumber(c, TableRef(i, a))
      {
        tables := tables + [nextTable];
        nextTable := nextTable + 1;
        j := j + 1;
      }
      j := 0;
      while j < c.M
        invariant j <= c.M && |frames| == j && nextFrame == i * c.M + j
        invariant forall a | 0 <= a < j :: frames[a] == FrameNumber(c, i, a)
      {
        frames := frames + [nextFrame];
        nextFrame := nextFrame + 1;
        j := j + 1;
      }
      level1[i] := Level1(0, 0, tables, frames, 0);
      i := i + 1;
    }
  }

  /** `crear_tablas_de_nivel_2`. */
  method CreateLevel2(c: Config) returns (level2: array2<Entry>)
    ensures fresh(level2) && level2.Length0 == c.P * c.E && level2.Length1 == c.E
    ensures forall t, e | 0 <= t < c.P * c.E && 0 <= e < c.E :: level2[t, e] == BLANK
  {
    level2 := new Entry[c.P * c.E, c.E]((_, _) => Entry(0, true, true, true, true));
    var t := 0;
    while t < c.P * c.E
      invariant t <= c.P * c.E
      invariant forall k, e | 0 <= k < t && 0 <= e < c.E :: level2[k, e] == BLANK
    {
      var e := 0;
      while e < c.E
        invariant e <= c.E
        invariant forall k, b | 0 <= k < t && 0 <= b < c.E :: level2[k, b] == BLANK
        invariant forall b | 0 <= b < e :: level2[t, b] == BLANK
      {
        level2[t, e] := BLANK;
        e := e + 1;
      }
      t := t + 1;
    }
  }

  /** `crear_marcos`. */
  method CreateFrames(n: nat) returns (frames: array<Frame>)
    ensures fresh(frames) && frames.Length == n && forall f | 0 <= f < n :: frames[f] == FREE
  {
    frames := new Frame[n](_ => Frame(true, 0));
    var f := 0;
    while f < n
      invariant f <= n && forall k | 0 <= k < f :: frames[k] == FREE
    {
      frames[f] := FREE;
      f := f + 1;
    }
  }

  /** The slots and frames that `memoria_config_get_procesos_totales` grants fit. */
  lemma MemoryFits(c: Config, total: nat)
    requires c.T * c.M > 0 && c.T > 0 && c.P == total / (c.T * c.M)
    ensures c.P * c.M <= total / c.T && c.P * c.M * c.T <= total
  {
    DivMod(total, c.T * c.M);
    assert c.P * c.M * c.T == c.P * (c.T * c.M);
    DivMod(total, c.T);
    if total / c.T < c.P * c.M {
      MulMonotone(total / c.T + 1, c.P * c.M, c.T);
    }
  }

  class Memory {
    const c: Config
    const level1: array<Level1>
    const level2: array2<Entry>
    const frames: array<Frame>
    const ram: array<Byte>
    var swap: map<nat, seq<Page>>
    var suspended: map<nat, seq<nat>>
    var nextId: nat
    /** The process whose swap file is mapped (`inicio_archivo`). */
    var mapped: nat
    ghost var st: State

    // -------------------------------------------------------------- coupling

    ghost predicate Dims()
      reads this`st
    {
      && ConfigOk(c) && st.c == c && |st.slots| == c.P
      && (forall i | 0 <= i < c.P ::
            |st.slots[i].pages| == c.K && |st.slots[i].frames| == c.M && |st.slots[i].ram| == c.M)
      && (forall i, j | 0 <= i < c.P && 0 <= j < c.M :: |st.slots[i].ram[j]| == c.T)
    }

    ghost predicate Level1Ok()
      requires Dims()
      reads this`st, level1
    {
      && level1.Length == c.P
      && forall i | 0 <= i < c.P ::
           && level1[i].id == st.slots[i].id && level1[i].size == st.slots[i].size
           && level1[i].pointer == st.slots[i].pointer
           && |level1[i].tables| == c.E
           && (forall a | 0 <= a < c.E :: level1[i].tables[a] == TableNumber(c, TableRef(i, a)))
           && |level1[i].frames| == c.M && (forall j | 0 <= j < c.M :: level1[i].frames[j] == FrameNumber(c, i, j))
    }

    ghost predicate Level2Ok()
      requires Dims()
      reads this`st, level2
    {
      && level2.Length0 == c.P * c.E && level2.Length1 == c.E
      && forall i, a, b | 0 <= i < c.P && 0 <= a < c.E && 0 <= b < c.E ::
           && TableNumber(c, TableRef(i, a)) < level2.Length0 && PageNo(c, a, b) < c.K
           && level2[TableNumber(c, TableRef(i, a)), b] == GlobalEntry(c, i, st.slots[i].pages[PageNo(c, a, b)])
    }

    ghost predicate FramesOk()
      requires Dims()
      reads this`st, frames
    {
      forall i, j | 0 <= i < c.P && 0 <= j < c.M ::
           && FrameNumber(c, i, j) < frames.Length
           && frames[FrameNumber(c, i, j)] == GlobalFrame(c, i, st.slots[i].frames[j])
    }

    ghost predicate RamOk()
      requires Dims()
      reads this`st, ram
    {
      forall i, j, k | 0 <= i < c.P && 0 <= j < c.M && 0 <= k < c.T ::
           && AddressOf(c, Place(i, j, k)) < ram.Length
           && ram[AddressOf(c, Place(i, j, k))] == st.slots[i].ram[j][k]
    }

    ghost predicate BigEnough() {
      frames.Length >= c.P * c.M && ram.Length >= c.P * c.M * c.T
    }

    ghost predicate TablesOk()
      reads this`st, this`swap, this`suspended, this`nextId
    {
      && st.swap == swap && st.nextId == nextId
      && suspended.Keys == st.suspended.Keys
      && forall id | id in suspended :: suspended[id] == RowOfTable(c, st.suspended[id])
    }

    ghost predicate Valid()
      reads this`st, this`swap, this`suspended, this`nextId, level1, level2, frames, ram
    {
      BigEnough() && Dims() && Level1Ok() && Level2Ok() && FramesOk() && RamOk() && TablesOk()
    }

    // A table that is not written keeps its coupling while the parts of `st` it stands
    // for stay the same.

    twostate lemma KeepsLevel1()
      requires old(Dims() && Level1Ok()) && Dims() && unchanged(level1)
      requires forall i | 0 <= i < c.P ::
                 && st.slots[i].id == old(st).slots[i].id && st.slots[i].size == old(st).slots[i].size
                 && st.slots[i].pointer == old(st).slots[i].pointer
      ensures Level1Ok()
    {
      hide TableNumber, FrameNumber;
    }

    twostate lemma KeepsLevel2()
      requires old(Dims() && Level2Ok()) && Dims() && unchanged(level2)
      requires forall i | 0 <= i < c.P :: st.slots[i].pages == old(st).slots[i].pages
      ensures Level2Ok()
    {
      hide TableNumber, PageNo, GlobalEntry, ConfigOk;
      forall i, a, b | 0 <= i < c.P && 0 <= a < c.E && 0 <= b < c.E
        ensures TableNumber(c, TableRef(i, a)) < level2.Length0 && PageNo(c, a, b) < c.K
        ensures level2[TableNumber(c, TableRef(i, a)), b] == GlobalEntry(c, i, st.slots[i].pages[PageNo(c, a, b)])
      {
        ghost var e := old(st).slots[i].pages[PageNo(c, a, b)];
        assert old(level2[TableNumber(c, TableRef(i, a)), b]) == GlobalEntry(c, i, e);
      }
    }

    twostate lemma KeepsFrames()
      requires old(Dims() && FramesOk()) && Dims() && unchanged(frames)
      requires forall i | 0 <= i < c.P :: st.slots[i].frames == old(st).slots[i].frames
      ensures FramesOk()
    {
      hide FrameNumber, GlobalFrame, ConfigOk;
      forall i, j | 0 <= i < c.P && 0 <= j < c.M
        ensures FrameNumber(c, i, j) < frames.Length
        ensures frames[FrameNumber(c, i, j)] == GlobalFrame(c, i, st.slots[i].frames[j])
      {
        assert old(frames[FrameNumber(c, i, j)]) == GlobalFrame(c, i, old(st).slots[i].frames[j]);
      }
    }

    twostate lemma KeepsRam()
      requires old(Dims() && RamOk()) && Dims() && unchanged(ram)
      requires forall i | 0 <= i < c.P :: st.slots[i].ram == old(st).slots[i].ram
      ensures RamOk()
    {
      hide AddressOf, ConfigOk;
      forall i, j, k | 0 <= i < c.P && 0 <= j < c.M && 0 <= k < c.T
        ensures AddressOf(c, Place(i, j, k)) < ram.Length
        ensures ram[AddressOf(c, Place(i, j, k))] == st.slots[i].ram[j][k]
      {
        assert old(ram[AddressOf(c, Place(i, j, k))]) == old(st).slots[i].ram[j][k];
      }
    }

    // -------------------------------------------------------------- start

    /** Start-up with `total` bytes of main memory (memoria.c, lines 90-106). */
    constructor (conf: Config, total: nat)
      requires ConfigOk(conf) && conf.T * conf.M > 0 && conf.P == total / (conf.T * conf.M)
      ensures Valid() && c == conf && st == Init(conf)
      ensures fresh(level1) && fresh(level2) && fresh(frames) && fresh(ram)
    {
      var slots := CreateLevel1(conf);
      var tables := CreateLevel2(conf);
      var reverse := CreateFrames(total / conf.T);
      c, level1, level2, frames := conf, slots, tables, reverse;
      ram := new Byte[total](_ => 0);
      swap, suspended, nextId, mapped := map[], map[], 1, 0;
      st := Init(conf);
      new;
      MemoryFits(c, total);
      assert Dims();
      assert Level1Ok();
      assert Level2Ok() by {
        hide Level1Ok;
        forall i, a, b | 0 <= i < c.P && 0 <= a < c.E && 0 <= b < c.E
          ensures TableNumber(c, TableRef(i, a)) < level2.Length0 && PageNo(c, a, b) < c.K
          ensures level2[TableNumber(c, TableRef(i, a)), b] == GlobalEntry(c, i, st.slots[i].pages[PageNo(c, a, b)])
        {
          TableInverts(c, TableRef(i, a));
          PageNoBelow(c, a, b);
        }
      }
      assert FramesOk() by {
        hide Level1Ok;
        forall i, j | 0 <= i < c.P && 0 <= j < c.M
          ensures FrameNumber(c, i, j) < frames.Length
          ensures frames[FrameNumber(c, i, j)] == GlobalFrame(c, i, st.slots[i].frames[j])
        {
          LocateInvertsAddress(c, Place(i, j, 0));
        }
      }
      assert RamOk() by {
        hide Level1Ok;
        forall i, j, k | 0 <= i < c.P && 0 <= j < c.M && 0 <= k < c.T
          ensures AddressOf(c, Place(i, j, k)) < ram.Length
          ensures ram[AddressOf(c, Place(i, j, k))] == st.slots[i].ram[j][k]
        {
          LocateInvertsAddress(c, Place(i, j, k));
        }
      }
    }

    // -------------------------------------------------------------- table accesses

    /** tablasDeNivel2[t].entradaNivel2[e], read. */
    method EntryAt(t: nat, e: nat, ghost r: TableRef) returns (x: Entry)
      requires Valid() && TableAt(c, t, r) && e < c.E
      ensures PageNo(c, r.row, e) < c.K
      ensures x == GlobalEntry(c, r.slot, st.slots[r.slot].pages[PageNo(c, r.row, e)])
    {
      hide Level1Ok, FramesOk, RamOk, TablesOk, GlobalEntry, TableNumber;
      assert r == TableRef(r.slot, r.row);
      PageNoBelow(c, r.row, e);
      x := level2[t, e];
    }

    /** tablasDeNivel2[t].entradaNivel2[e], assigned. */
    method SetEntry(t: nat, e: nat, x: Entry, ghost r: TableRef, ghost y: Entry)
      requires Valid() && TableAt(c, t, r) && e < c.E && x == GlobalEntry(c, r.slot, y)
      modifies this`st, level2
      ensures Valid() && PageNo(c, r.row, e) < c.K
      ensures var sl := old(st).slots[r.slot];
              st == PutSlot(old(st), r.slot, sl.(pages := sl.pages[PageNo(c, r.row, e) := y]))
    {
      hide BigEnough, FrameNumber, AddressOf, GlobalFrame, ConfigOk;
      PageNoBelow(c, r.row, e);
      level2[t, e] := x;
      ghost var sl := st.slots[r.slot];
      st := PutSlot(st, r.slot, sl.(pages := sl.pages[PageNo(c, r.row, e) := y]));
      assert Dims();
      KeepsLevel1();
      KeepsFrames();
      KeepsRam();
      assert Level2Ok() by {
        hide Level1Ok, FramesOk, RamOk, GlobalEntry;
        forall i, a, b | 0 <= i < c.P && 0 <= a < c.E && 0 <= b < c.E
          ensures TableNumber(c, TableRef(i, a)) < level2.Length0 && PageNo(c, a, b) < c.K
          ensures level2[TableNumber(c, TableRef(i, a)), b] == GlobalEntry(c, i, st.slots[i].pages[PageNo(c, a, b)])
        {
          if TableNumber(c, TableRef(i, a)) == t {
            TableNumberInjective(c, TableRef(i, a), r);
          }
          if PageNo(c, a, b) == PageNo(c, r.row, e) {
            PageNoInjective(c, a, b, r.row, e);
          }
        }
      }
    }

    /** marcos[f], read. */
    method GetFrameEntry(f: nat, ghost i: nat, ghost j: nat) returns (x: Frame)
      requires Valid() && FrameAt(c, f, i, j)
      ensures x == GlobalFrame(c, i, st.slots[i].frames[j])
    {
      x := frames[f];
    }

    /** marcos[f], assigned. */
    method SetFrame(f: nat, x: Frame, ghost i: nat, ghost j: nat, ghost y: Frame)
      requires Valid() && FrameAt(c, f, i, j) && x == GlobalFrame(c, i, y)
      modifies this`st, frames
      ensures Valid()
      ensures var sl := old(st).slots[i];
              st == PutSlot(old(st), i, sl.(frames := sl.frames[j := y]))
    {
      hide BigEnough, TableNumber, AddressOf, PageNo, GlobalEntry;
      frames[f] := x;
      ghost var sl := st.slots[i];
      st := PutSlot(st, i, sl.(frames := sl.frames[j := y]));
      assert Dims();
      KeepsLevel1();
      KeepsLevel2();
      KeepsRam();
      assert FramesOk() by {
        hide Level1Ok, Level2Ok, RamOk, GlobalFrame;
        forall i', j' | 0 <= i' < c.P && 0 <= j' < c.M
          ensures FrameNumber(c, i', j') < frames.Length
          ensures frames[FrameNumber(c, i', j')] == GlobalFrame(c, i', st.slots[i'].frames[j'])
        {
          if FrameNumber(c, i', j') == f {
            FrameNumberInjective(c, i', j', i, j);
          }
        }
      }
    }

    /** n bytes of main memory from physical address `base` on (memcpy out). */
    method GetBytes(base: nat, n: nat, ghost p: Place) returns (v: seq<Byte>)
      requires Valid() && p.slot < c.P && p.frame < c.M && p.off + n <= c.T && n > 0 && base == AddressOf(c, p)
      ensures v == st.slots[p.slot].ram[p.frame][p.off..p.off + n]
    {
      hide Level1Ok, Level2Ok, FramesOk, TablesOk, AddressOf, BigEnough;
      StretchInRam(p, n);
      v := ram[base..base + n];
      forall k | 0 <= k < n ensures v[k] == st.slots[p.slot].ram[p.frame][p.off + k] {
        ByteApart(Place(p.slot, p.frame, p.off + k), p, n);
      }
    }

    /** Bytes of main memory from physical address `base` on are overwritten (memcpy or
        memset); no other byte of any frame is touched. */
    method PutBytes(base: nat, v: seq<Byte>, ghost p: Place)
      requires Valid() && p.slot < c.P && p.frame < c.M && p.off + |v| <= c.T && |v| > 0 && base == AddressOf(c, p)
      modifies this`st, ram
      ensures Valid()
      ensures var sl := old(st).slots[p.slot];
              st == PutSlot(old(st), p.slot, sl.(ram := sl.ram[p.frame := Patch(sl.ram[p.frame], p.off, v)]))
    {
      StretchInRam(p, |v|);
      hide AddressOf, BigEnough, TableNumber, FrameNumber, PageNo, GlobalEntry, GlobalFrame;
      MemCopy(ram, base, v);
      ghost var sl := st.slots[p.slot];
      st := PutSlot(st, p.slot, sl.(ram := sl.ram[p.frame := Patch(sl.ram[p.frame], p.off, v)]));
      assert Dims();
      KeepsLevel1();
      KeepsLevel2();
      KeepsFrames();
      assert RamOk() by {
        hide Level1Ok, Level2Ok, FramesOk;
        forall i, j, k | 0 <= i < c.P && 0 <= j < c.M && 0 <= k < c.T
          ensures AddressOf(c, Place(i, j, k)) < ram.Length
          ensures ram[AddressOf(c, Place(i, j, k))] == st.slots[i].ram[j][k]
        {
          ByteApart(Place(i, j, k), p, |v|);
          assert old(st).slots[i].ram[j][k] == old(ram[AddressOf(c, Place(i, j, k))]);
        }
      }
    }

    lemma StretchInRam(p: Place, n: nat)
      requires Valid() && p.slot < c.P && p.frame < c.M && n > 0 && p.off + n <= c.T
      ensures AddressOf(c, p) + n <= ram.Length
    {
      LocateInvertsAddress(c, p.(off := p.off + n - 1));
    }

    /** An address inside a stretch of a frame belongs to that stretch of that frame. */
    lemma ByteApart(x: Place, p: Place, n: nat)
      requires ConfigOk(c) && p.slot < c.P && p.frame < c.M && p.off + n <= c.T
      requires x.slot < c.P && x.frame < c.M && x.off < c.T
      ensures (AddressOf(c, p) <= AddressOf(c, x) < AddressOf(c, p) + n) <==>
              (x.slot == p.slot && x.frame == p.frame && p.off <= x.off < p.off + n)
      ensures x.slot == p.slot && x.frame == p.frame ==> AddressOf(c, x) == AddressOf(c, p) + x.off - p.off
    {
      if AddressOf(c, p) <= AddressOf(c, x) < AddressOf(c, p) + n {
        LocateInvertsAddress(c, x);
        LocateInvertsAddress(c, p.(off := p.off + (AddressOf(c, x) - AddressOf(c, p))));
      }
    }

    // -------------------------------------------------------------- level 1

    /** Fields of tablasDeNivel1[i], assigned. */
    method SetHeader(i: nat, id: nat, size: nat, pointer: int)
      requires Valid() && i < c.P
      modifies this`st, level1
      ensures Valid()
      ensures st == PutSlot(old(st), i, old(st).slots[i].(id := id, size := size, pointer := pointer))
    {
      hide TableNumber, FrameNumber, PageNo, GlobalEntry, GlobalFrame, AddressOf, BigEnough;
      level1[i] := level1[i].(id := id, size := size, pointer := pointer);
      st := PutSlot(st, i, st.slots[i].(id := id, size := size, pointer := pointer));
      assert Dims();
      KeepsLevel2();
      KeepsFrames();
      KeepsRam();
    }

    ghost predicate IdAt(id: nat, i: nat)
      reads this`st
    {
      IdIn(st, c, id, i)
    }

    lemma IdAtFind(id: nat, i: nat)
      requires IdAt(id, i)
      ensures FindSlot(st.slots, id, 0) == i
    {
      FindUnique(st.slots, id, i);
    }

    /** `obtener_tabla_de_nivel_2`: -1 when no slot has the id. */
    method Level2Table(id: nat, e1: nat) returns (t: int)
      requires Valid() && e1 < c.E
      ensures var i := FindSlot(st.slots, id, 0);
              t == if i < c.P then TableNumber(c, TableRef(i, e1)) else -1
    {
      hide Level2Ok, FramesOk, RamOk, BigEnough, TableNumber, FrameNumber;
      var i := 0;
      while i < c.P
        invariant i <= c.P
        invariant forall k | 0 <= k < i :: st.slots[k].id != id
      {
        if level1[i].id == id {
          FindUnique(st.slots, id, i);
          return level1[i].tables[e1];
        }
        i := i + 1;
      }
      return -1;
    }

    /** `obtener_tabla_de_nivel_1`: the id of the slot a level-2 table belongs to. */
    method IdOfTable(t: nat, ghost r: TableRef) returns (id: nat)
      requires Valid() && TableAt(c, t, r)
      ensures id == st.slots[r.slot].id
    {
      hide Level2Ok, FramesOk, RamOk, BigEnough, TableNumber, FrameNumber;
      assert r == TableRef(r.slot, r.row);
      assert level1[r.slot].tables[r.row] == t;
      id := 0;
      var i := 0;
      while i < c.P
        invariant i <= r.slot
      {
        var j := 0;
        while j < c.E
          invariant j <= c.E
          invariant i == r.slot ==> j <= r.row
        {
          if level1[i].tables[j] == t {
            TableNumberInjective(c, TableRef(i, j), r);
            return level1[i].id;
          }
          j := j + 1;
        }
        i := i + 1;
      }
      assert false;
    }

    /** `obtener_tabla_libre_de_nivel_1`: the first slot with id 0, or P. */
    method FreeSlot() returns (i: nat)
      requires Valid()
      ensures i == FindSlot(st.slots, 0, 0)
    {
      hide Level2Ok, FramesOk, RamOk, BigEnough;
      i := 0;
      while i < c.P
        invariant i <= c.P
        invariant forall k | 0 <= k < i :: st.slots[k].id != 0
      {
        if level1[i].id == 0 {
          break;
        }
        i := i + 1;
      }
      FindFirst(st.slots, 0, i);
    }

    lemma FindFirst(slots: seq<Slot>, id: nat, i: nat)
      requires i <= |slots| && (forall k | 0 <= k < i :: slots[k].id != id)
      requires i < |slots| ==> slots[i].id == id
      ensures FindSlot(slots, id, 0) == i
    {
    }

    /** `hay_tabla_nivel_1_disponible`. */
    method HasFreeSlot() returns (b: bool)
      requires Valid()
      ensures b == HasFree(st)
    {
      hide Level2Ok, FramesOk, RamOk, BigEnough;
      var i := 0;
      while i < c.P
        invariant i <= c.P
        invariant forall k | 0 <= k < i :: st.slots[k].id != 0
      {
        if level1[i].id == 0 {
          FindFirst(st.slots, 0, i);
          return true;
        }
        i := i + 1;
      }
      FindFirst(st.slots, 0, i);
      return false;
    }

    /** `obtener_indice_tabla_nivel_1`: the last slot with the id, -1 if there is none. */
    method SlotIndex(id: nat, ghost i: nat) returns (k: int)
      requires Valid() && IdAt(id, i)
      ensures k == i
    {
      hide Level2Ok, FramesOk, RamOk, BigEnough;
      k := -1;
      var x := 0;
      while x < c.P
        invariant x <= c.P
        invariant k == if x <= i then -1 else i
      {
        if level1[x].id == id {
          k := x;
        }
        x := x + 1;
      }
    }

    /** `obtener_marcos`: the frame numbers of a slot. */
    method FramesOf(id: nat, ghost i: nat) returns (f: seq<nat>)
      requires Valid() && IdAt(id, i)
      ensures |f| == c.M && forall j | 0 <= j < c.M :: FrameAt(c, f[j], i, j)
    {
      hide Level2Ok, FramesOk, RamOk, BigEnough, TableNumber, FrameNumber;
      var k := SlotIndex(id, i);
      f := level1[k].frames;
    }

    /** `obtener_tamanio`. */
    method SizeOf(id: nat, ghost i: nat) returns (size: nat)
      requires Valid() && IdAt(id, i)
      ensures size == st.slots[i].size
    {
      hide Level2Ok, FramesOk, RamOk, BigEnough;
      var k := SlotIndex(id, i);
      size := level1[k].size;
    }

    /** `obtener_puntero`. */
    method PointerOf(id: nat, ghost i: nat) returns (p: int)
      requires Valid() && IdAt(id, i)
      ensures p == st.slots[i].pointer
    {
      hide Level2Ok, FramesOk, RamOk, BigEnough;
      p := -1;
      var x := 0;
      while x < c.P
        invariant x <= c.P
        invariant p == if x <= i then -1 else st.slots[i].pointer
      {
        if level1[x].id == id {
          p := level1[x].pointer;
        }
        x := x + 1;
      }
    }

    /** `actualizar_puntero`: every slot with the id, that is slot i. */
    method SetPointer(id: nat, p: int, ghost i: nat)
      requires Valid() && IdAt(id, i)
      modifies this`st, level1
      ensures Valid() && st == PutSlot(old(st), i, old(st).slots[i].(pointer := p))
    {
      hide Level1Ok, Level2Ok, FramesOk, RamOk, BigEnough;
      var x := 0;
      ghost var target := PutSlot(st, i, st.slots[i].(pointer := p));
      while x < c.P
        invariant x <= c.P && Valid()
        invariant st == if x <= i then old(st) else target
      {
        var here := HeaderAt(x);
        if here.id == id {
          SetHeader(x, here.id, here.size, p);
        }
        x := x + 1;
      }
    }

    /** tablasDeNivel1[i], read. */
    method HeaderAt(i: nat) returns (x: Level1)
      requires Valid() && i < c.P
      ensures x.id == st.slots[i].id && x.size == st.slots[i].size && x.pointer == st.slots[i].pointer
      ensures |x.frames| == c.M && forall j | 0 <= j < c.M :: FrameAt(c, x.frames[j], i, j)
      ensures |x.tables| == c.E && forall a | 0 <= a < c.E :: TableAt(c, x.tables[a], TableRef(i, a))
    {
      hide Level2Ok, FramesOk, RamOk, BigEnough, TableNumber, FrameNumber;
      x := level1[i];
    }

    /** `obtener_marco_libre`: the first frame of the slot not in use, or -1. */
    method FreeFrame(f: seq<nat>, ghost i: nat) returns (frame: int)
      requires Valid() && i < c.P && |f| == c.M && forall j | 0 <= j < c.M :: FrameAt(c, f[j], i, j)
      ensures var j := FirstFree(st.slots[i].frames, 0);
              (j == c.M ==> frame == -1) && (j < c.M ==> frame == f[j])
    {
      hide Level1Ok, Level2Ok, FramesOk, RamOk, BigEnough, FrameNumber;
      var j := 0;
      while j < c.M
        invariant j <= c.M
        invariant forall k | 0 <= k < j :: st.slots[i].frames[k].inUse
      {
        var x := GetFrameEntry(f[j], i, j);
        if !x.inUse {
          FirstFreeIs(st.slots[i].frames, j);
          return f[j];
        }
        j := j + 1;
      }
      FirstFreeIs(st.slots[i].frames, j);
      return -1;
    }

    lemma FirstFreeIs(f: seq<Frame>, j: nat)
      requires j <= |f| && (forall k | 0 <= k < j :: f[k].inUse) && (j < |f| ==> !f[j].inUse)
      ensures FirstFree(f, 0) == j
    {
    }

    // -------------------------------------------------------------- swapping

    /** The mapped swap file of the process in slot i, assigned at page q. */
    method PutPage(q: nat, page: Page)
      requires Valid() && mapped in swap && q < |swap[mapped]|
      modifies this`swap, this`st
      ensures Valid()
      ensures st == old(st).(swap := old(st).swap[mapped := old(st).swap[mapped][q := page]])
    {
      hide Level1Ok, Level2Ok, FramesOk, RamOk, BigEnough;
      swap := swap[mapped := swap[mapped][q := page]];
      st := st.(swap := swap);
      KeepsLevel1();
      KeepsLevel2();
      KeepsFrames();
      KeepsRam();
    }

    lemma FrameBase(i: nat, j: nat)
      ensures AddressOf(c, Place(i, j, 0)) == FrameNumber(c, i, j) * c.T
    {
    }

    /** `swap_out`. */
    method SwapOut(t: nat, e: nat, frame: nat, ghost r: TableRef, ghost j: nat)
      requires Valid() && TableAt(c, t, r) && e < c.E && PageNo(c, r.row, e) < c.K && FrameAt(c, frame, r.slot, j)
      requires var sl := st.slots[r.slot];
               var q := PageNo(c, r.row, e);
               && sl.pages[q].frame == j && mapped == sl.id && mapped in swap
               && (sl.pages[q].modified ==> q < |swap[mapped]|)
      modifies this`st, this`swap, level2, frames
      ensures Valid()
      ensures var sl := old(st).slots[r.slot];
              var (sl', file') := Paging.SwapOut(sl, old(st).swap[sl.id], PageNo(c, r.row, e));
              st == WithSlot(old(st), r.slot, sl', file')
    {
      hide Level1Ok, Level2Ok, FramesOk, RamOk, BigEnough, TableNumber, FrameNumber, AddressOf;
      ghost var sl := st.slots[r.slot];
      ghost var q := PageNo(c, r.row, e);
      ghost var y := sl.pages[q];
      PageLocal(r, e);
      FrameBase(r.slot, j);
      var x := EntryAt(t, e, r);
      SetEntry(t, e, x.(present := false), r, y.(present := false));
      var page := t * c.E + e;
      if x.modified {
        var local := page % (c.E * c.E);
        var bytes := GetBytes(frame * c.T, c.T, Place(r.slot, j, 0));
        assert bytes == sl.ram[j];
        PutPage(local, bytes);
        SetEntry(t, e, x.(present := false, inSwap := true), r, y.(present := false, inSwap := true));
      }
      SetFrame(frame, Frame(true, -1), r.slot, j, Frame(true, -1));
      ghost var (sl', file') := Paging.SwapOut(sl, old(st).swap[sl.id], q);
      assert st.slots[r.slot].pages == sl'.pages;
      assert st.slots[r.slot] == sl';
      assert st.slots == old(st).slots[r.slot := sl'];
      assert st.swap == old(st).swap[sl.id := file'];
    }

    /** The local page number, as `obtener_indice` computes it from the global one. */
    lemma PageLocal(r: TableRef, e: nat)
      requires ConfigOk(c) && r.slot < c.P && r.row < c.E && e < c.E
      ensures var page := TableNumber(c, r) * c.E + e;
              && c.E * c.E > 0 && page % (c.E * c.E) == PageNo(c, r.row, e)
              && page == GlobalOf(c, r.slot, PageNo(c, r.row, e))
    {
      GlobalPageInverts(c, r, e);
      GlobalOfPage(c, r, e);
    }

    /** `swap_in`. */
    method SwapIn(t: nat, e: nat, frame: nat, ghost r: TableRef, ghost j: nat)
      requires Valid() && TableAt(c, t, r) && e < c.E && PageNo(c, r.row, e) < c.K && FrameAt(c, frame, r.slot, j)
      requires var sl := st.slots[r.slot];
               var q := PageNo(c, r.row, e);
               && mapped == sl.id && mapped in swap && FileShape(swap[mapped], c.T)
               && (sl.pages[q].inSwap ==> q < |swap[mapped]|)
      modifies this`st, level2, frames, ram
      ensures Valid()
      ensures var sl := old(st).slots[r.slot];
              st == PutSlot(old(st), r.slot, Paging.SwapIn(sl, old(st).swap[sl.id], PageNo(c, r.row, e), j))
    {
      hide Level1Ok, Level2Ok, FramesOk, RamOk, BigEnough, TableNumber, FrameNumber, AddressOf;
      ghost var sl := st.slots[r.slot];
      ghost var q := PageNo(c, r.row, e);
      PageLocal(r, e);
      FrameBase(r.slot, j);
      var x := EntryAt(t, e, r);
      SetEntry(t, e, Entry(frame, true, false, false, x.inSwap), r, Entry(j, true, false, false, x.inSwap));
      var page := t * c.E + e;
      if x.inSwap {
        var local := page % (c.E * c.E);
        PutBytes(frame * c.T, swap[mapped][local], Place(r.slot, j, 0));
        assert Patch(sl.ram[j], 0, swap[mapped][local]) == swap[mapped][local];
      }
      SetFrame(frame, Frame(true, page), r.slot, j, Frame(true, q));
      assert st.slots[r.slot] == Paging.SwapIn(sl, old(st).swap[sl.id], q, j);
      assert st.slots == old(st).slots[r.slot := st.slots[r.slot]];
    }

    // -------------------------------------------------------------- victim selection

    /** `obtener_bit_uso` and `obtener_bit_modificado` of a global page number. */
    method BitsOf(page: nat, ghost i: nat, ghost q: nat) returns (used: bool, modified: bool)
      requires Valid() && i < c.P && q < c.K && page == GlobalOf(c, i, q)
      ensures used == st.slots[i].pages[q].used && modified == st.slots[i].pages[q].modified
    {
      hide Level1Ok, Level2Ok, FramesOk, RamOk, BigEnough, TableNumber;
      PageParts(c, i, q);
      var x := EntryAt(page / c.E, page % (c.E * c.E) % c.E, TableRef(i, q / c.E));
      return x.used, x.modified;
    }

    /** `setear_bit_uso`. */
    method SetUsed(page: nat, used: bool, ghost i: nat, ghost q: nat)
      requires Valid() && i < c.P && q < c.K && page == GlobalOf(c, i, q)
      modifies this`st, level2
      ensures Valid()
      ensures var sl := old(st).slots[i];
              st == PutSlot(old(st), i, sl.(pages := sl.pages[q := sl.pages[q].(used := used)]))
    {
      hide Level1Ok, Level2Ok, FramesOk, RamOk, BigEnough, TableNumber;
      PageParts(c, i, q);
      var x := EntryAt(page / c.E, page % (c.E * c.E) % c.E, TableRef(i, q / c.E));
      ghost var y := st.slots[i].pages[q];
      SetEntry(page / c.E, page % (c.E * c.E) % c.E, x.(used := used), TableRef(i, q / c.E), y.(used := used));
    }

    /** `__cargar_tabla`. */
    method LoadTable(id: nat, ghost i: nat) returns (table: array<Row>)
      requires Valid() && IdAt(id, i) && AllResident(st.slots[i])
      ensures fresh(table) && table[..] == Loaded(st.slots[i])
    {
      hide Level1Ok, Level2Ok, FramesOk, RamOk, BigEnough, FrameNumber, Good, Vacant, LiveOk, AllSuspendedOk;
      var f := FramesOf(id, i);
      var pointer := PointerOf(id, i);
      table := new Row[c.M](_ => Row(0, false, false));
      ghost var sl := st.slots[i];
      var at := -1;
      var j := 0;
      while j < c.M
        invariant j <= c.M
        invariant table[..j] == Rows(sl)[..j]
        invariant at == PointerRow(sl.frames, pointer, j)
      {
        var x := GetFrameEntry(f[j], i, j);
        PageParts(c, i, sl.frames[j].page);
        var local := x.page % (c.E * c.E);
        var used, modified := BitsOf(x.page, i, sl.frames[j].page);
        table[j] := Row(local, used, modified);
        assert table[..j + 1] == table[..j] + [table[j]];
        assert Rows(sl)[..j + 1] == Rows(sl)[..j] + [Rows(sl)[j]];
        if local == pointer {
          at := j;
        }
        j := j + 1;
      }
      assert table[..] == Rows(sl);
      if at > 0 {
        RotateLeft(table, at);
      }
    }

    /** `__descargar_tabla`. */
    method StoreTable(id: nat, table: array<Row>, ghost i: nat)
      requires Valid() && IdAt(id, i) && table.Length == c.M
      requires forall k | 0 <= k < table.Length :: table[k].page < c.K
      modifies this`st, level2
      ensures Valid()
      ensures var sl := old(st).slots[i];
              st == PutSlot(old(st), i, sl.(pages := Stored(sl.pages, table[..], c.M)))
    {
      hide Level1Ok, Level2Ok, FramesOk, RamOk, BigEnough;
      var slot := SlotIndex(id, i);
      var first := slot * c.E * c.E;
      assert first == i * c.K by {
        assert i * c.E * c.E == i * (c.E * c.E);
      }
      ghost var sl := st.slots[i];
      ghost var rows := table[..];
      var k := 0;
      while k < c.M
        invariant k <= c.M && Valid()
        invariant table[..] == rows
        invariant st == PutSlot(old(st), i, sl.(pages := Stored(sl.pages, rows, k)))
      {
        SetUsed(first + table[k].page, table[k].used, i, table[k].page);
        k := k + 1;
      }
    }

    /** `seleccionar_victima_clock` and `seleccionar_victima_clock_modificado`. */
    method Select(id: nat, ghost i: nat) returns (victim: int)
      requires Valid() && IdAt(id, i) && AllResident(st.slots[i])
      modifies this`st, level1, level2
      ensures Valid()
      ensures var (q, swept) := SelectVictim(c.alg, old(st).slots[i]);
              victim == q && st == PutSlot(old(st), i, swept)
    {
      hide Valid, Loaded, AllResident, ClockChoice, ClockMChoice, Stored, Rows, Hand;
      SlotDims(id, i);
      ghost var sl := st.slots[i];
      LoadedInRange(sl);
      ChoicePagesInRange(c.alg, Loaded(sl), c.K);
      var table := LoadTable(id, i);
      var k;
      if c.alg == Clock {
        k := ClockSweep(table);
      } else {
        k := ClockMSweep(table);
      }
      assert Choice(k, table[..]) == Choose(c.alg, Loaded(sl));
      if k == c.M - 1 {
        SetPointer(id, table[0].page, i);
      } else {
        SetPointer(id, table[k + 1].page, i);
      }
      StoreTable(id, table, i);
      victim := table[k].page;
    }

    lemma SlotDims(id: nat, i: nat)
      requires Valid() && IdAt(id, i)
      ensures c.M > 0 && i < |st.slots| && |st.slots[i].frames| == c.M && |st.slots[i].pages| == c.K
    {
    }

    // -------------------------------------------------------------- page faults

    /** An active slot is the only one with its id. */
    lemma SlotIdAt(i: nat)
      requires Inv(st) && st.c == c && i < c.P && st.slots[i].id != 0
      ensures IdAt(st.slots[i].id, i) && SlotOk(st, st.slots[i])
    {
      hide SlotOk, AllSuspendedOk, LiveOk;
      assert SlotOk(st, st.slots[i]);
    }

    /** `__swap_marco`, once the victim is known. */
    method SwapFrame(t: nat, e: nat, t2: nat, e2: nat, ghost r: TableRef, ghost v: TableRef) returns (frame: nat)
      requires Valid() && TableAt(c, t, r) && e < c.E && TableAt(c, t2, v) && e2 < c.E && v.slot == r.slot
      requires PageNo(c, r.row, e) < c.K && PageNo(c, v.row, e2) < c.K
      requires var sl := st.slots[r.slot];
               && mapped == sl.id && mapped in swap
               && Shape(sl, c.T) && FileShape(swap[mapped], c.T) && Readable(sl, swap[mapped])
               && sl.pages[PageNo(c, v.row, e2)].present && !sl.pages[PageNo(c, r.row, e)].present
               && PageNo(c, r.row, e) < |swap[mapped]|
      modifies this`st, this`swap, level2, frames, ram
      ensures Valid()
      ensures var sl := old(st).slots[r.slot];
              var j := sl.pages[PageNo(c, v.row, e2)].frame;
              var (out, file') := Paging.SwapOut(sl, old(st).swap[sl.id], PageNo(c, v.row, e2));
              && 0 <= j < c.M && frame == FrameNumber(c, r.slot, j)
              && st == WithSlot(old(st), r.slot, Paging.SwapIn(out, file', PageNo(c, r.row, e), j), file')
    {
      ghost var sl := st.slots[r.slot];
      ghost var j := sl.pages[PageNo(c, v.row, e2)].frame;
      Swap(sl, swap[mapped], c.T, PageNo(c, v.row, e2), PageNo(c, r.row, e));
      assert 0 <= j < c.M;
      hide Level1Ok, Level2Ok, FramesOk, RamOk, BigEnough, FrameNumber, Readable, MapsInverse;
      var x := EntryAt(t2, e2, v);
      frame := x.frame;
      SwapOut(t2, e2, frame, v, j);
      SwapIn(t, e, frame, r, j);
    }

    /** The page entry e of table r is wanted, belongs to the process and is not there. */
    ghost predicate Faulting(r: TableRef, e: nat, id: nat)
      reads this`st
    {
      && ConfigOk(c) && r.slot < c.P == |st.slots| && r.row < c.E && e < c.E
      && IdAt(id, r.slot) && id in st.swap
      && var sl := st.slots[r.slot];
         var q := PageNo(c, r.row, e);
         && |sl.pages| == c.K && |sl.frames| == c.M
         && q < c.K && q < |st.swap[id]| && Good(sl, st.swap[id], c.T) && !sl.pages[q].present
    }

    /** What the selection hands over to the swap, and what the swap makes of it. */
    lemma EvictReady(r: TableRef, e: nat, id: nat)
      requires Faulting(r, e, id) && FirstFree(st.slots[r.slot].frames, 0) == c.M
      ensures var sl := st.slots[r.slot];
              var file := st.swap[id];
              var q := PageNo(c, r.row, e);
              && AllResident(sl) && |sl.frames| > 0 && sl.id == id && id in st.swap
              && IdAt(id, r.slot) && FindSlot(st.slots, id, 0) == r.slot && e < c.E && r.row < c.E && r.slot < c.P
              && var (v, swept) := SelectVictim(c.alg, sl);
                 && v < c.K == |swept.pages| && q < c.K && swept.id == id
                 && Shape(swept, c.T) && FileShape(file, c.T) && Readable(swept, file)
                 && swept.pages[v].present && !swept.pages[q].present && q < |file|
                 && 0 <= swept.pages[v].frame < |swept.frames| == |swept.ram|
                 && var (out, file') := Paging.SwapOut(swept, file, v);
                    && (out.pages[q].inSwap ==> q < |file'|)
                    && PageIn(c.alg, sl, file, q) == (Paging.SwapIn(out, file', q, swept.pages[v].frame), file')
                    && q < |PageIn(c.alg, sl, file, q).0.pages|
                    && PageIn(c.alg, sl, file, q).0.pages[q].frame == swept.pages[v].frame < c.M
    {
      var sl := st.slots[r.slot];
      SweepKeeps(c.alg, sl, st.swap[id], c.T);
      SelectionFacts(c.alg, sl);
      IdAtFind(id, r.slot);
      hide SelectVictim, PageNo, PointerResident;
    }

    /** The branch with no free frame: a victim is chosen and swapped for the page. */
    method Evict(t: nat, e: nat, id: nat, ghost r: TableRef) returns (frame: nat)
      requires Valid() && TableAt(c, t, r) && Faulting(r, e, id) && mapped == id
      requires FirstFree(st.slots[r.slot].frames, 0) == c.M
      modifies this`st, this`swap, level1, level2, frames, ram
      ensures Valid()
      ensures var q := PageNo(c, r.row, e);
              var (sl', file') := PageIn(c.alg, old(st).slots[r.slot], old(st).swap[id], q);
              && st == WithSlot(old(st), r.slot, sl', file')
              && 0 <= sl'.pages[q].frame < c.M && FrameAt(c, frame, r.slot, sl'.pages[q].frame)
    {
      hide Valid, FrameNumber, TableNumber, Readable, Good, SelectVictim, PageNo, GlobalOf, Shape, FileShape;
      hide PageIn, Paging.SwapOut, ConfigOk, FirstFree, Faulting, Paging.SwapIn, IdAt;
      TableIs();
      EvictReady(r, e, id);
      ghost var i := r.slot;
      ghost var (v, swept) := SelectVictim(c.alg, st.slots[i]);
      PageParts(c, i, v);
      FindOther(st.slots, i, swept, id, 0);
      var victim := Select(id, i);
      var t2 := Level2Table(id, victim / c.E);
      TableIs();
      frame := SwapFrame(t, e, t2, victim % c.E, r, TableRef(i, victim / c.E));
    }

    lemma TableIs()
      requires Valid()
      ensures st.swap == swap && st.c == c && |st.slots| == c.P && ConfigOk(c)
    {
    }

    /** The branch with a free frame; frame 0 of the slot takes the pointer along. */
    method LoadInto(t: nat, e: nat, id: nat, free: nat, first: nat, ghost r: TableRef)
      requires Valid() && TableAt(c, t, r) && Faulting(r, e, id) && mapped == id
      requires FirstFree(st.slots[r.slot].frames, 0) < c.M
      requires FrameAt(c, free, r.slot, FirstFree(st.slots[r.slot].frames, 0)) && FrameAt(c, first, r.slot, 0)
      modifies this`st, level1, level2, frames, ram
      ensures Valid()
      ensures var q := PageNo(c, r.row, e);
              var (sl', file') := PageIn(c.alg, old(st).slots[r.slot], old(st).swap[id], q);
              && st == WithSlot(old(st), r.slot, sl', file')
              && sl'.pages[q].frame == FirstFree(old(st).slots[r.slot].frames, 0)
    {
      hide Valid, FrameNumber, TableNumber, PointerResident, MapsInverse, GlobalOf, PageNo, SwapFresh;
      TableIs();
      ghost var i := r.slot;
      ghost var sl := st.slots[i];
      ghost var j := FirstFree(sl.frames, 0);
      ghost var q := PageNo(c, r.row, e);
      PageLocal(r, e);
      FrameNumberSame(i, j, 0);
      var page := t * c.E + e;
      if free == first {
        SetPointer(id, page % (c.E * c.E), i);
      }
      SetFrame(free, Frame(true, page), i, j, Frame(true, q));
      SwapIn(t, e, free, r, j);
      ghost var sl' := PageIn(c.alg, sl, old(st).swap[id], q).0;
      assert st.slots[i].frames == sl'.frames;
      assert st.slots == old(st).slots[i := sl'];
      assert old(st).swap[id := old(st).swap[id]] == old(st).swap;
    }

    lemma FrameNumberSame(i: nat, j: nat, k: nat)
      requires j < c.M && k < c.M
      ensures FrameNumber(c, i, j) == FrameNumber(c, i, k) <==> j == k
    {
      if FrameNumber(c, i, j) == FrameNumber(c, i, k) {
        FrameNumberInjective(c, i, j, i, k);
      }
    }

    /** A page fault: a free frame or a victim's. */
    method Fault(t: nat, e: nat, id: nat, ghost r: TableRef) returns (frame: nat)
      requires Valid() && TableAt(c, t, r) && Faulting(r, e, id) && mapped == id
      modifies this`st, this`swap, level1, level2, frames, ram
      ensures Valid()
      ensures var q := PageNo(c, r.row, e);
              var (sl', file') := PageIn(c.alg, old(st).slots[r.slot], old(st).swap[id], q);
              && st == WithSlot(old(st), r.slot, sl', file')
              && 0 <= sl'.pages[q].frame < c.M && FrameAt(c, frame, r.slot, sl'.pages[q].frame)
    {
      hide Level1Ok, Level2Ok, FramesOk, RamOk, BigEnough, FrameNumber, TableNumber, Good, PageIn, PageNo, ConfigOk;
      var f := FramesOf(id, r.slot);
      var free := FreeFrame(f, r.slot);
      if free == -1 {
        frame := Evict(t, e, id, r);
      } else {
        LoadInto(t, e, id, free, f[0], r);
        frame := free;
      }
    }

    /** The answer to a page request, from what happens inside the slot. */
    lemma FrameAnswer(r: TableRef, e: nat)
      requires Inv(st) && st.c == c && Enabled(st, GetFrame(r, e))
      ensures var sl := st.slots[r.slot];
              var q := PageNo(c, r.row, e);
              && IdAt(sl.id, r.slot) && sl.id in st.swap && q < |st.swap[sl.id]|
              && q < c.K == |sl.pages| && |sl.frames| == c.M && c.T > 0 && ConfigOk(c) && |st.slots| == c.P
              && Good(sl, st.swap[sl.id], c.T)
              && var (sl', file') := PageIn(c.alg, sl, st.swap[sl.id], q);
                 && 0 <= sl'.pages[q].frame
                 && ServeFrame(st, r, e)
                    == (WithSlot(st, r.slot, sl', file'), At(Place(r.slot, sl'.pages[q].frame, 0)))
                 && (sl.pages[q].present ==>
                       (sl', file') == (sl, st.swap[sl.id]) && WithSlot(st, r.slot, sl', file') == st)
    {
      hide Readable, Shape, FileShape, PointerResident, SelectVictim, Paging.SwapIn, Paging.SwapOut, SlotsOk;
      hide AllSuspendedOk, LiveOk, IdsDistinct;
      FrameDefined(st, r, e);
      SlotIdAt(r.slot);
      hide Inv;
      var sl := st.slots[r.slot];
      assert st.slots[r.slot := sl] == st.slots;
      assert st.swap[sl.id := st.swap[sl.id]] == st.swap;
    }

    /** `__obtener_marco`. */
    method ObtainFrame(t: nat, e: nat, ghost r: TableRef) returns (frame: nat)
      requires Valid() && Inv(st) && TableAt(c, t, r) && Enabled(st, GetFrame(r, e))
      modifies this`st, this`swap, this`mapped, level1, level2, frames, ram
      ensures Valid()
      ensures st == ServeFrame(old(st), r, e).0
      ensures FrameAt(c, frame, r.slot, ServeFrame(old(st), r, e).1.place.frame)
    {
      hide Valid, Inv, FrameNumber, TableNumber, Good, PageIn, PageNo, ConfigOk, ServeFrame, IdAt;
      TableIs();
      FrameAnswer(r, e);
      var x := EntryAt(t, e, r);
      if x.present {
        PresentFrame(r.slot, PageNo(c, r.row, e));
        frame := x.frame;
      } else {
        var id := IdOfTable(t, r);
        mapped := id;
        frame := Fault(t, e, id, r);
      }
    }

    lemma PresentFrame(i: nat, q: nat)
      requires i < |st.slots| && q < |st.slots[i].pages| && st.slots[i].id in st.swap
      requires Good(st.slots[i], st.swap[st.slots[i].id], c.T) && st.slots[i].pages[q].present
      ensures 0 <= st.slots[i].pages[q].frame < |st.slots[i].frames|
    {
    }

    // -------------------------------------------------------------- swap files and suspended rows

    /** `eliminar_archivo_de_proceso`, `crear_archivo_de_proceso` and the dictionary of
        suspended processes: no slot is touched. */
    method SetTables(files: map<nat, seq<Page>>, rows: map<nat, seq<nat>>, next: nat, ghost sus: map<nat, Suspended>)
      requires Valid() && rows.Keys == sus.Keys && forall id | id in rows :: rows[id] == RowOfTable(c, sus[id])
      modifies this`swap, this`suspended, this`nextId, this`st
      ensures Valid() && st == old(st).(swap := files, suspended := sus, nextId := next)
      ensures swap == files && suspended == rows && nextId == next
    {
      hide Level1Ok, Level2Ok, FramesOk, RamOk, BigEnough, RowOfTable;
      swap, suspended, nextId := files, rows, next;
      st := st.(swap := files, suspended := sus, nextId := next);
      KeepsLevel1();
      KeepsLevel2();
      KeepsFrames();
      KeepsRam();
    }

    // -------------------------------------------------------------- requests of the kernel

    /** HEADER_solicitud_tabla_paginas; -1 stands for HEADER_error. */
    method CreateProcess(size: nat) returns (id: int)
      requires Valid() && Inv(st)
      modifies this, level1
      ensures Valid() && st == ServeCreate(old(st), size).0
      ensures ServeCreate(old(st), size).1 == if id < 0 then Refused else Id(id)
    {
      assert c.T > 0;
      hide Level1Ok, Level2Ok, FramesOk, RamOk, BigEnough, Inv;
      var free := HasFreeSlot();
      if size <= c.E * c.E * c.T && free {
        var i := FreeSlot();
        var h := HeaderAt(i);
        SetHeader(i, nextId, size, h.pointer);
        id := nextId;
        SetTables(swap[nextId := seq(size / c.T, q => seq(c.T, k => 0))], suspended, nextId + 1, st.suspended);
        assert st.slots[i] == old(st).slots[i].(id := old(st).nextId, size := size);
      } else {
        id := -1;
      }
    }

    /** `limpiar_tabla_nivel_2`. */
    method ClearLevel2(t: nat, ghost r: TableRef)
      requires Valid() && TableAt(c, t, r)
      modifies this`st, level2
      ensures Valid()
      ensures var sl := old(st).slots[r.slot];
              st == PutSlot(old(st), r.slot, sl.(pages := RowBlanked(sl.pages, PageNo(c, r.row, 0), c.E)))
    {
      hide Level1Ok, Level2Ok, FramesOk, RamOk, BigEnough, TableNumber;
      ghost var sl := st.slots[r.slot];
      ghost var base := PageNo(c, r.row, 0);
      assert RowBlanked(sl.pages, base, 0) == sl.pages;
      assert st.slots[r.slot := sl] == st.slots;
      var e := 0;
      while e < c.E
        invariant e <= c.E && Valid()
        invariant st == PutSlot(old(st), r.slot, sl.(pages := RowBlanked(sl.pages, base, e)))
      {
        PageNoBelow(c, r.row, e);
        SetEntry(t, e, BLANK, r, BLANK);
        assert RowBlanked(sl.pages, base, e + 1) == RowBlanked(sl.pages, base, e)[base + e := BLANK];
        e := e + 1;
      }
    }

    /** `limpiar_tabla_nivel_1`: the first slot with the id, and its frames. */
    method ClearLevel1(id: nat, ghost i: nat)
      requires Valid() && IdAt(id, i)
      modifies this`st, level1, frames
      ensures Valid()
      ensures var sl := old(st).slots[i];
              st == PutSlot(old(st), i, sl.(id := 0, size := 0, pointer := 0, frames := seq(c.M, j => FREE)))
    {
      hide Level1Ok, Level2Ok, FramesOk, RamOk, BigEnough, FrameNumber;
      var x := 0;
      while x < c.P
        invariant x <= i && Valid() && st == old(st)
      {
        var h := HeaderAt(x);
        if h.id == id {
          SetHeader(x, 0, 0, 0);
          FreeFrames(h.frames, x);
          return;
        }
        x := x + 1;
      }
    }

    /** `limpiar_marco` on every frame of a slot. */
    method FreeFrames(f: seq<nat>, ghost i: nat)
      requires Valid() && i < c.P && |f| == c.M && forall j | 0 <= j < c.M :: FrameAt(c, f[j], i, j)
      modifies this`st, frames
      ensures Valid()
      ensures st == PutSlot(old(st), i, old(st).slots[i].(frames := seq(c.M, j => FREE)))
    {
      hide Level1Ok, Level2Ok, FramesOk, RamOk, BigEnough, FrameNumber;
      ghost var sl := st.slots[i];
      assert FreedUpTo(sl.frames, 0) == sl.frames;
      assert st.slots[i := sl] == st.slots;
      var j := 0;
      while j < c.M
        invariant j <= c.M && Valid()
        invariant st == PutSlot(old(st), i, sl.(frames := FreedUpTo(sl.frames, j)))
      {
        SetFrame(f[j], FREE, i, j, FREE);
        assert FreedUpTo(sl.frames, j + 1) == FreedUpTo(sl.frames, j)[j := FREE];
        j := j + 1;
      }
      assert FreedUpTo(sl.frames, c.M) == seq(c.M, k => FREE);
    }

    /** HEADER_proceso_terminado. */
    method FinishProcess(id: nat)
      requires Valid() && Inv(st) && Enabled(st, Finish(id))
      modifies this, level1, level2, frames
      ensures Valid() && st == ServeFinish(old(st), id).0
    {
      hide Level1Ok, Level2Ok, FramesOk, RamOk, BigEnough;
      if id in suspended {
        hide Inv;
        SetTables(swap - {id}, suspended - {id}, nextId, st.suspended - {id});
      } else {
        ActiveSlot(st, id);
        hide Inv, SlotOk, FindSlot;
        SetTables(swap - {id}, suspended, nextId, st.suspended);
        ghost var i := FindSlot(st.slots, id, 0);
        ghost var sl := st.slots[i];
        assert IdAt(id, i);
        ClearTables(id, i);
        ClearLevel1(id, i);
        assert st.slots[i] == Dropped(sl);
      }
    }

    /** All level-2 tables of a process, lines 26-29. */
    method ClearTables(id: nat, ghost i: nat)
      requires Valid() && IdAt(id, i)
      modifies this`st, level2
      ensures Valid()
      ensures st == PutSlot(old(st), i, old(st).slots[i].(pages := seq(c.K, q => BLANK)))
    {
      hide Level1Ok, Level2Ok, FramesOk, RamOk, BigEnough, TableNumber;
      ghost var sl := st.slots[i];
      IdAtFind(id, i);
      assert RowBlanked(sl.pages, 0, 0) == sl.pages;
      assert st.slots[i := sl] == st.slots;
      var a := 0;
      while a < c.E
        invariant a <= c.E && Valid() && a * c.E <= c.K
        invariant st == PutSlot(old(st), i, sl.(pages := RowBlanked(sl.pages, 0, a * c.E)))
      {
        IdAtFind(id, i);
        var t := Level2Table(id, a);
        MulMonotone(a + 1, c.E, c.E);
        ClearLevel2(t, TableRef(i, a));
        assert RowBlanked(RowBlanked(sl.pages, 0, a * c.E), a * c.E, c.E) == RowBlanked(sl.pages, 0, (a + 1) * c.E);
        a := a + 1;
      }
      assert RowBlanked(sl.pages, 0, c.K) == seq(c.K, q => BLANK);
    }
    // -------------------------------------------------------------- requests of the CPU

    /** `__actualizar_pagina`: the page of the frame the address lies in is marked. */
    method MarkPage(address: nat, written: bool, ghost p: Place)
      requires Valid() && p.slot < c.P && p.frame < c.M && p.off < c.T && address == AddressOf(c, p)
      requires 0 <= st.slots[p.slot].frames[p.frame].page < c.K
      modifies this`st, level2
      ensures Valid()
      ensures var sl := old(st).slots[p.slot];
              var q := sl.frames[p.frame].page;
              var e := sl.pages[q];
              st == PutSlot(old(st), p.slot,
                            sl.(pages := sl.pages[q := e.(used := true, modified := e.modified || written)]))
    {
      LocateInvertsAddress(c, p);
      ghost var q := st.slots[p.slot].frames[p.frame].page;
      PageParts(c, p.slot, q);
      hide Level2Ok, FramesOk, RamOk, BigEnough, TableNumber, FrameNumber, AddressOf;
      var x := GetFrameEntry(address / c.T, p.slot, p.frame);
      var page := x.page;
      var h := HeaderAt(page / (c.E * c.E));
      var t := h.tables[page % (c.E * c.E) / c.E];
      var e := page % (c.E * c.E) % c.E;
      ghost var r := TableRef(p.slot, q / c.E);
      var y := EntryAt(t, e, r);
      ghost var z := st.slots[p.slot].pages[q];
      SetEntry(t, e, y.(used := true, modified := y.modified || written), r,
               z.(used := true, modified := z.modified || written));
    }

    lemma PlaceReady(p: Place, address: nat)
      requires Valid() && Inv(st) && address < c.P * c.M * c.T && c.T > 0 && c.M > 0
      requires p == Locate(c, address) && OwnerAt(st, p) != Nobody
      ensures p.slot < c.P && p.frame < c.M && p.off < c.T && address == AddressOf(c, p)
      ensures var sl := st.slots[p.slot];
              && |sl.frames| == c.M == |sl.ram| && |sl.pages| == c.K && |sl.ram[p.frame]| == c.T
              && 0 <= sl.frames[p.frame].page < c.K && sl.id != 0
    {
      AddressInvertsLocate(c, address);
      PlaceDefined(st, p);
      hide Inv;
    }

    /** HEADER_read. */
    method ReadWord(address: nat) returns (v: seq<Byte>)
      requires Valid() && Inv(st) && address < c.P * c.M * c.T && Enabled(st, Read(Locate(c, address)))
      modifies this`st, level2
      ensures Valid()
      ensures (st, Value(v)) == ServeRead(old(st), Locate(c, address))
    {
      hide Valid, Inv, AddressOf, Locate, ConfigOk;
      TableIs();
      ghost var p := Locate(c, address);
      PlaceReady(p, address);
      v := GetBytes(address, WORD, p);
      MarkPage(address, false, p);
      assert st.slots[p.slot] == Touch(old(st).slots[p.slot], p.frame);
    }

    /** HEADER_write. */
    method WriteWord(address: nat, v: seq<Byte>)
      requires Valid() && Inv(st) && address < c.P * c.M * c.T && Enabled(st, Write(Locate(c, address), v))
      modifies this`st, level2, ram
      ensures Valid()
      ensures st == ServeWrite(old(st), Locate(c, address), v).0
    {
      hide Valid, Inv, AddressOf, Locate, ConfigOk;
      TableIs();
      ghost var p := Locate(c, address);
      PlaceReady(p, address);
      PutBytes(address, v, p);
      MarkPage(address, true, p);
      assert st.slots[p.slot] == Store(old(st).slots[p.slot], p.frame, p.off, v);
      assert st.slots == old(st).slots[p.slot := st.slots[p.slot]];
    }

    /** HEADER_marco: the physical address of the frame. */
    method FrameRequest(t: nat, e: nat, ghost r: TableRef) returns (address: nat)
      requires Valid() && Inv(st) && TableAt(c, t, r) && Enabled(st, GetFrame(r, e))
      modifies this, level1, level2, frames, ram
      ensures Valid()
      ensures st == ServeFrame(old(st), r, e).0
      ensures address == AddressOf(c, ServeFrame(old(st), r, e).1.place)
    {
      hide Level1Ok, Level2Ok, FramesOk, RamOk, BigEnough, Inv, AddressOf, FrameNumber, Enabled;
      var frame := ObtainFrame(t, e, r);
      address := frame * c.T;
      FrameBase(r.slot, ServeFrame(old(st), r, e).1.place.frame);
    }

    /** `setear_bit_pagina_en_swap` on a page of the slot. */
    method SetInSwap(t: nat, e: nat, b: bool, ghost r: TableRef)
      requires Valid() && TableAt(c, t, r) && e < c.E
      modifies this`st, level2
      ensures Valid() && PageNo(c, r.row, e) < c.K
      ensures var sl := old(st).slots[r.slot];
              var q := PageNo(c, r.row, e);
              st == PutSlot(old(st), r.slot, sl.(pages := sl.pages[q := sl.pages[q].(inSwap := b)]))
    {
      hide Level1Ok, Level2Ok, FramesOk, RamOk, BigEnough, TableNumber, PageNo;
      PageNoBelow(c, r.row, e);
      var x := EntryAt(t, e, r);
      SetEntry(t, e, x.(inSwap := b), r, st.slots[r.slot].pages[PageNo(c, r.row, e)].(inSwap := b));
    }

    /** `despertar_proceso`. */
    method WakeProcess(id: nat)
      requires Valid() && Inv(st) && id in st.suspended && HasFree(st)
      modifies this, level1, level2
      ensures Valid() && st == Wake(old(st), id)
    {
      WakeReady(id);
      hide Level1Ok, Level2Ok, FramesOk, RamOk, BigEnough, Inv, ConfigOk, Woken;
      var row := suspended[id];
      ghost var sus := st.suspended[id];
      SetTables(swap, suspended - {id}, nextId, st.suspended - {id});
      var i := FreeSlot();
      ghost var sl := st.slots[i];
      var h := HeaderAt(i);
      SetHeader(i, id, row[0], h.pointer);
      MarkPages(id, row, i, sus);
      WokenHeader(sl, id, sus);
    }

    lemma WokenHeader(sl: Slot, id: nat, sus: Suspended)
      ensures Woken(sl.(id := id, size := sus.size), id, sus) == Woken(sl, id, sus)
    {
    }

    /** The loop of `despertar_proceso`: the listed pages get their in-swap bit back. */
    method MarkPages(id: nat, row: seq<nat>, ghost i: nat, ghost sus: Suspended)
      requires Valid() && IdAt(id, i) && row == RowOfTable(c, sus) && st.slots[i].size == sus.size
      requires forall q | q in sus.pages :: q < c.K
      modifies this`st, level2
      ensures Valid() && st == PutSlot(old(st), i, Woken(old(st).slots[i], id, sus))
    {
      hide Level1Ok, Level2Ok, FramesOk, RamOk, BigEnough;
      ghost var sl := st.slots[i];
      assert Woken(sl, id, sus.(pages := [])).pages == sl.pages;
      hide Woken;
      var k := 0;
      while k < row[1]
        invariant k <= |sus.pages| && Valid() && IdAt(id, i)
        invariant st == PutSlot(old(st), i, Woken(sl, id, sus.(pages := sus.pages[..k])))
      {
        var q := row[k + 2];
        IdAtFind(id, i);
        assert q == sus.pages[k] && q in sus.pages;
        PageParts(c, i, q);
        var t := Level2Table(id, q / c.E);
        SetInSwap(t, q % c.E, true, TableRef(i, q / c.E));
        MarkedOneMore(sl, id, sus, k);
        k := k + 1;
      }
      assert sus.pages[..k] == sus.pages;
    }

    /** What waking relies on. */
    lemma WakeReady(id: nat)
      requires Valid() && Inv(st) && id in st.suspended && HasFree(st)
      ensures ConfigOk(c) && id != 0 && IdNowhere(id)
      ensures forall q | q in st.suspended[id].pages :: q < c.K
      ensures forall i | 0 <= i < c.P :: |st.slots[i].pages| == c.K
    {
      assert SuspendedOk(st, id);
      assert forall i | 0 <= i < c.P :: SlotOk(st, st.slots[i]);
    }

    ghost predicate IdNowhere(id: nat)
      reads this`st
    {
      |st.slots| == c.P && forall k | 0 <= k < c.P :: st.slots[k].id != id
    }

    lemma MarkedOneMore(sl: Slot, id: nat, sus: Suspended, k: nat)
      requires k < |sus.pages| && sus.pages[k] < |sl.pages|
      ensures var w := Woken(sl, id, sus.(pages := sus.pages[..k]));
              var q := sus.pages[k];
              Woken(sl, id, sus.(pages := sus.pages[..k + 1]))
              == w.(pages := w.pages[q := w.pages[q].(inSwap := true)])
    {
      var w := Woken(sl, id, sus.(pages := sus.pages[..k]));
      var w' := Woken(sl, id, sus.(pages := sus.pages[..k + 1]));
      assert sus.pages[..k + 1] == sus.pages[..k] + [sus.pages[k]];
      assert w'.pages == w.pages[sus.pages[k] := w.pages[sus.pages[k]].(inSwap := true)];
    }

    /** HEADER_tabla_nivel_2: a suspended process is woken first. */
    method TableRequest(id: nat, e1: nat) returns (t: nat)
      requires Valid() && Inv(st) && Enabled(st, Table(id, e1))
      modifies this, level1, level2
      ensures Valid() && st == ServeTable(old(st), id, e1).0
      ensures TableAt(c, t, ServeTable(old(st), id, e1).1.table)
    {
      hide Valid, TableNumber, Inv, Wake;
      TableIs();
      ActiveOrSuspended(id);
      var n := Level2Table(id, e1);
      if n == -1 {
        WakeInv(st, id);
        WakeProcess(id);
        n := Level2Table(id, e1);
      }
      t := n;
    }

    lemma ActiveOrSuspended(id: nat)
      requires Valid() && Inv(st) && id in st.swap
      ensures FindSlot(st.slots, id, 0) < c.P <==> id !in st.suspended
    {
      assert forall i | 0 <= i < c.P :: SlotOk(st, st.slots[i]);
    }
    // -------------------------------------------------------------- suspension

    /** `swap_out` and the memset after it. */
    method DropPage(t: nat, e: nat, frame: nat, ghost r: TableRef, ghost j: nat)
      requires Valid() && TableAt(c, t, r) && e < c.E && PageNo(c, r.row, e) < c.K && FrameAt(c, frame, r.slot, j)
      requires var sl := st.slots[r.slot];
               var q := PageNo(c, r.row, e);
               sl.pages[q].frame == j && mapped == sl.id && mapped in swap && q < |swap[mapped]|
      modifies this`st, this`swap, level2, frames, ram
      ensures Valid()
      ensures var sl := old(st).slots[r.slot];
              var (out, file') := Paging.SwapOut(sl, old(st).swap[sl.id], PageNo(c, r.row, e));
              st == WithSlot(old(st), r.slot, out.(ram := out.ram[j := seq(c.T, k => 0)]), file')
    {
      assert c.T > 0;
      hide Level1Ok, Level2Ok, FramesOk, RamOk, BigEnough, TableNumber, FrameNumber, AddressOf, PageNo;
      SwapOut(t, e, frame, r, j);
      FrameBase(r.slot, j);
      ghost var out := st.slots[r.slot];
      var zeros := seq(c.T, k => 0);
      PutBytes(frame * c.T, zeros, Place(r.slot, j, 0));
      assert Patch(out.ram[j], 0, zeros) == zeros;
      assert st.slots == old(st).slots[r.slot := st.slots[r.slot]];
    }

    /** A page that is in memory leaves it. */
    method ParkPresent(t: nat, e: nat, frame: nat,
                       ghost r: TableRef, ghost s0: State, ghost file: seq<Page>, ghost lo: nat)
      requires Valid() && TableAt(c, t, r) && e < c.E
      requires Parking(st, c, s0, r.slot, file, PageNo(c, r.row, e), lo) && PageNo(c, r.row, e) < c.K
      requires mapped == s0.slots[r.slot].id
      requires var y := s0.slots[r.slot].pages[PageNo(c, r.row, e)];
               y.present && 0 <= y.frame < c.M && FrameAt(c, frame, r.slot, y.frame)
      modifies this`st, this`swap, level2, frames, ram
      ensures Valid() && Parking(st, c, s0, r.slot, file, PageNo(c, r.row, e) + 1, lo)
    {
      ghost var sl := s0.slots[r.slot];
      ghost var n := PageNo(c, r.row, e);
      ghost var next := Parked(sl, c.T, n + 1, lo);
      ghost var file' := ParkedFile(sl, file, n + 1);
      hide Level1Ok, Level2Ok, FramesOk, RamOk, BigEnough, TableNumber, FrameNumber, Good, Parked, ParkedFile;
      hide ConfigOk, PageNo, Paging.SwapOut, WithSlot;
      ParkedOneMore(sl, file, c.T, n, lo);
      WithSlotTwice(s0, r.slot, Parked(sl, c.T, n, lo), ParkedFile(sl, file, n), next, file');
      DropPage(t, e, frame, r, sl.pages[n].frame);
      assert st == WithSlot(s0, r.slot, next, file');
    }

    /** One page of `suspender_proceso`, lines 32-41: out to swap, its frame zeroed, and
        onto the list if it now has a copy in swap. */
    method ParkPage(t: nat, row: nat, e: nat, value: seq<nat>,
                    ghost r: TableRef, ghost s0: State, ghost file: seq<Page>, ghost lo: nat)
      returns (value': seq<nat>)
      requires Valid() && TableAt(c, t, r) && r.row == row && e < c.E
      requires Parking(st, c, s0, r.slot, file, PageNo(c, r.row, e), lo) && PageNo(c, r.row, e) < c.K
      requires mapped == s0.slots[r.slot].id && lo <= PageNo(c, r.row, e)
      requires value == KnownPages(s0.slots[r.slot].pages, PageNo(c, r.row, e))
      modifies this`st, this`swap, level2, frames, ram
      ensures Valid() && Parking(st, c, s0, r.slot, file, PageNo(c, r.row, e) + 1, lo)
      ensures value' == KnownPages(s0.slots[r.slot].pages, PageNo(c, r.row, e) + 1)
    {
      hide Valid, TableNumber, FrameNumber, Parking, ConfigOk;
      ghost var n := PageNo(c, r.row, e);
      ParkingHere(st, c, s0, r.slot, file, n, lo);
      var x := EntryAt(t, e, r);
      if x.present {
        ParkPresent(t, e, x.frame, r, s0, file, lo);
      }
      ParkingDone(st, c, s0, r.slot, file, n, lo);
      var y := EntryAt(t, e, r);
      value' := value;
      if y.inSwap {
        value' := value' + [row * c.E + e];
      }
    }

    /** One row of `suspender_proceso`: its pages leave memory, then its table is cleared. */
    method ParkRow(id: nat, row: nat, value: seq<nat>, ghost i: nat, ghost s0: State, ghost file: seq<Page>)
      returns (value': seq<nat>)
      requires Valid() && row < c.E && IdIn(s0, c, id, i) && mapped == id
      requires Parking(st, c, s0, i, file, PageNo(c, row, 0), PageNo(c, row, 0))
      requires value == KnownPages(s0.slots[i].pages, PageNo(c, row, 0))
      modifies this`st, this`swap, level2, frames, ram
      ensures Valid() && PageNo(c, row + 1, 0) <= c.K && i < |s0.slots| && |s0.slots[i].pages| == c.K
      ensures Parking(st, c, s0, i, file, PageNo(c, row + 1, 0), PageNo(c, row + 1, 0))
      ensures value' == KnownPages(s0.slots[i].pages, PageNo(c, row + 1, 0))
    {
      hide Valid, TableNumber, FrameNumber, Parking, ConfigOk, PageNo;
      ghost var r := TableRef(i, row);
      ghost var lo := PageNo(c, row, 0);
      ParkingFacts(st, c, s0, id, i, file, lo, lo);
      FindUnique(st.slots, id, i);
      var t := Level2Table(id, row);
      value' := value;
      var e := 0;
      while e < c.E
        invariant e <= c.E && PageNo(c, row, e) <= c.K && lo <= PageNo(c, row, e)
        invariant Valid() && Parking(st, c, s0, i, file, PageNo(c, row, e), lo)
        invariant value' == KnownPages(s0.slots[i].pages, PageNo(c, row, e))
      {
        RowBounds(c, row, e);
        value' := ParkPage(t, row, e, value', r, s0, file, lo);
        e := e + 1;
      }
      RowBounds(c, row, e);
      ParkingCleared(st, c, s0, i, file, PageNo(c, row, e), lo, c.E);
      ClearLevel2(t, r);
    }

    /** HEADER_proceso_suspendido for an active process (`suspender_proceso`). */
    method SuspendActive(id: nat)
      requires Valid() && Inv(st) && Active(st, id)
      modifies this, level1, level2, frames, ram
      ensures Valid() && st == DoSuspend(old(st), id)
    {
      hide Valid, Parking, ConfigOk, PageNo, Inv, FindSlot, DoSuspend, IdIn, Active;
      ConfigIs();
      ghost var i := FindSlot(st.slots, id, 0);
      ghost var s0 := st;
      ParkingStart(st, c, id);
      ghost var file := st.swap[id];
      var size := SizeOf(id, i);
      mapped := id;
      var value := [];
      var row := 0;
      while row < c.E
        invariant row <= c.E && PageNo(c, row, 0) <= c.K && mapped == id
        invariant Valid() && Parking(st, c, s0, i, file, PageNo(c, row, 0), PageNo(c, row, 0))
        invariant value == KnownPages(s0.slots[i].pages, PageNo(c, row, 0))
      {
        value := ParkRow(id, row, value, i, s0, file);
        row := row + 1;
      }
      ParkingEnd(st, c, s0, id, file);
      ClearLevel1(id, i);
      PutRow(id, size, value);
    }

    lemma ConfigIs()
      requires Valid()
      ensures st.c == c
    {
    }

    /** `__aniadir_a_tabla`, with the value array of lines 46-51. */
    method PutRow(id: nat, size: nat, value: seq<nat>)
      requires Valid()
      modifies this`swap, this`suspended, this`nextId, this`st
      ensures Valid() && st == old(st).(suspended := old(st).suspended[id := Suspended(size, value)])
    {
      hide Level1Ok, Level2Ok, FramesOk, RamOk, BigEnough;
      SetTables(swap, suspended[id := [size, |value|] + value], nextId, st.suspended[id := Suspended(size, value)]);
    }

    /** HEADER_proceso_suspendido: a process already suspended is left alone. */
    method SuspendRequest(id: nat)
      requires Valid() && Inv(st) && Enabled(st, Suspend(id))
      modifies this, level1, level2, frames, ram
      ensures Valid() && st == ServeSuspend(old(st), id).0
    {
      hide DoSuspend;
      ActiveOrSuspended(id);
      if id !in suspended {
        SuspendActive(id);
      }
    }
  }
}
