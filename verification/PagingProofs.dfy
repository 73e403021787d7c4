/** What the operations on one slot keep: the maps stay inverse, swap stays fresh,
    the pointer stays resident, and no page fault changes what the process sees. */
module PagingProofs {
  import opened Replacement
  import opened Paging

  /** Nothing of the slot's identity or shape changes. */
  ghost predicate SameOwner(a: Slot, b: Slot) {
    a.id == b.id && a.size == b.size && |a.pages| == |b.pages| && |a.frames| == |b.frames| && |a.ram| == |b.ram|
  }

  lemma ImageByPage(sl: Slot, file: seq<Page>, sl': Slot, file': seq<Page>)
    requires Readable(sl, file)
    requires Readable(sl', file')
    requires |sl.pages| == |sl'.pages|
    requires forall q | 0 <= q < |sl.pages| :: Known(sl.pages[q]) == Known(sl'.pages[q])
    requires forall q | 0 <= q < |sl.pages| && Known(sl.pages[q]) :: Content(sl, file, q) == Content(sl', file', q)
    ensures Image(sl, file) == Image(sl', file')
  {
  }

  /** The slot after loading page q into a free frame. */
  function LoadedFree(sl: Slot, file: seq<Page>, q: nat): Slot
    requires q < |sl.pages| && q < |file| && FirstFree(sl.frames, 0) < |sl.frames| == |sl.ram|
  {
    var j := FirstFree(sl.frames, 0);
    SwapIn(if j == 0 then sl.(pointer := q) else sl, file, q, j)
  }

  lemma LoadFreeMaps(sl: Slot, file: seq<Page>, T: nat, q: nat)
    requires Shape(sl, T) && FileShape(file, T) && Readable(sl, file)
    requires q < |sl.pages| && q < |file| && !sl.pages[q].present
    requires FirstFree(sl.frames, 0) < |sl.frames|
    ensures var sl' := LoadedFree(sl, file, q);
            && Shape(sl', T) && Readable(sl', file)
            && Image(sl', file) == Image(sl, file)
  {
    ImageByPage(sl, file, LoadedFree(sl, file, q), file);
  }

  lemma LoadFreePointer(sl: Slot, file: seq<Page>, q: nat)
    requires |sl.frames| == |sl.ram| > 0 && PointerResident(sl)
    requires q < |sl.pages| && q < |file| && FirstFree(sl.frames, 0) < |sl.frames|
    ensures PointerResident(LoadedFree(sl, file, q))
  {
    var j := FirstFree(sl.frames, 0);
    var sl' := LoadedFree(sl, file, q);
    assert sl'.frames[j] == Frame(true, q);
    if j > 0 && |sl.frames| >= 2 {
      var k :| 0 <= k < |sl.frames| && sl.frames[k] == Frame(true, sl.pointer);
      assert k != j;
      assert sl'.frames[k] == Frame(true, sl'.pointer);
    }
  }

  /** Loading into a free frame. */
  lemma LoadFree(sl: Slot, file: seq<Page>, T: nat, q: nat)
    requires Good(sl, file, T) && q < |sl.pages| && q < |file| && !sl.pages[q].present
    requires FirstFree(sl.frames, 0) < |sl.frames|
    ensures var j := FirstFree(sl.frames, 0);
            var sl' := LoadedFree(sl, file, q);
            && Good(sl', file, T) && SameOwner(sl, sl')
            && Image(sl', file) == Image(sl, file)
            && sl'.pages == sl.pages[q := Entry(j, true, false, false, sl.pages[q].inSwap)]
            && sl'.frames == sl.frames[j := Frame(true, q)]
  {
    LoadFreeMaps(sl, file, T, q);
    LoadFreePointer(sl, file, q);
  }

  /** `__swap_marco`: the victim goes out and the page comes into its frame. */
  lemma Swap(sl: Slot, file: seq<Page>, T: nat, victim: nat, q: nat)
    requires Shape(sl, T) && FileShape(file, T) && Readable(sl, file)
    requires victim < |sl.pages| && sl.pages[victim].present
    requires q < |sl.pages| && q < |file| && !sl.pages[q].present
    ensures var j := sl.pages[victim].frame;
            var (out, file') := SwapOut(sl, file, victim);
            var sl' := SwapIn(out, file', q, j);
            && Shape(sl', T) && FileShape(file', T) && Readable(sl', file')
            && |file'| == |file|
            && sl'.frames == sl.frames[j := Frame(true, q)] && sl'.pointer == sl.pointer && SameOwner(sl, sl')
            && sl'.pages[q].present && sl'.pages[q].frame == j && !sl'.pages[victim].present
            && (forall x | 0 <= x < |sl.pages| && x != q && x != victim :: sl'.pages[x] == sl.pages[x])
            && Image(sl', file') == Image(sl, file)
            && (!sl.pages[victim].modified ==> file' == file && sl'.pages[victim].inSwap == sl.pages[victim].inSwap)
            && (sl.pages[victim].modified ==>
                  && victim < |file| && file' == file[victim := sl.ram[j]] && sl'.pages[victim].inSwap)
  {
    var j := sl.pages[victim].frame;
    var (out, file') := SwapOut(sl, file, victim);
    var sl' := SwapIn(out, file', q, j);
    assert victim != q;
    assert sl'.frames == sl.frames[j := Frame(true, q)];
    assert sl'.pages[victim] == out.pages[victim];
    assert MapsInverse(sl');
    ImageByPage(sl, file, sl', file');
  }

  /** The pointer the selection left still names a resident page after its victim's
      frame has been given to page q. */
  lemma EvictPointer(swept: Slot, sl': Slot, j: nat, victim: nat, q: nat)
    requires |swept.frames| > 0 && (forall k | 0 <= k < |swept.frames| :: swept.frames[k].inUse)
    requires j < |swept.frames| && swept.frames[j] == Frame(true, victim)
    requires exists k :: 0 <= k < |swept.frames| && swept.frames[k] == Frame(true, swept.pointer)
    requires |swept.frames| >= 2 ==> swept.pointer != victim
    requires sl'.frames == swept.frames[j := Frame(true, q)] && sl'.pointer == swept.pointer
    ensures PointerResident(sl')
  {
    var k :| 0 <= k < |swept.frames| && swept.frames[k] == Frame(true, swept.pointer);
    assert |swept.frames| >= 2 ==> sl'.frames[k] == swept.frames[k];
  }

  lemma SweepKeeps(alg: Algorithm, sl: Slot, file: seq<Page>, T: nat)
    requires Good(sl, file, T) && forall j | 0 <= j < |sl.frames| :: sl.frames[j].inUse
    ensures AllResident(sl)
    ensures var swept := SelectVictim(alg, sl).1;
            && Shape(swept, T) && Readable(swept, file)
            && Image(swept, file) == Image(sl, file)
  {
    SelectionFacts(alg, sl);
    var swept := SelectVictim(alg, sl).1;
    assert SwapFresh(swept, file);
    ImageByPage(sl, file, swept, file);
  }

  /** A page fault with all frames in use. */
  lemma EvictKeeps(alg: Algorithm, sl: Slot, file: seq<Page>, T: nat, q: nat)
    requires Good(sl, file, T) && q < |sl.pages| && q < |file| && !sl.pages[q].present
    requires forall j | 0 <= j < |sl.frames| :: sl.frames[j].inUse
    ensures AllResident(sl)
    ensures var (victim, swept) := SelectVictim(alg, sl);
            var (sl', file') := PageIn(alg, sl, file, q);
            && sl.pages[victim].present
            && Good(sl', file', T) && SameOwner(sl, sl') && |file'| == |file|
            && Image(sl', file') == Image(sl, file)
            && sl'.pages[q].present && sl'.pages[q].frame == sl.pages[victim].frame && !sl'.pages[victim].present
            && sl'.pointer == swept.pointer
            && sl'.frames == sl.frames[sl.pages[victim].frame := Frame(true, q)]
            && (forall x | 0 <= x < |sl.pages| && x != q && x != victim :: sl'.pages[x] == swept.pages[x])
  {
    SweepKeeps(alg, sl, file, T);
    SelectionFacts(alg, sl);
    var (victim, swept) := SelectVictim(alg, sl);
    Swap(swept, file, T, victim, q);
    var (sl', file') := PageIn(alg, sl, file, q);
    EvictPointer(swept, sl', sl.pages[victim].frame, victim, q);
  }

  /** A page fault keeps every invariant, makes the page present and changes nothing
      the process sees, whichever victim is evicted. */
  lemma PageInKeeps(alg: Algorithm, sl: Slot, file: seq<Page>, T: nat, q: nat)
    requires Good(sl, file, T) && q < |sl.pages| && q < |file|
    ensures var (sl', file') := PageIn(alg, sl, file, q);
            && Good(sl', file', T) && SameOwner(sl, sl') && |file'| == |file|
            && Image(sl', file') == Image(sl, file)
            && sl'.pages[q].present
  {
    if !sl.pages[q].present {
      if FirstFree(sl.frames, 0) < |sl.frames| {
        LoadFree(sl, file, T, q);
      } else {
        EvictKeeps(alg, sl, file, T, q);
      }
    }
  }

  /** What a frame in use holds. */
  lemma FrameContent(sl: Slot, file: seq<Page>, T: nat, j: nat)
    requires Good(sl, file, T) && j < |sl.frames| && sl.frames[j].inUse
    ensures 0 <= sl.frames[j].page < |sl.pages| && |sl.ram| == |sl.frames| && |sl.ram[j]| == T
    ensures sl.frames[j].page in Image(sl, file) ==> Image(sl, file)[sl.frames[j].page] == sl.ram[j]
  {
  }

  /** A read through the frame of a page marks it used and changes nothing else. */
  lemma TouchKeeps(sl: Slot, file: seq<Page>, T: nat, j: nat)
    requires Good(sl, file, T) && j < |sl.frames| && sl.frames[j].inUse
    ensures Good(Touch(sl, j), file, T) && SameOwner(sl, Touch(sl, j))
    ensures Image(Touch(sl, j), file) == Image(sl, file)
  {
    ImageByPage(sl, file, Touch(sl, j), file);
  }

  lemma StoreGood(sl: Slot, file: seq<Page>, T: nat, j: nat, off: nat, v: seq<Byte>)
    requires Good(sl, file, T) && j < |sl.frames| && sl.frames[j].inUse && off + |v| <= T
    ensures Good(Store(sl, j, off, v), file, T)
  {
    var sl' := Store(sl, j, off, v);
    assert PointerResident(sl') by {
      assert sl'.frames == sl.frames;
    }
    var q := sl.frames[j].page;
    assert forall x | 0 <= x < |sl.pages| && x != q :: sl'.pages[x] == sl.pages[x];
  }

  /** A write through the frame of page q makes q known, with the bytes of the frame
      and the new ones over them; no other page changes. */
  lemma StoreKeeps(sl: Slot, file: seq<Page>, T: nat, j: nat, off: nat, v: seq<Byte>)
    requires Good(sl, file, T) && j < |sl.frames| && sl.frames[j].inUse && off + |v| <= T
    ensures var sl' := Store(sl, j, off, v);
            && Good(sl', file, T) && SameOwner(sl, sl')
            && Image(sl', file) == Image(sl, file)[sl.frames[j].page := Patch(sl.ram[j], off, v)]
  {
    hide PointerResident, FileShape;
    StoreGood(sl, file, T, j, off, v);
    var sl' := Store(sl, j, off, v);
    var q := sl.frames[j].page;
    assert forall x | 0 <= x < |sl.pages| && x != q && Known(sl.pages[x]) ::
        Content(sl', file, x) == Content(sl, file, x);
  }
}
