/** The memory server refines a flat array per process.

    `ImageOf(s, id)` is what process id sees: its pages with a stable content.  No
    request but a write changes it, whatever is evicted, loaded, suspended or woken;
    over whole runs, reading back a written byte gives the last value written.
 */
module MemoryProofs {
  import Arith
  import opened Replacement
  import opened Paging
  import opened PagingProofs
  import opened VirtualMemory

  // ---------------------------------------------------------------- images

  lemma FindUnique(slots: seq<Slot>, id: nat, i: nat)
    requires i < |slots| && slots[i].id == id
    requires forall k | 0 <= k < i :: slots[k].id != id
    ensures FindSlot(slots, id, 0) == i
  {
  }

  lemma FindActive(s: State, i: nat)
    requires Inv(s) && i < |s.slots| && s.slots[i].id != 0
    ensures FindSlot(s.slots, s.slots[i].id, 0) == i
  {
    FindUnique(s.slots, s.slots[i].id, i);
  }

  ghost function SwapImage(file: seq<Page>, pages: seq<nat>): map<nat, Page>
    requires forall q | q in pages :: q < |file|
  {
    map q | q in pages :: file[q]
  }

  /** What process id sees. */
  ghost function ImageOf(s: State, id: nat): map<nat, Page> {
    if !Inv(s) || id !in s.swap then map[]
    else if id in s.suspended then SwapImage(s.swap[id], s.suspended[id].pages)
    else Image(s.slots[FindSlot(s.slots, id, 0)], s.swap[id])
  }

  /** Same image for every process but `except`. */
  ghost predicate SameImages(s: State, s': State, except: nat) {
    forall id | id in s.swap && id in s'.swap && id != except :: ImageOf(s', id) == ImageOf(s, id)
  }

  // ---------------------------------------------------------------- one slot changes

  function WithSlot(s: State, i: nat, sl: Slot, file: seq<Page>): State
    requires i < |s.slots|
  {
    s.(slots := s.slots[i := sl], swap := s.swap[s.slots[i].id := file])
  }

  lemma {:induction false} FindOther(a: seq<Slot>, i: nat, sl: Slot, id: nat, from: nat)
    requires i < |a| && from <= |a| && (sl.id == a[i].id || (a[i].id != id && sl.id != id))
    ensures FindSlot(a[i := sl], id, from) == FindSlot(a, id, from)
    decreases |a| - from
  {
    if from < |a| && a[from].id != id {
      FindOther(a, i, sl, id, from + 1);
    }
  }

  /** A slot stays as good as it was when the tables about its process are untouched. */
  lemma SlotOkElsewhere(s: State, s': State, sl: Slot)
    requires s.c.T > 0 && s'.c == s.c && SlotOk(s, sl)
    requires sl.id != 0 ==> sl.id in s'.swap && sl.id !in s'.suspended && s'.swap[sl.id] == s.swap[sl.id]
    ensures SlotOk(s', sl)
  {
    hide Good, Vacant;
  }

  lemma SuspendedElsewhere(s: State, s': State)
    requires s.c.T > 0 && s'.c == s.c && AllSuspendedOk(s)
    requires forall id | id in s'.suspended ::
               && id in s.suspended && id in s.swap && id in s'.swap
               && s'.suspended[id] == s.suspended[id] && s'.swap[id] == s.swap[id]
    ensures AllSuspendedOk(s')
  {
    forall id | id in s'.suspended ensures SuspendedOk(s', id) {
      assert SuspendedOk(s, id);
    }
  }

  /** An active process has its slot, and nothing in the suspended table. */
  lemma ActiveSlot(s: State, id: nat)
    requires Inv(s) && (Active(s, id) || (id in s.swap && id !in s.suspended))
    ensures var i := FindSlot(s.slots, id, 0);
            && i < |s.slots| && s.slots[i].id == id != 0 && SlotOk(s, s.slots[i])
            && id in s.swap && id !in s.suspended && 0 < id < s.nextId && |s.swap[id]| <= s.c.K
            && (forall k | 0 <= k < |s.slots| && k != i :: s.slots[k].id != id)
  {
    hide Good, Vacant;
    assert SlotOk(s, s.slots[FindSlot(s.slots, id, 0)]);
  }

  lemma SlotUpdateInv(s: State, i: nat, sl: Slot, file: seq<Page>)
    requires Inv(s) && i < |s.slots| && s.slots[i].id != 0
    requires SameOwner(s.slots[i], sl) && Good(sl, file, s.c.T) && |file| == |s.swap[s.slots[i].id]|
    ensures var s' := WithSlot(s, i, sl, file);
            && Inv(s') && s'.swap.Keys == s.swap.Keys
            && forall id :: FindSlot(s'.slots, id, 0) == FindSlot(s.slots, id, 0)
  {
    hide Good, Vacant;
    var s' := WithSlot(s, i, sl, file);
    assert SlotOk(s, s.slots[i]);
    forall id: nat ensures FindSlot(s'.slots, id, 0) == FindSlot(s.slots, id, 0) {
      FindOther(s.slots, i, sl, id, 0);
    }
    assert SlotsOk(s') by {
      forall k | 0 <= k < |s'.slots| ensures SlotOk(s', s'.slots[k]) {
        assert SlotOk(s, s.slots[k]);
        if k != i {
          SlotOkElsewhere(s, s', s.slots[k]);
        }
      }
    }
    SuspendedElsewhere(s, s');
  }

  /** An operation on the slot of one process keeps the invariant and leaves every
      other process alone. */
  lemma SlotUpdate(s: State, i: nat, sl: Slot, file: seq<Page>)
    requires Inv(s) && i < |s.slots| && s.slots[i].id != 0
    requires SameOwner(s.slots[i], sl) && Good(sl, file, s.c.T) && |file| == |s.swap[s.slots[i].id]|
    ensures var s' := WithSlot(s, i, sl, file);
            && Inv(s') && s'.swap.Keys == s.swap.Keys
            && ImageOf(s', sl.id) == Image(sl, file)
            && SameImages(s, s', sl.id)
  {
    hide Readable, PointerResident, Shape, FileShape, Vacant;
    var s' := WithSlot(s, i, sl, file);
    SlotUpdateInv(s, i, sl, file);
    FindActive(s, i);
    assert SlotOk(s, s.slots[i]);
    forall id | id in s.swap && id in s'.swap && id != sl.id
      ensures ImageOf(s', id) == ImageOf(s, id)
    {
      assert id in s.suspended || s.slots[FindSlot(s.slots, id, 0)].id == id;
    }
  }

  lemma VacantFree(s: State, p: Place)
    requires Inv(s) && OwnerAt(s, p) != Nobody
    ensures s.slots[p.slot].id != 0
  {
    hide Readable, PointerResident, Shape, FileShape;
    assert SlotOk(s, s.slots[p.slot]);
  }

  /** A frame in use belongs to an active slot and a page of its process. */
  lemma OwnedActive(s: State, p: Place)
    requires Inv(s) && OwnerAt(s, p) != Nobody
    ensures var sl := s.slots[p.slot];
            && sl.id != 0 && sl.id in s.swap && sl.id !in s.suspended && Good(sl, s.swap[sl.id], s.c.T)
            && FindSlot(s.slots, sl.id, 0) == p.slot
            && 0 <= sl.frames[p.frame].page < |sl.pages|
            && |sl.ram| == |sl.frames| && |sl.ram[p.frame]| == s.c.T
            && ImageOf(s, sl.id) == Image(sl, s.swap[sl.id])
            && (sl.frames[p.frame].page in ImageOf(s, sl.id) ==>
                  ImageOf(s, sl.id)[sl.frames[p.frame].page] == sl.ram[p.frame])
  {
    hide Readable, PointerResident, Shape, FileShape, Vacant;
    assert SlotOk(s, s.slots[p.slot]);
    VacantFree(s, p);
    FindActive(s, p.slot);
    FrameContent(s.slots[p.slot], s.swap[s.slots[p.slot].id], s.c.T, p.frame);
  }

  /** Reading changes no image and answers with the bytes of the owner's page. */
  lemma ReadStep(s: State, p: Place)
    requires Inv(s) && Enabled(s, Read(p))
    ensures var (s', reply) := ServeRead(s, p);
            var o := OwnerAt(s, p);
            && Inv(s') && s'.swap.Keys == s.swap.Keys && SameImages(s, s', 0)
            && o.id in s.swap && o.off + WORD <= s.c.T
            && reply.Value? && |reply.v| == WORD
            && (o.page in ImageOf(s, o.id) ==>
                  |ImageOf(s, o.id)[o.page]| == s.c.T
                  && reply == Value(ImageOf(s, o.id)[o.page][o.off..o.off + WORD]))
  {
    hide Readable, PointerResident, Shape, FileShape, Vacant, SwapFresh, MapsInverse;
    OwnedActive(s, p);
    var sl := s.slots[p.slot];
    TouchKeeps(sl, s.swap[sl.id], s.c.T, p.frame);
    SlotUpdate(s, p.slot, Touch(sl, p.frame), s.swap[sl.id]);
    assert ServeRead(s, p).0 == WithSlot(s, p.slot, Touch(sl, p.frame), s.swap[sl.id]);
  }

  /** Writing puts the bytes over the old content of the owner's page (or over
      whatever the frame held if the page was never written) and changes nothing else. */
  ghost predicate Wrote(s: State, s': State, o: Owner, before: Page, v: seq<Byte>) {
    && o != Nobody && o.id in s.swap && o.id in s'.swap
    && |before| == s.c.T && o.off + |v| <= s.c.T
    && (o.page in ImageOf(s, o.id) ==> ImageOf(s, o.id)[o.page] == before)
    && ImageOf(s', o.id) == ImageOf(s, o.id)[o.page := Patch(before, o.off, v)]
    && SameImages(s, s', o.id)
  }

  lemma WriteStep(s: State, p: Place, v: seq<Byte>) returns (before: Page)
    requires Inv(s) && Enabled(s, Write(p, v))
    ensures var s' := ServeWrite(s, p, v).0;
            Inv(s') && s'.swap.Keys == s.swap.Keys && Wrote(s, s', OwnerAt(s, p), before, v)
  {
    hide Inv, Good, Vacant, ImageOf, Store, SameImages;
    OwnedActive(s, p);
    var sl := s.slots[p.slot];
    before := sl.ram[p.frame];
    StoreKeeps(sl, s.swap[sl.id], s.c.T, p.frame, p.off, v);
    var sl' := Store(sl, p.frame, p.off, v);
    SlotUpdate(s, p.slot, sl', s.swap[sl.id]);
    assert ServeWrite(s, p, v).0 == WithSlot(s, p.slot, sl', s.swap[sl.id]);
  }

  /** A page request keeps every image, whatever it evicts, and answers with a frame
      that now holds the page. */
  lemma FrameStep(s: State, t: TableRef, e2: nat)
    requires Inv(s) && Enabled(s, GetFrame(t, e2))
    ensures var (s', reply) := ServeFrame(s, t, e2);
            && Inv(s') && s'.swap.Keys == s.swap.Keys && SameImages(s, s', 0)
            && s'.c == s.c && s'.suspended == s.suspended
            && (forall id | id in s.swap :: |s'.swap[id]| == |s.swap[id]|)
            && (forall id :: FindSlot(s'.slots, id, 0) == FindSlot(s.slots, id, 0))
            && reply.At? && reply.place.off == 0 && reply.place.slot == t.slot && reply.place.frame < s.c.M
            && OwnerAt(s', reply.place) == Owner(s.slots[t.slot].id, PageNo(s.c, t.row, e2), 0)
  {
    hide PointerResident, Shape, FileShape, Vacant, SwapFresh, SelectVictim, SwapIn, SwapOut;
    var q := PageNo(s.c, t.row, e2);
    FrameDefined(s, t, e2);
    var sl := s.slots[t.slot];
    PageInKeeps(s.c.alg, sl, s.swap[sl.id], s.c.T, q);
    var (sl', file') := PageIn(s.c.alg, sl, s.swap[sl.id], q);
    assert sl'.frames[sl'.pages[q].frame] == Frame(true, q);
    hide PageIn, Readable, PointerResident, Shape, FileShape, Vacant;
    SlotUpdateInv(s, t.slot, sl', file');
    SlotUpdate(s, t.slot, sl', file');
    assert ServeFrame(s, t, e2).0 == WithSlot(s, t.slot, sl', file');
    FindActive(s, t.slot);
  }

  // ---------------------------------------------------------------- slots come and go

  /** A vacant slot given to a process whose pages all live in swap, if anywhere. */
  lemma WokenGood(sl: Slot, T: nat, id: nat, sus: Suspended, file: seq<Page>)
    requires Vacant(sl, T) && FileShape(file, T)
    requires forall q | q in sus.pages :: q < |file| && q < |sl.pages|
    ensures var w := Woken(sl, id, sus);
            && Good(w, file, T) && w.id == id && w.size == sus.size
            && |w.pages| == |sl.pages| && |w.frames| == |sl.frames|
    ensures Image(Woken(sl, id, sus), file) == SwapImage(file, sus.pages)
  {
  }

  lemma FreshIsWoken(sl: Slot, T: nat, id: nat, size: nat)
    requires Vacant(sl, T)
    ensures sl.(id := id, size := size) == Woken(sl, id, Suspended(size, []))
  {
    assert Woken(sl, id, Suspended(size, [])).pages == sl.pages;
  }

  /** Suspending flushes exactly what the process had written: its swap image is the
      image it had in memory, and the slot is given back clean. */
  lemma SuspendSlot(sl: Slot, file: seq<Page>, T: nat)
    requires Good(sl, file, T)
    ensures |sl.frames| == |sl.ram| && Vacant(Emptied(sl, T), T) && Vacant(Dropped(sl), T)
    ensures FileShape(FlushedFile(sl, file), T)
    ensures forall q | q in KnownPages(sl.pages, |sl.pages|) :: q < |file| && q < |sl.pages|
    ensures SwapImage(FlushedFile(sl, file), KnownPages(sl.pages, |sl.pages|)) == Image(sl, file)
  {
    var known := KnownPages(sl.pages, |sl.pages|);
    var flushed := FlushedFile(sl, file);
    forall q | q in known ensures flushed[q] == Content(sl, file, q) {
      assert Known(sl.pages[q]);
    }
  }

  /** The memory of a process that is suspended is zeroed, frame by frame as far as it was in
      use; that of one that ends is left as it was. */
  lemma MemoryGivenBack(sl: Slot, T: nat, j: nat)
    requires |sl.frames| == |sl.ram| && j < |sl.ram|
    ensures |Emptied(sl, T).ram| == |sl.ram| && Dropped(sl).ram == sl.ram
    ensures sl.frames[j].inUse ==>
              |Emptied(sl, T).ram[j]| == T && forall k | 0 <= k < T :: Emptied(sl, T).ram[j][k] == 0
    ensures !sl.frames[j].inUse ==> Emptied(sl, T).ram[j] == sl.ram[j]
  {
  }

  /** Process id keeps its own slot, file and suspended row: nothing else decides
      what it sees. */
  predicate Untouched(s: State, s': State, id: nat) {
    && id in s.swap && id in s'.swap && s.swap[id] == s'.swap[id]
    && (id in s.suspended <==> id in s'.suspended)
    && (id in s.suspended ==> s.suspended[id] == s'.suspended[id])
    && FindSlot(s.slots, id, 0) == FindSlot(s'.slots, id, 0)
    && |s.slots| == |s'.slots|
    && (FindSlot(s.slots, id, 0) < |s.slots| ==>
          s.slots[FindSlot(s.slots, id, 0)] == s'.slots[FindSlot(s.slots, id, 0)])
  }

  lemma UntouchedImage(s: State, s': State, id: nat)
    requires Inv(s) && Inv(s') && Untouched(s, s', id)
    ensures ImageOf(s', id) == ImageOf(s, id)
  {
    hide Good, Vacant;
  }

  lemma OwnedPresent(s: State, id: nat, p: Place)
    requires Inv(s) && OwnerAt(s, p) != Nobody && OwnerAt(s, p).id == id
    ensures var sl := s.slots[p.slot];
            var q := sl.frames[p.frame].page;
            && id in s.swap && id !in s.suspended && 0 <= q < |sl.pages|
            && sl.pages[q].present && sl.pages[q].frame == p.frame
            && FindSlot(s.slots, id, 0) == p.slot
  {
    hide PointerResident, Shape, FileShape, Vacant;
    OwnedActive(s, p);
  }

  /** What a process owns is decided by its own slot. */
  lemma UntouchedOwner(s: State, s': State, id: nat, p: Place)
    requires Inv(s) && Untouched(s, s', id) && OwnerAt(s, p) != Nobody && OwnerAt(s, p).id == id
    ensures OwnerAt(s', p) == OwnerAt(s, p)
  {
    OwnedPresent(s, id, p);
    hide Inv;
  }

  lemma UntouchedSelf(s: State, id: nat)
    ensures id in s.swap ==> Untouched(s, s, id)
  {
  }

  lemma UntouchedTrans(s: State, s1: State, s2: State, id: nat)
    requires Untouched(s, s1, id) && Untouched(s1, s2, id)
    ensures Untouched(s, s2, id)
  {
  }

  /** Four moves every admission, suspension, wake-up and end is made of. */
  function Enter(s: State, i: nat, sl: Slot, file: seq<Page>): State
    requires i < |s.slots|
  {
    s.(slots := s.slots[i := sl], swap := s.swap[sl.id := file])
  }

  function Leave(s: State, i: nat, sl: Slot): State
    requires i < |s.slots|
  {
    s.(slots := s.slots[i := sl], swap := s.swap - {s.slots[i].id})
  }

  function Park(s: State, id: nat, file: seq<Page>, sus: Suspended): State {
    s.(swap := s.swap[id := file], suspended := s.suspended[id := sus])
  }

  function Unpark(s: State, id: nat): State {
    s.(swap := s.swap - {id}, suspended := s.suspended - {id})
  }

  lemma VacantId(sl: Slot, T: nat)
    requires Vacant(sl, T)
    ensures sl.id == 0
  {
  }

  lemma EnterInv(s: State, i: nat, sl: Slot, file: seq<Page>)
    requires Inv(s) && i < |s.slots| && s.slots[i].id == 0
    requires 0 < sl.id < s.nextId && sl.id !in s.swap
    requires |sl.pages| == s.c.K && |sl.frames| == s.c.M
    requires |file| == sl.size / s.c.T <= s.c.K && Good(sl, file, s.c.T)
    ensures var s' := Enter(s, i, sl, file);
            && Inv(s') && FindSlot(s'.slots, sl.id, 0) == i
            && forall id | id in s.swap :: Untouched(s, s', id)
  {
    hide Good, Vacant, SlotsOk, SlotOk;
    var s' := Enter(s, i, sl, file);
    NoSlotHas(s, sl.id);
    FindUnique(s'.slots, sl.id, i);
    EnterUntouched(s, i, sl, file);
    EnterSlots(s, i, sl, file);
    SuspendedElsewhere(s, s');
    hide Untouched;
  }

  lemma EnterUntouched(s: State, i: nat, sl: Slot, file: seq<Page>)
    requires i < |s.slots| && s.slots[i].id == 0 && sl.id !in s.swap && 0 !in s.swap
    ensures forall id | id in s.swap :: Untouched(s, Enter(s, i, sl, file), id)
  {
    forall id | id in s.swap ensures Untouched(s, Enter(s, i, sl, file), id) {
      FindOther(s.slots, i, sl, id, 0);
    }
  }

  lemma NoSlotHas(s: State, id: nat)
    requires s.c.T > 0 && SlotsOk(s) && id != 0 && id !in s.swap
    ensures forall k | 0 <= k < |s.slots| :: s.slots[k].id != id
  {
    hide Good, Vacant;
    assert forall k | 0 <= k < |s.slots| :: SlotOk(s, s.slots[k]);
  }

  lemma EnterSlots(s: State, i: nat, sl: Slot, file: seq<Page>)
    requires s.c.T > 0 && SlotsOk(s) && i < |s.slots| && sl.id != 0 && sl.id !in s.swap && sl.id !in s.suspended
    requires |sl.pages| == s.c.K && |sl.frames| == s.c.M
    requires |file| == sl.size / s.c.T <= s.c.K && Good(sl, file, s.c.T)
    ensures SlotsOk(Enter(s, i, sl, file))
  {
    hide Good, Vacant;
    var s' := Enter(s, i, sl, file);
    forall k | 0 <= k < |s'.slots| ensures SlotOk(s', s'.slots[k]) {
      assert SlotOk(s, s.slots[k]);
      if k != i {
        SlotOkElsewhere(s, s', s.slots[k]);
      }
    }
  }

  lemma LeaveInv(s: State, i: nat, sl: Slot)
    requires Inv(s) && i < |s.slots| && s.slots[i].id != 0 && Vacant(sl, s.c.T)
    requires |sl.pages| == s.c.K && |sl.frames| == s.c.M
    ensures var s' := Leave(s, i, sl);
            && Inv(s') && s.slots[i].id !in s.suspended
            && forall id | id in s'.swap :: Untouched(s, s', id)
  {
    hide Good, Vacant;
    VacantId(sl, s.c.T);
    var s' := Leave(s, i, sl);
    assert SlotOk(s, s.slots[i]);
    forall id | id in s'.swap ensures Untouched(s, s', id) {
      FindOther(s.slots, i, sl, id, 0);
    }
    assert LiveOk(s') by {
      assert forall id | id in s'.swap :: id in s.swap && Untouched(s, s', id);
    }
    assert IdsDistinct(s'.slots);
    LeaveSlots(s, i, sl);
    SuspendedElsewhere(s, s');
  }

  lemma LeaveSlots(s: State, i: nat, sl: Slot)
    requires s.c.T > 0 && SlotsOk(s) && IdsDistinct(s.slots) && i < |s.slots| && s.slots[i].id != 0
    requires Vacant(sl, s.c.T) && sl.id == 0 && |sl.pages| == s.c.K && |sl.frames| == s.c.M
    ensures SlotsOk(Leave(s, i, sl))
  {
    hide Good, Vacant;
    var s' := Leave(s, i, sl);
    forall k | 0 <= k < |s'.slots| ensures SlotOk(s', s'.slots[k]) {
      assert SlotOk(s, s.slots[k]);
      if k != i {
        SlotOkElsewhere(s, s', s.slots[k]);
      }
    }
  }

  lemma ParkInv(s: State, id: nat, file: seq<Page>, sus: Suspended)
    requires Inv(s) && 0 < id < s.nextId && id !in s.swap
    requires |file| == sus.size / s.c.T <= s.c.K && FileShape(file, s.c.T)
    requires forall q | q in sus.pages :: q < |file| && q < s.c.K
    ensures Inv(Park(s, id, file, sus))
  {
    hide Good, Vacant;
    var s' := Park(s, id, file, sus);
    assert SlotsOk(s') by {
      forall k | 0 <= k < |s'.slots| ensures SlotOk(s', s'.slots[k]) {
        assert SlotOk(s, s.slots[k]);
        SlotOkElsewhere(s, s', s.slots[k]);
      }
    }
    assert AllSuspendedOk(s') by {
      forall x | x in s'.suspended ensures SuspendedOk(s', x) {
        assert x != id ==> SuspendedOk(s, x);
      }
    }
  }

  lemma UnparkInv(s: State, id: nat)
    requires Inv(s) && id in s.suspended
    ensures Inv(Unpark(s, id))
  {
    hide Good, Vacant;
    var s' := Unpark(s, id);
    assert SlotsOk(s') by {
      forall k | 0 <= k < |s'.slots| ensures SlotOk(s', s'.slots[k]) {
        assert SlotOk(s, s.slots[k]);
        SlotOkElsewhere(s, s', s.slots[k]);
      }
    }
    SuspendedElsewhere(s, s');
  }

  // ---------------------------------------------------------------- kernel requests

  /** Every live process but `except` is untouched. */
  ghost predicate OthersUntouched(s: State, s': State, except: nat) {
    forall x | x in s.swap && x != except :: Untouched(s, s', x)
  }

  lemma OthersImages(s: State, s': State, id: nat)
    requires Inv(s) && Inv(s') && OthersUntouched(s, s', id)
    ensures SameImages(s, s', id)
  {
    hide Inv, Untouched;
    forall x | x in s.swap && x in s'.swap && x != id ensures ImageOf(s', x) == ImageOf(s, x) {
      assert Untouched(s, s', x);
      UntouchedImage(s, s', x);
    }
  }

  /** Waking is leaving the suspended table and entering the first free slot. */
  lemma WakeMoves(s: State, id: nat)
    requires id in s.suspended && id in s.swap && HasFree(s)
    ensures var i := FindSlot(s.slots, 0, 0);
            Wake(s, id) == Enter(Unpark(s, id), i, Woken(s.slots[i], id, s.suspended[id]), s.swap[id])
  {
    var i := FindSlot(s.slots, 0, 0);
    assert (s.swap - {id})[id := s.swap[id]] == s.swap;
  }

  lemma WakeInv(s: State, id: nat)
    requires Inv(s) && id in s.suspended && HasFree(s)
    ensures var s' := Wake(s, id);
            && Inv(s') && s'.swap == s.swap && s'.suspended == s.suspended - {id}
            && FindSlot(s'.slots, id, 0) == FindSlot(s.slots, 0, 0) < |s'.slots|
            && ImageOf(s', id) == ImageOf(s, id)
            && OthersUntouched(s, s', id)
  {
    assert SuspendedOk(s, id) && SlotOk(s, s.slots[FindSlot(s.slots, 0, 0)]);
    assert ConfigOk(s.c) && 0 < id < s.nextId && |s.swap[id]| <= s.c.K;
    hide Inv, Image, SwapImage, Woken, Readable, PointerResident, Shape, FileShape, Vacant;
    var i := FindSlot(s.slots, 0, 0);
    var sus := s.suspended[id];
    var sl := Woken(s.slots[i], id, sus);
    UnparkInv(s, id);
    WokenGood(s.slots[i], s.c.T, id, sus, s.swap[id]);
    var s1 := Unpark(s, id);
    EnterInv(s1, i, sl, s.swap[id]);
    WakeMoves(s, id);
    var s' := Enter(s1, i, sl, s.swap[id]);
    forall x | x in s.swap && x != id ensures Untouched(s, s', x) {
      assert Untouched(s1, s', x);
    }
  }

  /** Waking a process gives it a free slot, possibly another one, and changes no image. */
  lemma WakeStep(s: State, id: nat)
    requires Inv(s) && id in s.suspended && HasFree(s)
    ensures var s' := Wake(s, id);
            && Inv(s') && s'.swap == s.swap && s'.suspended == s.suspended - {id}
            && FindSlot(s'.slots, id, 0) == FindSlot(s.slots, 0, 0) < |s'.slots|
            && SameImages(s, s', 0)
  {
    hide Inv, Untouched;
    WakeInv(s, id);
    OthersImages(s, Wake(s, id), id);
  }

  lemma ZeroFile(n: nat, T: nat)
    ensures FileShape(seq(n, q => seq(T, k => 0)), T)
  {
  }

  lemma NextIdInv(s: State)
    requires Inv(s)
    ensures Inv(s.(nextId := s.nextId + 1)) && s.nextId !in s.swap && 0 < s.nextId
  {
    hide Good, Vacant;
    var s' := s.(nextId := s.nextId + 1);
    assert SlotsOk(s') by {
      forall k | 0 <= k < |s'.slots| ensures SlotOk(s', s'.slots[k]) {
        assert SlotOk(s, s.slots[k]);
        SlotOkElsewhere(s, s', s.slots[k]);
      }
    }
    SuspendedElsewhere(s, s');
  }

  lemma VacantSlot(s: State, i: nat)
    requires Inv(s) && i < |s.slots| && s.slots[i].id == 0
    ensures Vacant(s.slots[i], s.c.T) && |s.slots[i].pages| == s.c.K && |s.slots[i].frames| == s.c.M
    ensures s.nextId !in s.suspended
  {
    assert SlotOk(s, s.slots[i]);
    assert s.nextId in s.suspended ==> SuspendedOk(s, s.nextId);
    hide Vacant, Good;
  }

  lemma AdmitInv(s: State, size: nat)
    requires Inv(s) && HasFree(s) && size <= s.c.K * s.c.T
    ensures var s' := ServeCreate(s, size).0;
            && Inv(s') && s.nextId !in s.swap && s.nextId !in s'.suspended
            && s'.swap.Keys == s.swap.Keys + {s.nextId}
            && ImageOf(s', s.nextId) == map[]
            && OthersUntouched(s, s', 0)
  {
    hide Readable, PointerResident, Shape, FileShape, Vacant, SwapFresh, MapsInverse, Image, Woken;
    hide SlotsOk, LiveOk, AllSuspendedOk, IdsDistinct;
    var i := FindSlot(s.slots, 0, 0);
    var id := s.nextId;
    var file := seq(size / s.c.T, q => seq(s.c.T, k => 0));
    var sl := s.slots[i].(id := id, size := size);
    VacantSlot(s, i);
    ZeroFile(size / s.c.T, s.c.T);
    Arith.DivAtMost(size, s.c.K, s.c.T);
    FreshIsWoken(s.slots[i], s.c.T, id, size);
    WokenGood(s.slots[i], s.c.T, id, Suspended(size, []), file);
    NextIdInv(s);
    var s1 := s.(nextId := id + 1);
    EnterInv(s1, i, sl, file);
    assert ServeCreate(s, size).0 == Enter(s1, i, sl, file);
    forall x | x in s.swap ensures Untouched(s, ServeCreate(s, size).0, x) {
      assert Untouched(s1, Enter(s1, i, sl, file), x);
    }
  }

  /** A process is created exactly when its size fits and a slot is free; it starts
      with nothing written, and nobody else notices. */
  lemma CreateStep(s: State, size: nat)
    requires Inv(s)
    ensures var (s', reply) := ServeCreate(s, size);
            && Inv(s') && SameImages(s, s', 0)
            && (reply.Id? || reply.Refused?)
            && (reply.Id? <==> size <= s.c.K * s.c.T && HasFree(s))
            && (reply.Refused? ==> s' == s)
            && (reply.Id? ==>
                  && reply.id !in s.swap && s'.swap.Keys == s.swap.Keys + {reply.id}
                  && reply.id !in s'.suspended && ImageOf(s', reply.id) == map[])
  {
    assert ConfigOk(s.c);
    hide Inv, Untouched;
    if size <= s.c.K * s.c.T && HasFree(s) {
      AdmitInv(s, size);
      OthersImages(s, ServeCreate(s, size).0, 0);
    }
  }

  /** A process that was active leaves a free slot behind. */
  predicate FreesSlot(s: State, s': State, id: nat) {
    id !in s.suspended ==>
      && FindSlot(s.slots, id, 0) < |s.slots| == |s'.slots|
      && s'.slots[FindSlot(s.slots, id, 0)].id == 0
  }

  /** Suspending is leaving the slot and entering the suspended table. */
  lemma SuspendMoves(s: State, id: nat)
    requires Inv(s) && Active(s, id)
    ensures id in s.swap
    ensures var i := FindSlot(s.slots, id, 0);
            var sl := s.slots[i];
            && Readable(sl, s.swap[id])
            && DoSuspend(s, id) == Park(Leave(s, i, Emptied(sl, s.c.T)), id, FlushedFile(sl, s.swap[id]),
                                        Suspended(sl.size, KnownPages(sl.pages, |sl.pages|)))
  {
    hide Readable, PointerResident, Shape, FileShape, Vacant, MapsInverse, SwapFresh, SlotsOk, IdsDistinct;
    hide AllSuspendedOk, LiveOk;
    ActiveSlot(s, id);
    var i := FindSlot(s.slots, id, 0);
    var f := FlushedFile(s.slots[i], s.swap[id]);
    assert (s.swap - {id})[id := f] == s.swap[id := f];
  }

  lemma SuspendInv(s: State, id: nat)
    requires Inv(s) && Active(s, id)
    ensures var s' := DoSuspend(s, id);
            && id in s.swap && id !in s.suspended
            && Inv(s') && s'.swap.Keys == s.swap.Keys && id in s'.suspended
            && ImageOf(s', id) == ImageOf(s, id)
            && OthersUntouched(s, s', id) && FreesSlot(s, s', id)
  {
    hide Inv, Readable, PointerResident, Shape, FileShape, Vacant, SwapFresh, MapsInverse, Image, DoSuspend;
    ActiveSlot(s, id);
    var i := FindSlot(s.slots, id, 0);
    var sl := s.slots[i];
    var file := FlushedFile(sl, s.swap[id]);
    var sus := Suspended(sl.size, KnownPages(sl.pages, |sl.pages|));
    SuspendSlot(sl, s.swap[id], s.c.T);
    var sl' := Emptied(sl, s.c.T);
    LeaveInv(s, i, sl');
    var s1 := Leave(s, i, sl');
    ParkInv(s1, id, file, sus);
    SuspendMoves(s, id);
    var s' := Park(s1, id, file, sus);
    forall x | x in s.swap && x != id ensures Untouched(s, s', x) {
      assert Untouched(s, s1, x);
    }
    VacantId(sl', s.c.T);
  }

  /** Suspension moves the process to the suspended table and changes no image; its
      slot is free afterwards.  Suspending twice does nothing. */
  lemma SuspendStep(s: State, id: nat)
    requires Inv(s) && id in s.swap
    ensures var s' := ServeSuspend(s, id).0;
            && Inv(s') && s'.swap.Keys == s.swap.Keys && SameImages(s, s', 0)
            && id in s'.suspended && FreesSlot(s, s', id)
            && (id in s.suspended ==> s' == s)
  {
    assert id in s.suspended || Active(s, id);
    hide Inv, Untouched;
    if id !in s.suspended {
      SuspendInv(s, id);
      OthersImages(s, DoSuspend(s, id), id);
    }
  }

  lemma FinishInv(s: State, id: nat)
    requires Inv(s) && id in s.swap
    ensures var s' := ServeFinish(s, id).0;
            && Inv(s') && s'.swap.Keys == s.swap.Keys - {id}
            && OthersUntouched(s, s', id) && FreesSlot(s, s', id)
  {
    hide Readable, PointerResident, Shape, FileShape, Vacant;
    var s' := ServeFinish(s, id).0;
    if id in s.suspended {
      UnparkInv(s, id);
      assert s' == Unpark(s, id);
    } else {
      var i := FindSlot(s.slots, id, 0);
      assert SlotOk(s, s.slots[i]);
      SuspendSlot(s.slots[i], s.swap[id], s.c.T);
      LeaveInv(s, i, Dropped(s.slots[i]));
      assert s' == Leave(s, i, Dropped(s.slots[i]));
    }
  }

  lemma FinishStep(s: State, id: nat)
    requires Inv(s) && id in s.swap
    ensures var s' := ServeFinish(s, id).0;
            && Inv(s') && s'.swap.Keys == s.swap.Keys - {id} && SameImages(s, s', 0)
            && FreesSlot(s, s', id)
  {
    FinishInv(s, id);
    var s' := ServeFinish(s, id).0;
    hide Inv, Untouched;
    OthersImages(s, s', id);
  }

  // ---------------------------------------------------------------- round trip

  /** The slot a wake-up hands out holds the process with the pages of its row in swap
      and nothing in memory. */
  lemma WokenSlot(s: State, id: nat)
    requires Inv(s) && id in s.suspended && HasFree(s)
    ensures var i := FindSlot(Wake(s, id).slots, id, 0);
            && i < |Wake(s, id).slots| && |Wake(s, id).slots[i].pages| == s.c.K
            && var sl := Wake(s, id).slots[i];
               && sl.size == s.suspended[id].size
               && forall q | 0 <= q < s.c.K ::
                    sl.pages[q] == BLANK.(inSwap := q in s.suspended[id].pages)
  {
    WakeInv(s, id);
    assert SlotOk(s, s.slots[FindSlot(s.slots, 0, 0)]);
    hide Inv, SlotOk;
  }

  /** Suspended, and woken from a later state that has its row and file as they were, a
      process finds its image, its size and exactly the pages it had written, all of
      them in swap, whatever slot it wakes in. */
  lemma WakeRestores(s: State, later: State, id: nat)
    requires Inv(s) && Active(s, id) && Inv(later) && later.c == s.c && HasFree(later)
    requires Untouched(DoSuspend(s, id), later, id)
    ensures var s1 := DoSuspend(s, id);
            var s3 := Wake(later, id);
            var i, k := FindSlot(s.slots, id, 0), FindSlot(s3.slots, id, 0);
            && i < |s.slots| == |s1.slots| && k < |s3.slots|
            && Vacant(s1.slots[i], s.c.T)
            && Inv(s3) && ImageOf(s3, id) == ImageOf(s, id)
            && |s.slots[i].pages| == |s3.slots[k].pages| == s.c.K
            && s3.slots[k].size == s.slots[i].size
            && forall q | 0 <= q < s.c.K :: s3.slots[k].pages[q] == BLANK.(inSwap := Known(s.slots[i].pages[q]))
  {
    hide Good, Vacant, Untouched, Readable, ImageOf, Emptied, FlushedFile, Wake;
    ActiveSlot(s, id);
    SuspendInv(s, id);
    var s1 := DoSuspend(s, id);
    var i := FindSlot(s.slots, id, 0);
    SuspendSlot(s.slots[i], s.swap[id], s.c.T);
    UntouchedImage(s1, later, id);
    assert id in later.suspended && later.suspended[id] == s1.suspended[id] by {
      UntouchedRow(s1, later, id);
    }
    WakeInv(later, id);
    WokenSlot(later, id);
  }

  lemma UntouchedRow(s: State, s': State, id: nat)
    requires Untouched(s, s', id) && id in s.suspended
    ensures id in s'.suspended && s'.suspended[id] == s.suspended[id]
  {
  }

  /** A process never has more pages in memory than frames. */
  lemma {:induction false} ResidentAtMostFrames(sl: Slot, file: seq<Page>, T: nat, resident: set<nat>)
    requires Good(sl, file, T)
    requires resident == set q | 0 <= q < |sl.pages| && sl.pages[q].present
    ensures |resident| <= |sl.frames|
  {
    var frames: set<nat> := set q | q in resident :: sl.pages[q].frame;
    SameSize(sl, resident, frames);
    Arith.Subsets(frames, Arith.Below(|sl.frames|));
  }

  lemma {:induction false} SameSize(sl: Slot, resident: set<nat>, frames: set<nat>)
    requires MapsInverse(sl) && forall q | q in resident :: q < |sl.pages| && sl.pages[q].present
    requires frames == set q | q in resident :: sl.pages[q].frame
    ensures |frames| == |resident|
    decreases resident
  {
    if resident != {} {
      var q :| q in resident;
      var rest := resident - {q};
      var restFrames: set<nat> := set x | x in rest :: sl.pages[x].frame;
      SameSize(sl, rest, restFrames);
      assert frames == restFrames + {sl.pages[q].frame};
      assert sl.frames[sl.pages[q].frame].page == q;
    }
  }
}
