/** The clocks of the whole server.

    Over every run of requests, of the CPU and of the kernel, about whatever processes, the
    frames, bits and pointer of a slot are those of a textbook clock of the algorithm that was
    configured, run on the requests that reach the slot and on no others.
 */
module ServerClock {
  import opened Replacement
  import opened Paging
  import opened PagingProofs
  import opened VirtualMemory
  import opened MemoryProofs
  import opened FlatMemory
  import opened RequestRuns
  import C = TextbookClock

  /** What a request is to the clock of slot i. */
  function EventAt(s: State, r: Request, i: nat): seq<C.Event> {
    match r
    case GetFrame(t, e2) => if t.slot == i then [C.Request(PageNo(s.c, t.row, e2))] else []
    case Read(p) => if p.slot == i then [C.Access(p.frame)] else []
    case Write(p, v) => if p.slot == i then [C.Modify(p.frame, p.off, v)] else []
    case _ => []
  }

  /** The process of the slot stays: it is neither suspended nor ended. */
  predicate Stays(s: State, r: Request, i: nat) {
    i < |s.slots| && s.slots[i].id != 0 && (r.Suspend? || r.Finish? ==> r.id != s.slots[i].id)
  }

  lemma CircleSizes(t: C.Circle, alg: Algorithm, e: C.Event)
    requires |t.pages| == |t.use| == |t.dirty| > t.hand
    ensures var t' := C.CircleAfter(alg, t, e);
            |t'.pages| == |t'.use| == |t'.dirty| > t'.hand
  {
    hide C.Victim;
  }

  lemma SlotGood(s: State, i: nat)
    requires Inv(s) && i < |s.slots| && s.slots[i].id != 0
    ensures var sl := s.slots[i];
            && sl.id in s.swap && sl.id !in s.suspended && |s.swap[sl.id]| <= s.c.K == |sl.pages|
            && |sl.frames| == s.c.M > 0 && Good(sl, s.swap[sl.id], s.c.T) && FindSlot(s.slots, sl.id, 0) == i
  {
    assert SlotOk(s, s.slots[i]);
    FindActive(s, i);
    hide Good, Vacant;
  }

  // ---------------------------------------------------------------- one request

  lemma FrameClock(s: State, t: TableRef, e2: nat)
    requires Inv(s) && Enabled(s, GetFrame(t, e2))
    ensures var sl, sl' := s.slots[t.slot], ServeFrame(s, t, e2).0.slots[t.slot];
            && sl'.id == sl.id && |sl.frames| > 0
            && C.CircleOf(sl') == C.Demand(s.c.alg, C.CircleOf(sl), PageNo(s.c, t.row, e2))
  {
    FrameDefined(s, t, e2);
    FrameOwner(s, t, e2);
    hide Inv, Good, SlotOk, PageIn, C.CircleOf, C.Demand, Vacant;
    var sl, q := s.slots[t.slot], PageNo(s.c, t.row, e2);
    C.PageInIsDemand(s.c.alg, sl, s.swap[sl.id], s.c.T, q);
  }

  lemma ReadClock(s: State, p: Place)
    requires Inv(s) && Enabled(s, Read(p))
    ensures var sl, sl' := s.slots[p.slot], ServeRead(s, p).0.slots[p.slot];
            && sl'.id == sl.id && p.frame < |sl.frames|
            && C.CircleOf(sl') == C.Mark(C.CircleOf(sl), p.frame, false)
  {
    OwnedActive(s, p);
    hide Inv, Good, C.CircleOf, C.Mark;
    C.AccessIsMark(s.slots[p.slot], s.swap[s.slots[p.slot].id], s.c.T, p.frame, 0, []);
  }

  lemma WriteClock(s: State, p: Place, v: seq<Byte>)
    requires Inv(s) && Enabled(s, Write(p, v))
    ensures var sl, sl' := s.slots[p.slot], ServeWrite(s, p, v).0.slots[p.slot];
            && sl'.id == sl.id && p.frame < |sl.frames|
            && C.CircleOf(sl') == C.Mark(C.CircleOf(sl), p.frame, true)
  {
    OwnedActive(s, p);
    hide Inv, Good, C.CircleOf, C.Mark;
    C.AccessIsMark(s.slots[p.slot], s.swap[s.slots[p.slot].id], s.c.T, p.frame, p.off, v);
  }

  /** A request that does not reach the slot leaves it alone. */
  lemma OtherSlot(s: State, r: Request, i: nat)
    requires Inv(s) && Enabled(s, r) && Stays(s, r, i) && EventAt(s, r, i) == []
    ensures |Serve(s, r).0.slots| == |s.slots| && Serve(s, r).0.slots[i] == s.slots[i]
  {
    SlotGood(s, i);
    if (r.Suspend? || r.Finish?) && r.id !in s.suspended {
      ActiveSlot(s, r.id);
    }
    hide Inv, Good, SlotOk, PageIn, Touch, Store, Emptied, Dropped, FlushedFile, KnownPages, Woken, PageNo;
  }

  lemma StepClock(s: State, r: Request, i: nat)
    requires Inv(s) && Enabled(s, r) && Stays(s, r, i)
    ensures var sl, s' := s.slots[i], Serve(s, r).0;
            && |sl.frames| > 0 && i < |s'.slots| && s'.slots[i].id == sl.id
            && C.CircleOf(s'.slots[i]) == C.CircleAfterAll(s.c.alg, C.CircleOf(sl), EventAt(s, r, i))
  {
    hide Inv, ServeFrame, ServeRead, ServeWrite, C.CircleOf, C.Demand, C.Mark;
    SlotGood(s, i);
    var es := EventAt(s, r, i);
    if es == [] {
      OtherSlot(s, r, i);
    } else {
      assert es == [es[0]] && es[1..] == [];
      CircleSizes(C.CircleOf(s.slots[i]), s.c.alg, es[0]);
      match r
      case GetFrame(t, e2) => FrameClock(s, t, e2); SlotsStay(s, r);
      case Read(p) => ReadClock(s, p); SlotsStay(s, r);
      case Write(p, v) => WriteClock(s, p, v); SlotsStay(s, r);
      case _ =>
    }
  }

  lemma SlotsStay(s: State, r: Request)
    requires Inv(s) && Enabled(s, r)
    ensures |Serve(s, r).0.slots| == |s.slots|
  {
    hide Serve, Enabled;
    ServeInv(s, r);
    hide SlotsOk, IdsDistinct, AllSuspendedOk, LiveOk;
  }

  // ---------------------------------------------------------------- whole runs

  /** The process of slot i stays there all along. */
  ghost predicate StaysAll(s: State, rs: seq<Request>, i: nat)
    requires Inv(s) && Legal(s, rs)
    decreases |rs|
  {
    hide Inv, Serve, Enabled;
    rs == [] || (Stays(s, rs[0], i) && StaysAll(Served(s, rs[0]), rs[1..], i))
  }

  /** What the run is to the clock of slot i. */
  ghost function EventsAt(s: State, rs: seq<Request>, i: nat): seq<C.Event>
    requires Inv(s) && Legal(s, rs)
    decreases |rs|
  {
    hide Inv, Serve, Enabled;
    if rs == [] then [] else EventAt(s, rs[0], i) + EventsAt(Served(s, rs[0]), rs[1..], i)
  }

  lemma {:induction false} CircleThen(alg: Algorithm, t: C.Circle, es: seq<C.Event>, fs: seq<C.Event>)
    requires |t.pages| == |t.use| == |t.dirty| > t.hand
    ensures var t' := C.CircleAfterAll(alg, t, es);
            && |t'.pages| == |t'.use| == |t'.dirty| > t'.hand
            && C.CircleAfterAll(alg, t, es + fs) == C.CircleAfterAll(alg, t', fs)
    decreases |es|
  {
    hide C.CircleAfter;
    if es == [] {
      assert es + fs == fs;
    } else {
      assert (es + fs)[1..] == es[1..] + fs;
      CircleSizes(t, alg, es[0]);
      CircleThen(alg, C.CircleAfter(alg, t, es[0]), es[1..], fs);
    }
  }

  /** From the admission or wake-up of a process to its suspension or end, whatever else is
      asked of the server, its slot is a textbook clock: every victim is the textbook's. */
  lemma {:induction false} ServerRefinesTextbook(s: State, rs: seq<Request>, i: nat)
    requires Inv(s) && Legal(s, rs) && StaysAll(s, rs, i) && i < |s.slots| && s.slots[i].id != 0
    ensures |s.slots[i].frames| > 0 && i < |Run(s, rs).slots| && Run(s, rs).slots[i].id == s.slots[i].id
    ensures C.CircleOf(Run(s, rs).slots[i]) == C.CircleAfterAll(s.c.alg, C.CircleOf(s.slots[i]), EventsAt(s, rs, i))
    decreases |rs|
  {
    hide Inv, Serve, Enabled, C.CircleOf, Stays, EventAt, C.CircleAfterAll;
    SlotGood(s, i);
    if rs == [] {
      CircleNone(s.c.alg, C.CircleOf(s.slots[i]));
    } else {
      StaysHere(s, rs[0], i);
      StepClock(s, rs[0], i);
      var s' := Served(s, rs[0]);
      ServerRefinesTextbook(s', rs[1..], i);
      CircleThen(s.c.alg, C.CircleOf(s.slots[i]), EventAt(s, rs[0], i), EventsAt(s', rs[1..], i));
    }
  }

  lemma StaysHere(s: State, r: Request, i: nat)
    requires Stays(s, r, i)
    ensures i < |s.slots| && s.slots[i].id != 0
  {
  }

  lemma CircleNone(alg: Algorithm, t: C.Circle)
    requires |t.pages| == |t.use| == |t.dirty| > t.hand
    ensures C.CircleAfterAll(alg, t, []) == t
  {
  }
}
