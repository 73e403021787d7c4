/** The other half: with two TLB entries or more and fewer frames than pages, a program
    is led to the bytes of another of its pages.

    The program reads pages 0 to M-1, which fills its frames, is dispatched again with an
    empty TLB, reads page 0, then page M, which evicts page 0, and page 0 again.
 */
module StaleTlb {
  import opened Arith
  import opened Replacement
  import opened Paging
  import opened PagingProofs
  import opened VirtualMemory
  import opened Addressing
  import opened MemoryProofs
  import opened FlatMemory
  import opened Translation
  import opened CpuMemory
  import T = TlbCache

  // ---------------------------------------------------------------- the run

  /** The first word of page q. */
  function PageAt(c: Config, q: nat): Logical
    requires c.E > 0
  {
    Logical(q / c.E, q % c.E, 0)
  }

  /** A read that misses the TLB, request by request. */
  function Read1(c: Config, q: nat): seq<Event>
    requires c.E > 0
  {
    [Begin(PageAt(c, q)), AskTable, AskFrame, Fetch]
  }

  /** Reads of n pages from page q on. */
  function Reads(c: Config, q: nat, n: nat): seq<Event>
    requires c.E > 0
    decreases n
  {
    if n == 0 then [] else Read1(c, q) + Reads(c, q + 1, n - 1)
  }

  function Ending(c: Config): seq<Event>
    requires c.E > 0
  {
    [Dispatch(1)] + (Read1(c, 0) + (Read1(c, c.M) + [Begin(PageAt(c, 0))]))
  }

  function StaleRun(c: Config): seq<Event>
    requires c.E > 0
  {
    [Ask(Create(c.K * c.T)), Dispatch(1)] + (Reads(c, 0, c.M) + Ending(c))
  }

  // ---------------------------------------------------------------- the memory along it

  function ReadPage(q: nat): Entry {
    Entry(q, true, true, false, false)
  }

  /** The slot of process 1 after pages 0 to n-1 have been read. */
  function FilledSlot(c: Config, n: nat): Slot {
    Slot(1, c.K * c.T, 0,
         seq(c.K, q => if 0 <= q < n then ReadPage(q) else BLANK),
         seq(c.M, j => if 0 <= j < n then Frame(true, j) else FREE),
         seq(c.M, j => seq(c.T, k => 0)))
  }

  function ZeroPages(c: Config): seq<Page> {
    seq(c.K, q => seq(c.T, k => 0))
  }

  function Filled(c: Config, n: nat): State
    requires c.P > 0
  {
    State(c, seq(c.P, i => BlankSlot(c))[0 := FilledSlot(c, n)], map[1 := ZeroPages(c)], map[], 2)
  }

  lemma FillSlot(c: Config, n: nat)
    requires ConfigOk(c) && n < c.M <= c.K
    ensures var sl := FilledSlot(c, n);
            var file := ZeroPages(c);
            && n < |sl.pages| && Readable(sl, file) && |sl.frames| > 0
            && var sl' := PageIn(c.alg, sl, file, n).0;
               && PageIn(c.alg, sl, file, n).1 == file
               && sl'.pages[n].frame == n && n < |sl'.frames| && sl'.frames[n].page == n
               && Touch(sl', n) == FilledSlot(c, n + 1)
  {
    var sl := FilledSlot(c, n);
    assert !sl.frames[n].inUse && FirstFree(sl.frames, 0) <= n;
    assert FirstFree(sl.frames, 0) == n;
    var sl' := PageIn(c.alg, sl, ZeroPages(c), n).0;
    assert Touch(sl', n).pages == FilledSlot(c, n + 1).pages;
    assert Touch(sl', n).frames == FilledSlot(c, n + 1).frames;
    assert Touch(sl', n).ram == FilledSlot(c, n + 1).ram;
  }

  /** Reading a page of an active process: a page request and a touch, in its slot. */
  lemma LoadSlot(s: State, id: nat, l: Logical)
    requires Inv(s) && CanAccess(s, id, l) && id !in s.suspended
    ensures var i := FindSlot(s.slots, id, 0);
            var q := PageNo(s.c, l.e1, l.e2);
            && i < |s.slots| && q < |s.slots[i].pages| && |s.slots[i].frames| > 0 && Readable(s.slots[i], s.swap[id])
            && var (sl', file') := PageIn(s.c.alg, s.slots[i], s.swap[id], q);
               && 0 <= sl'.pages[q].frame < |sl'.frames| && sl'.frames[sl'.pages[q].frame] == Frame(true, q)
               && q < |sl'.pages|
               && LoadWord(s, id, l).0 == WithSlot(s, i, Touch(sl', sl'.pages[q].frame), file')
  {
    hide PageIn, PointerResident, Shape, FileShape, SameImages, Vacant, SwapFresh, LiveOk, AllSuspendedOk;
    hide IdsDistinct;
    ActiveSlot(s, id);
    TableStep(s, id, l);
    hide Inv;
    var i := FindSlot(s.slots, id, 0);
    var q := PageNo(s.c, l.e1, l.e2);
    var t := TableRef(i, l.e1);
    FrameDefined(s, t, l.e2);
    PageInKeeps(s.c.alg, s.slots[i], s.swap[id], s.c.T, q);
    WalkFinds(s, id, l);
    var (sl', file') := PageIn(s.c.alg, s.slots[i], s.swap[id], q);
    assert s.slots[i := sl'][i := Touch(sl', sl'.pages[q].frame)] == s.slots[i := Touch(sl', sl'.pages[q].frame)];
  }

  lemma PageAtIs(c: Config, q: nat)
    requires ConfigOk(c) && q < c.K
    ensures var l := PageAt(c, q);
            l.e1 < c.E && l.e2 < c.E && l.off == 0 && PageNo(c, l.e1, l.e2) == q
  {
    DivBelow(q, c.E, c.E);
  }

  /** Everything the run asks for is allowed while process 1 is active. */
  lemma CanRead(s: State, c: Config, q: nat)
    requires ConfigOk(c) && s.c == c && c.T >= WORD && q < c.K
    requires 1 in s.swap && |s.swap[1]| == c.K && 1 !in s.suspended
    ensures CanAccess(s, 1, PageAt(c, q))
  {
    PageAtIs(c, q);
  }

  lemma FilledFacts(c: Config, n: nat)
    requires ConfigOk(c) && n <= c.M
    ensures var s := Filled(c, n);
            && s.c == c && 1 in s.swap && s.swap[1] == ZeroPages(c) && |s.swap[1]| == c.K && 1 !in s.suspended
            && FindSlot(s.slots, 1, 0) == 0 && s.slots[0] == FilledSlot(c, n)
  {
  }

  lemma FilledNext(c: Config, n: nat)
    requires ConfigOk(c) && c.T >= WORD && n < c.M <= c.K && Inv(Filled(c, n))
    requires CanAccess(Filled(c, n), 1, PageAt(c, n))
    ensures LoadWord(Filled(c, n), 1, PageAt(c, n)).0 == Filled(c, n + 1)
  {
    hide Inv, FilledSlot, Readable, ZeroPages, CanAccess, LoadWord, Touch, PageIn;
    FilledFacts(c, n);
    PageAtIs(c, n);
    FillSlot(c, n);
    LoadSlot(Filled(c, n), 1, PageAt(c, n));
    var s := Filled(c, n);
    assert s.swap[1 := ZeroPages(c)] == s.swap;
    assert s.slots[0 := FilledSlot(c, n + 1)] == Filled(c, n + 1).slots;
  }

  // ---------------------------------------------------------------- the eviction

  /** With every page used and none written, either algorithm takes the page under the
      hand, which is page 0. */
  lemma VictimIsZero(c: Config)
    requires ConfigOk(c) && c.M <= c.K
    ensures var sl := FilledSlot(c, c.M);
            AllResident(sl) && |sl.frames| > 0 && SelectVictim(c.alg, sl).0 == 0
  {
    var sl := FilledSlot(c, c.M);
    assert sl.frames[0].page == 0;
    assert Hand(sl) == 0;
    var rows := Loaded(sl);
    assert forall i | 0 <= i < |rows| :: rows[i] == Row(i, true, false);
    if c.alg == Clock {
      assert FirstClear(rows, 0) == |rows|;
    } else {
      ClockMTakesLeastClass(rows, 0);
    }
    SelectionFrames(c.alg, sl);
  }

  /** Reading page M evicts page 0. */
  lemma EvictsZero(c: Config)
    requires ConfigOk(c) && c.T >= WORD && c.M < c.K && Inv(Filled(c, c.M))
    requires CanAccess(Filled(c, c.M), 1, PageAt(c, c.M))
    ensures var s := LoadWord(Filled(c, c.M), 1, PageAt(c, c.M)).0;
            && s.c == c && 1 in s.swap && |s.swap[1]| == c.K && 1 !in s.suspended
            && |s.slots| > 0 && FindSlot(s.slots, 1, 0) == 0 && |s.slots[0].pages| > 0 && !s.slots[0].pages[0].present
  {
    hide ZeroPages, CanAccess, LoadWord, PageIn, PointerResident, Shape, FileShape, SelectVictim, SwapFresh;
    hide MapsInverse, SlotsOk, LiveOk, AllSuspendedOk, IdsDistinct;
    FilledFacts(c, c.M);
    PageAtIs(c, c.M);
    var s := Filled(c, c.M);
    LoadSlot(s, 1, PageAt(c, c.M));
    ActiveSlot(s, 1);
    hide Inv;
    VictimIsZero(c);
    var sl := FilledSlot(c, c.M);
    assert forall j | 0 <= j < |sl.frames| :: sl.frames[j].inUse;
    EvictKeeps(c.alg, sl, ZeroPages(c), c.T, c.M);
    var (sl', file') := PageIn(c.alg, sl, ZeroPages(c), c.M);
    assert s.slots[0] == sl && sl'.id == 1;
    FoundFirst(s.slots, Touch(sl', sl'.pages[c.M].frame));
  }

  lemma FoundFirst(slots: seq<Slot>, sl: Slot)
    requires |slots| > 0 && sl.id == 1
    ensures FindSlot(slots[0 := sl], 1, 0) == 0
  {
  }

  /** Reading page 0 while it is there changes nothing. */
  lemma ReadZero(c: Config)
    requires ConfigOk(c) && c.T >= WORD && c.M <= c.K && Inv(Filled(c, c.M))
    requires CanAccess(Filled(c, c.M), 1, PageAt(c, 0))
    ensures LoadWord(Filled(c, c.M), 1, PageAt(c, 0)).0 == Filled(c, c.M)
  {
    hide ZeroPages, CanAccess, LoadWord, Inv, Readable;
    FilledFacts(c, c.M);
    PageAtIs(c, 0);
    var s := Filled(c, c.M);
    LoadSlot(s, 1, PageAt(c, 0));
    var sl := FilledSlot(c, c.M);
    assert sl.pages[0] == ReadPage(0);
    assert Touch(sl, 0).pages == sl.pages;
    assert s.slots[0 := sl] == s.slots;
    assert s.swap[1 := ZeroPages(c)] == s.swap;
  }

  // ---------------------------------------------------------------- the stale entry

  /** A read on its own: memory is where a plain walk leaves it, the TLB where an access to
      the page leaves it. */
  lemma LoadedIs(m: Cpu, l: Logical, list: seq<nat>)
    requires CpuOk(m) && m.at.Idle? && m.id != 0 && CanAccess(m.s, m.id, l) && Right(m.s, m.t, m.id, l)
    requires T.Holds(m.t, list)
    ensures var m' := DoLoad(m, l).0;
            && m'.s == LoadWord(m.s, m.id, l).0 && m'.t.policy == m.t.policy
            && T.Holds(m'.t, T.Renew(m.t.policy, list, PageNo(m.s.c, l.e1, l.e2), |m.t.slots|))
  {
    var page := PageNo(m.s.c, l.e1, l.e2);
    hide CpuOk, Inv, CanAccess, Walk, Right, Locate, ServeRead, T.Holds, T.Renew, T.Lookup, T.Register, T.Ok, PageNo;
    hide Obtain, T.FirstEmpty;
    BeginGoes(m, l);
    InvOf(m);
    ObtainIsTranslate(m, l);
    RightIsWalk(m.s, m.t, m.id, l);
    T.AccessRenews(m.t, list, page, AddressOf(m.s.c, Walk(m.s, m.id, l).1.(off := 0)));
  }

  /** After a read that misses, the rest of the run has still to go right. */
  lemma MissRun(m: Cpu, c: Config, q: nat, rest: seq<Event>)
    requires CpuOk(m) && ConfigOk(m.s.c) && m.at.Idle? && m.id != 0 && c.E > 0
    requires CanAccess(m.s, m.id, PageAt(c, q)) && Looked(m, PageAt(c, q)).at.Missed?
    requires Right(m.s, m.t, m.id, PageAt(c, q)) && AllRight(m, Read1(c, q) + rest)
    ensures AllRight(DoLoad(m, PageAt(c, q)).0, rest)
  {
    hide CpuOk, Step, CanAccess, Right, PageAt, Possible;
    var l := PageAt(c, q);
    BeginGoes(m, l);
    ObtainGoes(m, l);
    var events := Read1(c, q) + rest;
    var m1 := Next(m, Begin(l));
    assert events[0] == Begin(l) && events[1..] == [AskTable, AskFrame, Fetch] + rest;
    assert AllRight(m1, [AskTable, AskFrame, Fetch] + rest);
    var m2 := Next(m1, AskTable);
    assert ([AskTable, AskFrame, Fetch] + rest)[1..] == [AskFrame, Fetch] + rest;
    assert AllRight(m2, [AskFrame, Fetch] + rest);
    var m3 := Next(m2, AskFrame);
    assert ([AskFrame, Fetch] + rest)[1..] == [Fetch] + rest;
    assert AllRight(m3, [Fetch] + rest);
    AccessGoes(m3, Fetch);
    assert ([Fetch] + rest)[1..] == rest;
    assert Obtain(m, l) == m3;
  }

  /** A page that is not on the list misses, and a miss leads nobody astray. */
  lemma AbsentMisses(m: Cpu, c: Config, q: nat, list: seq<nat>)
    requires ConfigOk(c) && m.s.c == c && q < c.K && T.Holds(m.t, list) && q !in list
    ensures Looked(m, PageAt(c, q)).at.Missed? && Right(m.s, m.t, m.id, PageAt(c, q))
  {
    hide T.Holds, T.Lookup;
    PageAtIs(c, q);
    T.AccessRenews(m.t, list, q, 0);
  }

  /** A page that is not in memory is nobody's place, so an entry for it is wrong. */
  lemma AbsentIsWrong(m: Cpu, c: Config)
    requires CpuOk(m) && ConfigOk(c) && m.s.c == c && m.id == 1
    requires FindSlot(m.s.slots, 1, 0) == 0 < |m.s.slots|
    requires |m.s.slots[0].pages| > 0 && !m.s.slots[0].pages[0].present
    requires T.Lookup(m.t, 0).1 >= 0
    ensures !Right(m.s, m.t, 1, PageAt(c, 0))
  {
    hide Inv, T.Lookup, Locate, FindSlot;
    PageAtIs(c, 0);
    if Right(m.s, m.t, 1, PageAt(c, 0)) {
      OwnerPage(m.s, Locate(c, T.Lookup(m.t, 0).1));
      OwnedPresent(m.s, 1, Locate(c, T.Lookup(m.t, 0).1));
    }
  }

  lemma OwnerPage(s: State, p: Place)
    requires OwnerAt(s, p) != Nobody
    ensures p.slot < |s.slots| && p.frame < |s.slots[p.slot].frames|
    ensures OwnerAt(s, p).page == s.slots[p.slot].frames[p.frame].page
  {
  }

  /** The last three reads: page 0 enters the TLB, page M takes its frame, and the third
      read is led astray. */
  lemma StaleEnding(m: Cpu, c: Config)
    requires CpuOk(m) && ConfigOk(c) && c.T >= WORD && c.M < c.K
    requires m.s == Filled(c, c.M) && m.id == 1 && m.at.Idle? && T.Holds(m.t, []) && |m.t.slots| >= 2
    ensures !AllRight(m, Read1(c, 0) + (Read1(c, c.M) + [Begin(PageAt(c, 0))]))
  {
    hide CpuOk, Filled, CanAccess, LoadWord, Right, T.Holds, T.Lookup, FindSlot, DoLoad, AllRight, Looked, Inv;
    var l0, lM := PageAt(c, 0), PageAt(c, c.M);
    PageAtIs(c, 0);
    PageAtIs(c, c.M);
    FilledFacts(c, c.M);
    CanRead(m.s, c, 0);
    AbsentMisses(m, c, 0, []);
    InvOf(m);
    if AllRight(m, Read1(c, 0) + (Read1(c, c.M) + [Begin(l0)])) {
      MissRun(m, c, 0, Read1(c, c.M) + [Begin(l0)]);
      LoadedIs(m, l0, []);
      ReadZero(c);
      assert T.Renew(m.t.policy, [], 0, |m.t.slots|) == [0];
      var m1 := DoLoad(m, l0).0;
      CanRead(m1.s, c, c.M);
      AbsentMisses(m1, c, c.M, [0]);
      MissRun(m1, c, c.M, [Begin(l0)]);
      LoadedIs(m1, lM, [0]);
      EvictsZero(c);
      var m2 := DoLoad(m1, lM).0;
      CanRead(m2.s, c, 0);
      assert T.Renew(m.t.policy, [0], c.M, |m.t.slots|) == [c.M, 0];
      T.AccessRenews(m2.t, [c.M, 0], 0, 0);
      LastLookup(m2, l0);
      AbsentIsWrong(m2, c);
    }
  }

  lemma LastLookup(m: Cpu, l: Logical)
    requires CpuOk(m) && m.at.Idle? && m.id != 0 && CanAccess(m.s, m.id, l) && AllRight(m, [Begin(l)])
    ensures ConfigOk(m.s.c) && Right(m.s, m.t, m.id, l)
  {
    hide Right, Step;
    InvOf(m);
    BeginGoes(m, l);
    hide CpuOk, Possible, CanAccess;
  }

  lemma {:induction false} StaleReads(m: Cpu, c: Config, n: nat, list: seq<nat>)
    requires CpuOk(m) && ConfigOk(c) && c.T >= WORD && n <= c.M < c.K
    requires m.s == Filled(c, n) && m.id == 1 && m.at.Idle? && |m.t.slots| >= 2
    requires T.Holds(m.t, list) && forall q | q in list :: q < n
    ensures !AllRight(m, Reads(c, n, c.M - n) + Ending(c))
    decreases c.M - n
  {
    hide CpuOk, Filled, CanAccess, LoadWord, Right, T.Holds, FindSlot, DoLoad, Looked, AllRight, Inv;
    FilledFacts(c, n);
    InvOf(m);
    if n == c.M {
      assert Reads(c, n, 0) + Ending(c) == Ending(c);
      FlushFirst(m, c);
    } else {
      var rest := Reads(c, n + 1, c.M - n - 1) + Ending(c);
      assert Reads(c, n, c.M - n) + Ending(c) == Read1(c, n) + rest;
      CanRead(m.s, c, n);
      PageAtIs(c, n);
      AbsentMisses(m, c, n, list);
      LoadedIs(m, PageAt(c, n), list);
      FilledNext(c, n);
      RenewBelow(m.t.policy, list, n, |m.t.slots|);
      StaleReads(DoLoad(m, PageAt(c, n)).0, c, n + 1, T.Renew(m.t.policy, list, n, |m.t.slots|));
      if AllRight(m, Read1(c, n) + rest) {
        MissRun(m, c, n, rest);
      }
    }
  }

  lemma RenewBelow(policy: T.Policy, list: seq<nat>, n: nat, size: nat)
    requires forall q | q in list :: q < n
    ensures forall q | q in T.Renew(policy, list, n, size) :: q < n + 1
  {
    forall q | q in T.Take([n] + list, size) ensures q in [n] + list {
    }
  }

  lemma FlushFirst(m: Cpu, c: Config)
    requires CpuOk(m) && ConfigOk(c) && c.T >= WORD && c.M < c.K
    requires m.s == Filled(c, c.M) && m.id == 1 && m.at.Idle? && |m.t.slots| >= 2
    ensures !AllRight(m, Ending(c))
  {
    hide CpuOk, Filled, CanAccess, T.Holds, T.Lookup, FindSlot;
    FilledFacts(c, c.M);
    var events := Ending(c);
    assert events[1..] == Read1(c, 0) + (Read1(c, c.M) + [Begin(PageAt(c, 0))]);
    T.FlushedHolds(m.t);
    if AllRight(m, events) {
      var m' := Next(m, Dispatch(1));
      StaleEnding(m', c);
    }
  }

  /** Creating process 1 with all its pages. */
  lemma CreatesFilled(c: Config)
    requires ConfigOk(c)
    ensures ServeCreate(Init(c), c.K * c.T).0 == Filled(c, 0)
  {
    DivUnique(c.K * c.T, c.T, c.K, 0);
    var s := ServeCreate(Init(c), c.K * c.T).0;
    assert s.slots[0].pages == FilledSlot(c, 0).pages;
    assert s.slots[0].frames == FilledSlot(c, 0).frames;
    assert s.slots == Filled(c, 0).slots;
  }

  lemma StaleFromStart(c: Config, entries: nat, policy: T.Policy)
    requires ConfigOk(c) && c.T >= WORD && c.M < c.K && entries >= 2
    ensures !AllRight(Start(c, entries, policy), StaleRun(c))
  {
    hide CpuOk, Filled, Init, ServeCreate, Reads, Ending, FindSlot, T.Holds;
    var m := Start(c, entries, policy);
    var events := StaleRun(c);
    CreatesFilled(c);
    FilledFacts(c, 0);
    var m1 := Next(m, events[0]);
    assert events[1..] == [Dispatch(1)] + (Reads(c, 0, c.M) + Ending(c));
    T.FlushedHolds(m1.t);
    assert events[1..][1..] == Reads(c, 0, c.M) + Ending(c);
    StaleReads(Next(m1, Dispatch(1)), c, 0, []);
  }

  /** With pages smaller than a word there is nothing to read. */
  lemma {:induction false} NoWordsNoHarm(m: Cpu, events: seq<Event>)
    requires CpuOk(m) && m.s.c.T < WORD
    ensures AllRight(m, events)
    decreases |events|
  {
    hide CpuOk, Right, Step;
    if events != [] && Possible(m, events[0]) {
      NoWordsNoHarm(Next(m, events[0]), events[1..]);
    }
  }

  /** The TLB is transparent to every program under every interleaving with the kernel's
      requests exactly when it has one entry or memory has a frame for every page of a
      process (or pages are too small to hold a word). */
  lemma TransparentIff(c: Config, entries: nat, policy: T.Policy)
    requires ConfigOk(c) && entries > 0
    ensures (forall events :: AllRight(Start(c, entries, policy), events)) <==> Harmless(c, entries) || c.T < WORD
  {
    hide CpuOk, AllRight, Coherent;
    var m := Start(c, entries, policy);
    if Harmless(c, entries) {
      forall events ensures AllRight(m, events) {
        HarmlessAllRight(m, events);
      }
    } else if c.T < WORD {
      forall events ensures AllRight(m, events) {
        NoWordsNoHarm(m, events);
      }
    } else {
      StaleFromStart(c, entries, policy);
    }
  }
}
