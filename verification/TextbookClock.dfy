/** The two clocks of the source refine the textbook ones.

    The source keeps no hand: it keeps the page the hand points at, rebuilds a rotated
    table at every fault, sweeps it and writes the bits back.  The textbook machine has
    frames in a circle, a use bit and a modified bit each, and a hand that advances over
    them: to the first clear use bit, clearing the others on its way, or, for the enhanced
    clock, in turns round the circle for the best frame there is.
 */
module TextbookClock {
  import opened Replacement
  import opened Paging
  import opened PagingProofs

  datatype Circle = Circle(pages: seq<int>, use: seq<bool>, dirty: seq<bool>, hand: nat)

  function Next(h: nat, n: nat): nat {
    if h + 1 >= n then 0 else h + 1
  }

  function Count(use: seq<bool>): nat {
    if use == [] then 0 else (if use[0] then 1 else 0) + Count(use[1..])
  }

  lemma {:induction false} CountClear(use: seq<bool>, h: nat)
    requires h < |use| && use[h]
    ensures Count(use[h := false]) < Count(use)
  {
    if h > 0 {
      CountClear(use[1..], h - 1);
      assert use[h := false][1..] == use[1..][h - 1 := false];
    } else {
      assert use[0 := false][1..] == use[1..];
    }
  }

  /** Advance the hand, clearing set bits, until it stands on a clear one. */
  function Advance(use: seq<bool>, hand: nat): (r: (nat, seq<bool>))
    requires hand < |use|
    ensures r.0 < |use| == |r.1|
    decreases Count(use)
  {
    if !use[hand] then (hand, use)
    else
      CountClear(use, hand);
      Advance(use[hand := false], Next(hand, |use|))
  }

  /** One turn of the enhanced clock, with so many frames left to look at: to the first frame
      neither used nor, or else, modified; it clears the use bits it passes, or leaves them. */
  function Turn(use: seq<bool>, dirty: seq<bool>, modified: bool, clears: bool, hand: nat, left: nat)
    : (r: (bool, nat, seq<bool>))
    requires hand < |use| == |dirty|
    ensures r.1 < |use| == |r.2|
    decreases left
  {
    if left == 0 then (false, hand, use)
    else if !use[hand] && dirty[hand] == modified then (true, hand, use)
    else
      Turn(if clears then use[hand := false] else use, dirty, modified, clears, Next(hand, |use|), left - 1)
  }

  /** A turn for a frame neither used nor modified, a turn for one not used, clearing use
      bits, and both once more. */
  function Enhanced(use: seq<bool>, dirty: seq<bool>, hand: nat): (r: (nat, seq<bool>))
    requires hand < |use| == |dirty|
    ensures r.0 < |use| == |r.1|
  {
    var (found0, h0, use0) := Turn(use, dirty, false, false, hand, |use|);
    if found0 then (h0, use0) else
    var (found1, h1, use1) := Turn(use0, dirty, true, true, h0, |use|);
    if found1 then (h1, use1) else
    var (found2, h2, use2) := Turn(use1, dirty, false, false, h1, |use|);
    if found2 then (h2, use2) else
    var (found3, h3, use3) := Turn(use2, dirty, true, true, h2, |use|);
    (h3, use3)
  }

  /** The frame whose page has to go, and the use bits then. */
  function Victim(alg: Algorithm, t: Circle): (r: (nat, seq<bool>))
    requires t.hand < |t.use| == |t.dirty|
    ensures r.0 < |t.use| == |r.1|
  {
    match alg
    case Clock => Advance(t.use, t.hand)
    case ClockM => Enhanced(t.use, t.dirty, t.hand)
  }

  function FirstEmpty(pages: seq<int>, j: nat): (k: nat)
    requires j <= |pages|
    ensures j <= k <= |pages| && (k < |pages| ==> pages[k] == -1)
    decreases |pages| - j
  {
    if j == |pages| || pages[j] == -1 then j else FirstEmpty(pages, j + 1)
  }

  /** A request for page q: nothing if resident, else an empty frame, else the victim
      of the hand, which then moves one past it. */
  function Demand(alg: Algorithm, t: Circle, q: nat): Circle
    requires |t.pages| == |t.use| == |t.dirty| > t.hand
  {
    if q in t.pages then t
    else
      var j := FirstEmpty(t.pages, 0);
      if j < |t.pages| then t.(pages := t.pages[j := q], use := t.use[j := false], dirty := t.dirty[j := false])
      else
        var (v, use) := Victim(alg, t);
        Circle(t.pages[v := q], use[v := false], t.dirty[v := false], Next(v, |t.use|))
  }

  function Mark(t: Circle, j: nat, write: bool): Circle
    requires j < |t.use| == |t.dirty|
  {
    t.(use := t.use[j := true], dirty := t.dirty[j := write || t.dirty[j]])
  }

  // ---------------------------------------------------------------- abstraction

  /** The circle a slot stands for.  Before the frames are full the hand is at 0. */
  function CircleOf(sl: Slot): (t: Circle)
    ensures |t.pages| == |t.use| == |t.dirty| == |sl.frames|
    ensures |sl.frames| > 0 ==> t.hand < |t.use|
  {
    Circle(seq(|sl.frames|, j requires 0 <= j < |sl.frames| => if sl.frames[j].inUse then sl.frames[j].page else -1),
           seq(|sl.frames|, j requires 0 <= j < |sl.frames| =>
             var q := sl.frames[j].page; sl.frames[j].inUse && 0 <= q < |sl.pages| && sl.pages[q].used),
           seq(|sl.frames|, j requires 0 <= j < |sl.frames| =>
             var q := sl.frames[j].page; sl.frames[j].inUse && 0 <= q < |sl.pages| && sl.pages[q].modified),
           if FirstFree(sl.frames, 0) == |sl.frames| then Hand(sl) else 0)
  }

  // ---------------------------------------------------------------- the sweep

  /** Frame i steps ahead of h on a circle of n. */
  function Ahead(h: nat, i: nat, n: nat): nat {
    if h + i < n then h + i else h + i - n
  }

  /** The bits after the first k from h on have been cleared. */
  function ClearedAhead(use: seq<bool>, h: nat, k: nat): (r: seq<bool>)
    requires h < |use| && k <= |use|
    ensures |r| == |use|
  {
    if k == 0 then use else ClearedAhead(use, h, k - 1)[Ahead(h, k - 1, |use|) := false]
  }

  lemma {:induction false} ClearedAheadAt(use: seq<bool>, h: nat, k: nat, i: nat)
    requires h < |use| && k <= |use| && i < |use|
    ensures ClearedAhead(use, h, k)[Ahead(h, i, |use|)] == (i >= k && use[Ahead(h, i, |use|)])
    decreases k
  {
    if k > 0 {
      ClearedAheadAt(use, h, k - 1, i);
    }
  }

  /** The hand passes over k set bits. */
  lemma {:induction false} AdvancePasses(use: seq<bool>, h: nat, k: nat)
    requires h < |use| && k <= |use|
    requires forall i | 0 <= i < k :: use[Ahead(h, i, |use|)]
    ensures Ahead(h, k, |use|) < |use|
    ensures Advance(use, h) == Advance(ClearedAhead(use, h, k), Ahead(h, k, |use|))
    decreases k
  {
    if k > 0 {
      AdvancePasses(use, h, k - 1);
      ClearedAheadAt(use, h, k - 1, k - 1);
    }
  }

  /** Two sweeps over the rotated table and one advance of the hand agree: same victim
      frame, same bits. */
  lemma SweepIsAdvance(use: seq<bool>, h: nat, rows: seq<Row>)
    requires h < |use| == |rows|
    requires forall i | 0 <= i < |rows| :: rows[i].used == use[Ahead(h, i, |use|)]
    ensures var c := ClockChoice(rows);
            && Advance(use, h).0 == Ahead(h, c.victim, |use|)
            && forall i | 0 <= i < |rows| :: c.rows[i].used == Advance(use, h).1[Ahead(h, i, |use|)]
  {
    var n := |rows|;
    var k := FirstClear(rows, 0);
    AdvancePasses(use, h, k);
    forall i | 0 <= i < n
      ensures ClearedAhead(use, h, k)[Ahead(h, i, n)] == (i >= k && rows[i].used)
    {
      ClearedAheadAt(use, h, k, i);
    }
    var h1, use1 := Ahead(h, k, n), ClearedAhead(use, h, k);
    assert !use1[h1] by {
      assert k == n ==> h1 == Ahead(h, 0, n);
    }
    assert Advance(use1, h1) == (h1, use1);
    hide Advance, ClearedAhead, FirstClear;
  }

  /** A turn of the enhanced clock, taken up again behind its first k frames, and the first
      row of the class it looks for. */
  lemma {:induction false} TurnIsFirst(use: seq<bool>, dirty: seq<bool>, h: nat, rows: seq<Row>,
                                       modified: bool, clears: bool, k: nat)
    requires h < |use| == |dirty| == |rows| && k <= |rows|
    requires forall i | 0 <= i < |rows| ::
               rows[i].used == use[Ahead(h, i, |use|)] && rows[i].modified == dirty[Ahead(h, i, |use|)]
    ensures Ahead(h, k, |use|) < |use|
    ensures var f := FirstOf(rows, false, modified, k);
            Turn(if clears then ClearedAhead(use, h, k) else use, dirty, modified, clears,
                 Ahead(h, k, |use|), |use| - k)
            == (f < |rows|, Ahead(h, f, |use|), if clears then ClearedAhead(use, h, f) else use)
    decreases |rows| - k
  {
    if k < |rows| {
      ClearedAheadAt(use, h, k, k);
      TurnIsFirst(use, dirty, h, rows, modified, clears, k + 1);
    }
  }

  /** The enhanced clock of the source, in terms of rows, and its turns round the circle agree:
      same victim frame, same bits. */
  lemma SweepsAreTurns(use: seq<bool>, dirty: seq<bool>, h: nat, rows: seq<Row>)
    requires h < |use| == |dirty| == |rows|
    requires forall i | 0 <= i < |rows| ::
               rows[i].used == use[Ahead(h, i, |use|)] && rows[i].modified == dirty[Ahead(h, i, |use|)]
    ensures var c := ClockMChoice(rows);
            && Enhanced(use, dirty, h).0 == Ahead(h, c.victim, |use|)
            && forall i | 0 <= i < |rows| :: c.rows[i].used == Enhanced(use, dirty, h).1[Ahead(h, i, |use|)]
  {
    hide Turn, ClearedAhead, FirstOf, ClockMChoice, Enhanced;
    var n := |rows|;
    ClearedNone(use, h);
    TurnIsFirst(use, dirty, h, rows, false, false, 0);
    TurnIsFirst(use, dirty, h, rows, true, true, 0);
    var k1 := FirstOf(rows, false, true, 0);
    FirstFound(rows, false, true);
    forall i | 0 <= i < n
      ensures ClearedAhead(use, h, k1)[Ahead(h, i, n)] == (i >= k1 && rows[i].used)
      ensures ClearedAhead(use, h, n)[Ahead(h, i, n)] == false
    {
      ClearedAheadAt(use, h, k1, i);
      ClearedAheadAt(use, h, n, i);
    }
    var cleared, use1 := ClearedUpTo(rows, n), ClearedAhead(use, h, n);
    ClearedNone(use1, h);
    TurnIsFirst(use1, dirty, h, cleared, false, false, 0);
    TurnIsFirst(use1, dirty, h, cleared, true, true, 0);
    FirstFound(cleared, false, true);
    FirstFound(cleared, false, false);
    EnhancedIs(use, dirty, h, use1);
    ChoiceIs(rows);
  }

  lemma ClearedNone(use: seq<bool>, h: nat)
    requires h < |use|
    ensures ClearedAhead(use, h, 0) == use && Ahead(h, 0, |use|) == h && Ahead(h, |use|, |use|) == h
  {
  }

  lemma FirstFound(rows: seq<Row>, used: bool, modified: bool)
    ensures var k := FirstOf(rows, used, modified, 0);
            && k <= |rows| && (k < |rows| ==> rows[k].used == used && rows[k].modified == modified)
            && forall i | 0 <= i < k :: !(rows[i].used == used && rows[i].modified == modified)
  {
  }

  /** The turns one after the other, where the ones that find nothing come back to the hand. */
  lemma EnhancedIs(use: seq<bool>, dirty: seq<bool>, h: nat, use1: seq<bool>)
    requires h < |use| == |dirty| == |use1|
    requires !Turn(use, dirty, false, false, h, |use|).0 ==>
               Turn(use, dirty, false, false, h, |use|) == (false, h, use)
    requires !Turn(use, dirty, true, true, h, |use|).0 ==> Turn(use, dirty, true, true, h, |use|) == (false, h, use1)
    requires !Turn(use1, dirty, false, false, h, |use|).0 ==>
               Turn(use1, dirty, false, false, h, |use|) == (false, h, use1)
    ensures var t0, t1 := Turn(use, dirty, false, false, h, |use|), Turn(use, dirty, true, true, h, |use|);
            var t2, t3 := Turn(use1, dirty, false, false, h, |use|), Turn(use1, dirty, true, true, h, |use|);
            Enhanced(use, dirty, h)
            == if t0.0 then (t0.1, t0.2) else if t1.0 then (t1.1, t1.2)
               else if t2.0 then (t2.1, t2.2) else (t3.1, t3.2)
  {
    hide Turn;
  }

  lemma ChoiceIs(rows: seq<Row>)
    requires |rows| > 0
    ensures var n, cleared := |rows|, ClearedUpTo(rows, |rows|);
            var k0, k1 := FirstOf(rows, false, false, 0), FirstOf(rows, false, true, 0);
            var k2 := FirstOf(cleared, false, false, 0);
            ClockMChoice(rows)
            == if k0 < n then Choice(k0, rows) else if k1 < n then Choice(k1, ClearedUpTo(rows, k1))
               else if k2 < n then Choice(k2, cleared) else Choice(0, cleared)
  {
    hide FirstOf;
  }

  /** Either algorithm on the rows of a circle finds the victim of the circle. */
  lemma ChoiceIsVictim(alg: Algorithm, t: Circle, rows: seq<Row>)
    requires t.hand < |t.use| == |t.dirty| == |rows|
    requires forall i | 0 <= i < |rows| ::
               && rows[i].used == t.use[Ahead(t.hand, i, |rows|)]
               && rows[i].modified == t.dirty[Ahead(t.hand, i, |rows|)]
    ensures var c := Choose(alg, rows);
            && Victim(alg, t).0 == Ahead(t.hand, c.victim, |rows|)
            && forall i | 0 <= i < |rows| :: c.rows[i].used == Victim(alg, t).1[Ahead(t.hand, i, |rows|)]
  {
    if alg == Clock {
      SweepIsAdvance(t.use, t.hand, rows);
    } else {
      SweepsAreTurns(t.use, t.dirty, t.hand, rows);
    }
  }

  /** The rank of frame i steps ahead of the hand: (use, modified) as a binary number. */
  function RankAhead(t: Circle, i: nat): nat
    requires t.hand < |t.use| == |t.dirty| && i < |t.use|
  {
    var j := Ahead(t.hand, i, |t.use|);
    (if t.use[j] then 2 else 0) + (if t.dirty[j] then 1 else 0)
  }

  /** The enhanced clock takes the first frame from the hand on of the least rank there is;
      it leaves all use bits when that is 0, clears those before the victim when it is 1, and
      all otherwise. */
  lemma EnhancedTakesLeast(t: Circle) returns (i: nat)
    requires t.hand < |t.use| == |t.dirty|
    ensures i < |t.use| && Victim(ClockM, t).0 == Ahead(t.hand, i, |t.use|)
    ensures forall k | 0 <= k < |t.use| :: RankAhead(t, i) <= RankAhead(t, k)
    ensures forall k | 0 <= k < i :: RankAhead(t, i) < RankAhead(t, k)
    ensures forall k | 0 <= k < |t.use| ::
              Victim(ClockM, t).1[Ahead(t.hand, k, |t.use|)]
              == (t.use[Ahead(t.hand, k, |t.use|)]
                  && k >= if RankAhead(t, i) == 0 then 0 else if RankAhead(t, i) == 1 then i else |t.use|)
  {
    var n := |t.use|;
    var rows := seq(n, j requires 0 <= j < n => Row(j, t.use[Ahead(t.hand, j, n)], t.dirty[Ahead(t.hand, j, n)]));
    ChoiceIsVictim(ClockM, t, rows);
    i := ClockMChoice(rows).victim;
    ClockMTakesLeastClass(rows, i);
    ClockMClears(rows);
    hide ClockMChoice;
    assert forall k | 0 <= k < n :: Class(rows[k]) == RankAhead(t, k);
  }

  // ---------------------------------------------------------------- refinement

  lemma {:induction false} PointerRowIs(frames: seq<Frame>, pointer: int, n: nat, j: nat)
    requires j < n <= |frames| && frames[j].page == pointer
    requires forall i | 0 <= i < n && i != j :: frames[i].page != pointer
    ensures PointerRow(frames, pointer, n) == j
  {
    if n - 1 != j {
      PointerRowIs(frames, pointer, n - 1, j);
    }
  }

  lemma {:induction false} PointerRowNone(frames: seq<Frame>, pointer: int, n: nat)
    requires n <= |frames| && forall i | 0 <= i < n :: frames[i].page != pointer
    ensures PointerRow(frames, pointer, n) == -1
  {
    if n > 0 {
      PointerRowNone(frames, pointer, n - 1);
    }
  }

  predicate Full(sl: Slot) {
    forall j | 0 <= j < |sl.frames| :: sl.frames[j].inUse
  }

  /** Resident pages are distinct, and a page that is not present is none of them. */
  lemma FramesDistinct(sl: Slot, q: nat)
    requires MapsInverse(sl) && Full(sl) && q < |sl.pages| && !sl.pages[q].present
    ensures forall i, k | 0 <= i < k < |sl.frames| :: sl.frames[i].page != sl.frames[k].page
    ensures forall i | 0 <= i < |sl.frames| :: sl.frames[i].page != q
  {
  }

  lemma PointerFound(frames: seq<Frame>, jv: nat, jn: nat, q: nat)
    requires jv < |frames| && jn == Next(jv, |frames|)
    requires forall i, k | 0 <= i < k < |frames| :: frames[i].page != frames[k].page
    requires forall i | 0 <= i < |frames| :: frames[i].page != q
    ensures jn < |frames|
    ensures var k := PointerRow(frames[jv := Frame(true, q)], frames[jn].page, |frames|);
            (if k < 0 then 0 else k) == jn
  {
    var after := frames[jv := Frame(true, q)];
    if |frames| >= 2 {
      PointerRowIs(after, frames[jn].page, |frames|, jn);
    } else {
      PointerRowNone(after, frames[jn].page, |frames|);
    }
  }

  /** When a victim goes, the pointer ends up on the frame after the victim's, under
      either algorithm: the pointer of the source is the hand of the textbook. */
  lemma EvictMovesHand(alg: Algorithm, sl: Slot, file: seq<Page>, T: nat, q: nat)
    requires Good(sl, file, T) && q < |sl.pages| && q < |file| && !sl.pages[q].present && Full(sl)
    ensures AllResident(sl)
    ensures var sl' := PageIn(alg, sl, file, q).0;
            var v := FrameOfRow(sl, Choose(alg, Loaded(sl)).victim);
            && sl'.frames == sl.frames[v := Frame(true, q)]
            && Hand(sl') == Next(v, |sl.frames|)
  {
    hide PageIn, SelectVictim, Choose, Loaded, Rows, PointerRow, FileShape, SwapFresh, PointerResident;
    EvictKeeps(alg, sl, file, T, q);
    FramesDistinct(sl, q);
    VictimFrame(alg, sl);
    SelectionFrames(alg, sl);
    hide Good, MapsInverse;
    var n := |sl.frames|;
    var c := Choose(alg, Loaded(sl));
    var jv := FrameOfRow(sl, c.victim);
    PointerFound(sl.frames, jv, Next(jv, n), q);
  }

  lemma VictimFrame(alg: Algorithm, sl: Slot)
    requires MapsInverse(sl) && Full(sl) && |sl.frames| > 0
    ensures AllResident(sl)
    ensures var v := Choose(alg, Loaded(sl)).victim;
            && sl.pages[SelectVictim(alg, sl).0].frame == FrameOfRow(sl, v)
            && FrameOfRow(sl, if v == |sl.frames| - 1 then 0 else v + 1) == Next(FrameOfRow(sl, v), |sl.frames|)
  {
    SelectionFrames(alg, sl);
    hide SelectVictim;
  }

  /** Row i of the swept table is about the page of frame i steps ahead, and no other
      row is. */
  lemma RowPages(alg: Algorithm, sl: Slot, rows: seq<Row>, i: nat)
    requires AllResident(sl) && MapsInverse(sl) && Full(sl) && |sl.frames| > 0 && i < |sl.frames|
    requires rows == Choose(alg, Loaded(sl)).rows
    ensures rows[i].page == sl.frames[FrameOfRow(sl, i)].page
    ensures forall k | 0 <= k < |rows| && k != i :: rows[k].page != rows[i].page
  {
    ChoiceOnlyClearsUse(alg, Loaded(sl), i);
    forall k | 0 <= k < |rows| && k != i ensures rows[k].page != rows[i].page {
      ChoiceOnlyClearsUse(alg, Loaded(sl), k);
      assert FrameOfRow(sl, k) != FrameOfRow(sl, i);
    }
  }

  /** The rows of the loaded table, seen from the circle. */
  lemma LoadedUse(sl: Slot, i: nat)
    requires AllResident(sl) && Full(sl) && i < |sl.frames|
    ensures FrameOfRow(sl, i) == Ahead(Hand(sl), i, |sl.frames|)
    ensures Loaded(sl)[i].used == CircleOf(sl).use[Ahead(Hand(sl), i, |sl.frames|)]
    ensures Loaded(sl)[i].modified == CircleOf(sl).dirty[Ahead(Hand(sl), i, |sl.frames|)]
  {
  }

  lemma CirclePages(sl: Slot, sl': Slot, v: nat, q: nat)
    requires v < |sl.frames| && sl'.frames == sl.frames[v := Frame(true, q)]
    ensures CircleOf(sl').pages == CircleOf(sl).pages[v := q]
  {
  }

  lemma FullPages(sl: Slot, q: nat)
    requires Full(sl) && forall i | 0 <= i < |sl.frames| :: sl.frames[i].page != q && sl.frames[i].page >= 0
    ensures q !in CircleOf(sl).pages && FirstEmpty(CircleOf(sl).pages, 0) == |sl.frames|
  {
  }

  /** The use bit of the page in frame i steps ahead, once the bits are stored back. */
  lemma SweptBit(alg: Algorithm, sl: Slot, i: nat)
    requires MapsInverse(sl) && Full(sl) && i < |sl.frames|
    ensures AllResident(sl)
    ensures var x := sl.frames[FrameOfRow(sl, i)].page;
            SelectVictim(alg, sl).1.pages[x].used == Choose(alg, Loaded(sl)).rows[i].used
  {
    var rows := Loaded(sl);
    var c := Choose(alg, rows);
    LoadedInRange(sl);
    ChoicePagesInRange(alg, rows, |sl.pages|);
    RowPages(alg, sl, c.rows, i);
    hide Choose, Loaded;
    StoredAt(sl.pages, c.rows, |rows|, sl.frames[FrameOfRow(sl, i)].page);
  }

  /** The bits after an eviction, frame by frame. */
  lemma EvictBit(alg: Algorithm, sl: Slot, file: seq<Page>, T: nat, q: nat, i: nat)
    requires Good(sl, file, T) && q < |sl.pages| && q < |file| && !sl.pages[q].present && Full(sl)
    requires i < |sl.frames|
    ensures AllResident(sl)
    ensures var sl' := PageIn(alg, sl, file, q).0;
            var c := Choose(alg, Loaded(sl));
            var j := FrameOfRow(sl, i);
            && |sl'.frames| == |sl.frames|
            && CircleOf(sl').use[j] == (i != c.victim && c.rows[i].used)
            && CircleOf(sl').dirty[j] == (i != c.victim && CircleOf(sl).dirty[j])
  {
    hide PageIn, Choose, Loaded, SelectVictim, Hand, CircleOf, PointerResident, FileShape, SwapFresh;
    hide MapsInverse, AllResident;
    EvictKeeps(alg, sl, file, T, q);
    VictimFrame(alg, sl);
    SelectionFrames(alg, sl);
    SelectionFacts(alg, sl);
    SweptBit(alg, sl, i);
    FramesDistinct(sl, q);
    BitFresh(alg, sl, file, q);
    UseAt(PageIn(alg, sl, file, q).0, FrameOfRow(sl, i));
    UseAt(sl, FrameOfRow(sl, i));
    var c := Choose(alg, Loaded(sl));
    var j, jv := FrameOfRow(sl, i), FrameOfRow(sl, c.victim);
    assert i != c.victim ==> j != jv;
  }

  lemma UseAt(sl: Slot, j: nat)
    requires j < |sl.frames|
    ensures var q := sl.frames[j].page;
            && CircleOf(sl).use[j] == (sl.frames[j].inUse && 0 <= q < |sl.pages| && sl.pages[q].used)
            && CircleOf(sl).dirty[j] == (sl.frames[j].inUse && 0 <= q < |sl.pages| && sl.pages[q].modified)
  {
  }

  lemma BitFresh(alg: Algorithm, sl: Slot, file: seq<Page>, q: nat)
    requires Readable(sl, file) && |sl.frames| > 0 && q < |sl.pages| && !sl.pages[q].present && Full(sl)
    ensures var sl' := PageIn(alg, sl, file, q).0;
            q < |sl'.pages| && !sl'.pages[q].used && !sl'.pages[q].modified
  {
  }

  /** One move of the circle, read off the rotated rows. */
  lemma CircleMove(alg: Algorithm, t: Circle, t': Circle, rows: seq<Row>, q: nat)
    requires |t.pages| == |t.use| == |t.dirty| == |t'.use| == |t'.dirty| == |rows| > t.hand
    requires forall i | 0 <= i < |rows| ::
               && rows[i].used == t.use[Ahead(t.hand, i, |rows|)]
               && rows[i].modified == t.dirty[Ahead(t.hand, i, |rows|)]
    requires q !in t.pages && FirstEmpty(t.pages, 0) == |t.pages|
    requires var c := Choose(alg, rows);
             var v := Ahead(t.hand, c.victim, |rows|);
             && t'.pages == t.pages[v := q] && t'.hand == Next(v, |rows|)
             && forall i | 0 <= i < |rows| ::
                  var j := Ahead(t.hand, i, |rows|);
                  && t'.use[j] == (i != c.victim && c.rows[i].used)
                  && t'.dirty[j] == (i != c.victim && t.dirty[j])
    ensures t' == Demand(alg, t, q)
  {
    var n := |rows|;
    var c := Choose(alg, rows);
    ChoiceIsVictim(alg, t, rows);
    hide Choose, Victim;
    var (v, use) := Victim(alg, t);
    forall j | 0 <= j < n ensures t'.use[j] == use[v := false][j] && t'.dirty[j] == t.dirty[v := false][j] {
      var i := if j >= t.hand then j - t.hand else j + n - t.hand;
      assert Ahead(t.hand, i, n) == j;
      assert i == c.victim <==> j == v;
    }
    assert t'.use == use[v := false];
    assert t'.dirty == t.dirty[v := false];
  }

  lemma AbsentPage(sl: Slot, file: seq<Page>, T: nat, q: nat)
    requires Good(sl, file, T) && q < |sl.pages| && !sl.pages[q].present && Full(sl)
    ensures q !in CircleOf(sl).pages && FirstEmpty(CircleOf(sl).pages, 0) == |sl.frames| && Readable(sl, file)
  {
    FramesDistinct(sl, q);
    FullPages(sl, q);
  }

  /** The bits before and after an eviction, around the circle. */
  lemma EvictBits(alg: Algorithm, sl: Slot, file: seq<Page>, T: nat, q: nat)
    requires Good(sl, file, T) && q < |sl.pages| && q < |file| && !sl.pages[q].present && Full(sl) && |sl.frames| > 0
    ensures AllResident(sl) && |Loaded(sl)| == |sl.frames|
    ensures var c := Choose(alg, Loaded(sl));
            var t, t' := CircleOf(sl), CircleOf(PageIn(alg, sl, file, q).0);
            && |t'.use| == |t'.dirty| == |sl.frames| && Hand(sl) < |sl.frames|
            && forall i | 0 <= i < |sl.frames| ::
                 var j := Ahead(Hand(sl), i, |sl.frames|);
                 && Loaded(sl)[i].used == t.use[j] && Loaded(sl)[i].modified == t.dirty[j]
                 && t'.use[j] == (i != c.victim && c.rows[i].used) && t'.dirty[j] == (i != c.victim && t.dirty[j])
  {
    EvictMovesHand(alg, sl, file, T, q);
    hide PageIn, Good, Choose, CircleOf, Loaded, MapsInverse, SelectVictim, Rows;
    var c := Choose(alg, Loaded(sl));
    var t, t' := CircleOf(sl), CircleOf(PageIn(alg, sl, file, q).0);
    forall i | 0 <= i < |sl.frames|
      ensures var j := Ahead(Hand(sl), i, |sl.frames|);
              && Loaded(sl)[i].used == t.use[j] && Loaded(sl)[i].modified == t.dirty[j]
              && t'.use[j] == (i != c.victim && c.rows[i].used) && t'.dirty[j] == (i != c.victim && t.dirty[j])
    {
      LoadedUse(sl, i);
      EvictBit(alg, sl, file, T, q, i);
    }
  }

  /** With all frames full, a fault is one move of the textbook clock. */
  lemma EvictIsDemand(alg: Algorithm, sl: Slot, file: seq<Page>, T: nat, q: nat)
    requires Good(sl, file, T) && q < |sl.pages| && q < |file| && !sl.pages[q].present && Full(sl)
    ensures CircleOf(PageIn(alg, sl, file, q).0) == Demand(alg, CircleOf(sl), q)
  {
    hide PageIn, Good, Loaded, Hand, Demand, Choose;
    EvictMovesHand(alg, sl, file, T, q);
    AbsentPage(sl, file, T, q);
    EvictBits(alg, sl, file, T, q);
    var c := Choose(alg, Loaded(sl));
    var sl' := PageIn(alg, sl, file, q).0;
    LoadedUse(sl, c.victim);
    CirclePages(sl, sl', FrameOfRow(sl, c.victim), q);
    FullHand(sl);
    FullHand(sl');
    CircleMove(alg, CircleOf(sl), CircleOf(sl'), Loaded(sl), q);
  }

  lemma FullHand(sl: Slot)
    requires Full(sl)
    ensures CircleOf(sl).hand == Hand(sl)
  {
  }

  /** Filling a free frame is what the textbook does with an empty one, and the hand is
      still at frame 0 when the last frame fills. */
  lemma LoadIsDemand(alg: Algorithm, sl: Slot, file: seq<Page>, T: nat, q: nat)
    requires Good(sl, file, T) && q < |sl.pages| && q < |file| && !sl.pages[q].present && !Full(sl)
    ensures CircleOf(PageIn(alg, sl, file, q).0) == Demand(alg, CircleOf(sl), q)
  {
    var j := FirstFree(sl.frames, 0);
    LoadFree(sl, file, T, q);
    var sl' := LoadedFree(sl, file, q);
    assert PageIn(alg, sl, file, q).0 == sl';
    FirstEmptyIs(sl, 0);
    LoadBits(sl, file, q);
    if Full(sl') {
      LastFillHand(sl, sl', j, q);
    }
    hide FirstFree, Hand;
  }

  /** The frame filled last has the page asked for, unused and unmodified; the others stay. */
  lemma LoadBits(sl: Slot, file: seq<Page>, q: nat)
    requires Readable(sl, file) && q < |sl.pages| && q < |file| && !sl.pages[q].present && !Full(sl)
    ensures FirstFree(sl.frames, 0) < |sl.frames|
    ensures var t, t', j := CircleOf(sl), CircleOf(LoadedFree(sl, file, q)), FirstFree(sl.frames, 0);
            && q !in t.pages && |t'.pages| == |t.pages| && t'.pages == t.pages[j := q]
            && t'.use == t.use[j := false] && t'.dirty == t.dirty[j := false]
  {
    hide SwapFresh;
    var sl' := LoadedFree(sl, file, q);
    var t, t', j := CircleOf(sl), CircleOf(sl'), FirstFree(sl.frames, 0);
    assert forall k | 0 <= k < |sl.frames| && k != j :: sl'.frames[k] == sl.frames[k];
    assert t'.pages == t.pages[j := q];
    assert t'.use == t.use[j := false];
    assert t'.dirty == t.dirty[j := false];
  }

  lemma {:induction false} FirstEmptyIs(sl: Slot, j: nat)
    requires MapsInverse(sl) && j <= |sl.frames|
    ensures FirstEmpty(CircleOf(sl).pages, j) == FirstFree(sl.frames, j)
    decreases |sl.frames| - j
  {
    if j < |sl.frames| && sl.frames[j].inUse {
      FirstEmptyIs(sl, j + 1);
    }
  }

  lemma LastFillHand(sl: Slot, sl': Slot, j: nat, q: nat)
    requires MapsInverse(sl) && PointerResident(sl) && |sl.frames| > 0
    requires q < |sl.pages| && !sl.pages[q].present
    requires j == FirstFree(sl.frames, 0) < |sl.frames|
    requires sl'.frames == sl.frames[j := Frame(true, q)]
    requires sl'.pointer == if j == 0 then q else sl.pointer
    requires Full(sl')
    ensures Hand(sl') == 0
  {
    assert sl'.pointer == sl'.frames[0].page;
    assert forall k | 0 < k < |sl'.frames| :: sl'.frames[k].page != sl'.frames[0].page by {
      assert forall k | 0 <= k < |sl.frames| && k != j :: sl.frames[k].inUse by {
        assert forall k | 0 <= k < |sl.frames| && k != j :: sl'.frames[k] == sl.frames[k];
      }
    }
    PointerRowIs(sl'.frames, sl'.pointer, |sl'.frames|, 0);
  }

  /** A page request does to a slot what `Demand` does to the circle. */
  lemma PageInIsDemand(alg: Algorithm, sl: Slot, file: seq<Page>, T: nat, q: nat)
    requires Good(sl, file, T) && q < |sl.pages| && q < |file|
    ensures |sl.frames| > 0 && CircleOf(PageIn(alg, sl, file, q).0) == Demand(alg, CircleOf(sl), q)
  {
    if sl.pages[q].present {
      assert CircleOf(sl).pages[sl.pages[q].frame] == q;
    } else if Full(sl) {
      EvictIsDemand(alg, sl, file, T, q);
    } else {
      LoadIsDemand(alg, sl, file, T, q);
    }
  }

  /** A read or a write through frame j sets the use bit of frame j, a write its modified bit
      as well. */
  lemma AccessIsMark(sl: Slot, file: seq<Page>, T: nat, j: nat, off: nat, v: seq<Byte>)
    requires Good(sl, file, T) && j < |sl.frames| && sl.frames[j].inUse && off + |v| <= T
    ensures CircleOf(Touch(sl, j)) == Mark(CircleOf(sl), j, false)
    ensures CircleOf(Store(sl, j, off, v)) == Mark(CircleOf(sl), j, true)
  {
    hide PointerResident, SwapFresh;
    MarkedIs(sl, Touch(sl, j), j, false);
    MarkedIs(sl, Store(sl, j, off, v), j, true);
    hide CircleOf;
  }

  /** The bits of the page of one frame, on the circle. */
  lemma MarkedIs(sl: Slot, sl': Slot, j: nat, write: bool)
    requires MapsInverse(sl) && j < |sl.frames| && sl.frames[j].inUse
    requires sl'.frames == sl.frames && sl'.pointer == sl.pointer
    requires var q := sl.frames[j].page;
             sl'.pages == sl.pages[q := sl.pages[q].(used := true, modified := write || sl.pages[q].modified)]
    ensures CircleOf(sl') == Mark(CircleOf(sl), j, write)
  {
    var t, t' := CircleOf(sl), CircleOf(sl');
    assert t'.use == Mark(t, j, write).use;
    assert t'.dirty == Mark(t, j, write).dirty;
  }

  // ---------------------------------------------------------------- whole runs

  /** What happens to the pages of one process: requests for pages, and reads and
      writes through frames. */
  datatype Event = Request(page: nat) | Access(frame: nat) | Modify(frame: nat, off: nat, v: seq<Byte>)

  datatype Proc = Proc(slot: Slot, file: seq<Page>)

  ghost predicate Possible(p: Proc, T: nat, e: Event) {
    && Good(p.slot, p.file, T)
    && match e
       case Request(q) => q < |p.slot.pages| && q < |p.file|
       case Access(j) => j < |p.slot.frames| && p.slot.frames[j].inUse
       case Modify(j, off, v) => j < |p.slot.frames| && p.slot.frames[j].inUse && off + |v| <= T
  }

  ghost function After(alg: Algorithm, p: Proc, T: nat, e: Event): Proc
    requires Possible(p, T, e)
  {
    match e
    case Request(q) => var (sl, file) := PageIn(alg, p.slot, p.file, q); Proc(sl, file)
    case Access(j) => Proc(Touch(p.slot, j), p.file)
    case Modify(j, off, v) => Proc(Store(p.slot, j, off, v), p.file)
  }

  function CircleAfter(alg: Algorithm, t: Circle, e: Event): Circle
    requires |t.pages| == |t.use| == |t.dirty| > t.hand
  {
    match e
    case Request(q) => Demand(alg, t, q)
    case Access(j) => if j < |t.use| then Mark(t, j, false) else t
    case Modify(j, off, v) => if j < |t.use| then Mark(t, j, true) else t
  }

  lemma EventRefines(alg: Algorithm, p: Proc, T: nat, e: Event)
    requires Possible(p, T, e)
    ensures Good(After(alg, p, T, e).slot, After(alg, p, T, e).file, T)
    ensures |p.slot.frames| > 0 && CircleOf(After(alg, p, T, e).slot) == CircleAfter(alg, CircleOf(p.slot), e)
  {
    match e
    case Request(q) =>
      PageInKeeps(alg, p.slot, p.file, T, q);
      PageInIsDemand(alg, p.slot, p.file, T, q);
    case Access(j) =>
      TouchKeeps(p.slot, p.file, T, j);
      AccessIsMark(p.slot, p.file, T, j, 0, []);
    case Modify(j, off, v) =>
      StoreKeeps(p.slot, p.file, T, j, off, v);
      AccessIsMark(p.slot, p.file, T, j, off, v);
  }

  ghost predicate AllPossible(alg: Algorithm, p: Proc, T: nat, events: seq<Event>)
    decreases |events|
  {
    events == [] || (Possible(p, T, events[0]) && AllPossible(alg, After(alg, p, T, events[0]), T, events[1..]))
  }

  ghost function AfterAll(alg: Algorithm, p: Proc, T: nat, events: seq<Event>): Proc
    requires AllPossible(alg, p, T, events)
    decreases |events|
  {
    if events == [] then p else AfterAll(alg, After(alg, p, T, events[0]), T, events[1..])
  }

  function CircleAfterAll(alg: Algorithm, t: Circle, events: seq<Event>): Circle
    requires |t.pages| == |t.use| == |t.dirty| > t.hand
    decreases |events|
  {
    if events == [] then t else CircleAfterAll(alg, CircleAfter(alg, t, events[0]), events[1..])
  }

  /** Over any run, the frames, bits and pointer of the source are those of the textbook clock
      of its algorithm run on the same events: every victim is the textbook's victim. */
  lemma {:induction false} RunRefinesTextbook(alg: Algorithm, p: Proc, T: nat, events: seq<Event>)
    requires Good(p.slot, p.file, T) && AllPossible(alg, p, T, events)
    ensures Good(AfterAll(alg, p, T, events).slot, AfterAll(alg, p, T, events).file, T)
    ensures |p.slot.frames| > 0
    ensures CircleOf(AfterAll(alg, p, T, events).slot) == CircleAfterAll(alg, CircleOf(p.slot), events)
    decreases |events|
  {
    if events != [] {
      EventRefines(alg, p, T, events[0]);
      hide CircleOf, Good, After, CircleAfter, Possible;
      RunRefinesTextbook(alg, After(alg, p, T, events[0]), T, events[1..]);
    }
  }

  // ---------------------------------------------------------------- the enhanced clock, on the pages

  /** (use, modified) of the page in frame j, as a binary number. */
  function Rank(sl: Slot, j: nat): nat
    requires AllResident(sl) && j < |sl.frames|
  {
    var e := sl.pages[sl.frames[j].page];
    (if e.used then 2 else 0) + (if e.modified then 1 else 0)
  }

  /** A fault with all frames in use: under the enhanced clock the page that goes is that of
      the first frame, from the one holding the pointer's page on, whose page has the least
      (use, modified) there is; the page asked for takes exactly its frame. */
  lemma EnhancedEvicts(sl: Slot, file: seq<Page>, T: nat, q: nat, h: nat) returns (i: nat)
    requires Good(sl, file, T) && q < |sl.pages| && q < |file| && !sl.pages[q].present && Full(sl)
    requires h < |sl.frames| && sl.frames[h].page == sl.pointer
    ensures AllResident(sl) && i < |sl.frames|
    ensures PageIn(ClockM, sl, file, q).0.frames == sl.frames[Ahead(h, i, |sl.frames|) := Frame(true, q)]
    ensures forall k | 0 <= k < |sl.frames| ::
              Rank(sl, Ahead(h, i, |sl.frames|)) <= Rank(sl, Ahead(h, k, |sl.frames|))
    ensures forall k | 0 <= k < i ::
              Rank(sl, Ahead(h, i, |sl.frames|)) < Rank(sl, Ahead(h, k, |sl.frames|))
  {
    hide PageIn, Choose, SelectVictim, FileShape, SwapFresh, PointerResident, Loaded, Rows, PointerRow;
    EvictMovesHand(ClockM, sl, file, T, q);
    FramesDistinct(sl, q);
    HandAt(sl, h);
    hide Good, MapsInverse, Hand;
    var rows := Loaded(sl);
    i := Choose(ClockM, rows).victim;
    ClockMFirst(rows, i);
    forall k | 0 <= k < |sl.frames|
      ensures FrameOfRow(sl, k) == Ahead(h, k, |sl.frames|) && Class(rows[k]) == Rank(sl, Ahead(h, k, |sl.frames|))
    {
      RowRank(sl, h, k);
    }
  }

  lemma HandAt(sl: Slot, h: nat)
    requires h < |sl.frames| && sl.frames[h].page == sl.pointer
    requires forall i, k | 0 <= i < k < |sl.frames| :: sl.frames[i].page != sl.frames[k].page
    ensures Hand(sl) == h
  {
    PointerRowIs(sl.frames, sl.pointer, |sl.frames|, h);
  }

  lemma RowRank(sl: Slot, h: nat, k: nat)
    requires AllResident(sl) && k < |sl.frames| && h < |sl.frames| && Hand(sl) == h
    ensures FrameOfRow(sl, k) == Ahead(h, k, |sl.frames|)
    ensures Class(Loaded(sl)[k]) == Rank(sl, Ahead(h, k, |sl.frames|))
  {
  }

  lemma ClockMFirst(rows: seq<Row>, i: nat)
    requires |rows| > 0 && i == Choose(ClockM, rows).victim
    ensures FirstOfLeastClass(rows, i)
  {
    ClockMTakesLeastClass(rows, i);
  }
}
