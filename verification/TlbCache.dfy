/** The TLB of the CPU (cpu/src/tlb.c): a small cache from page numbers to frame
    addresses, with first-in-first-out or least-recently-used replacement by time
    stamps.

    The value functions say what one call does; class Tlb does it with the loops of the
    source.  The reference is a list of pages, newest first, that knows nothing of
    stamps or positions.
 */
module TlbCache {

  datatype Policy = Fifo | Lru

  /** `t_entrada_tlb`; an empty entry is -1 in all three fields. */
  datatype Slot = Slot(page: int, frame: int, stamp: int)

  const EMPTY := Slot(-1, -1, -1)

  /** `t_tlb`. */
  datatype Cache = Cache(slots: seq<Slot>, free: nat, clock: nat, policy: Policy)

  // ---------------------------------------------------------------- operations

  /** First slot from i on that holds the page, or |slots|. */
  function FindPage(slots: seq<Slot>, page: nat, i: nat): (k: nat)
    requires i <= |slots|
    ensures i <= k <= |slots|
    ensures forall x | i <= x < k :: slots[x].page != page
    ensures k < |slots| ==> slots[k].page == page
    decreases |slots| - i
  {
    if i == |slots| || slots[i].page == page then i else FindPage(slots, page, i + 1)
  }

  predicate IsEmpty(e: Slot) {
    e.page == -1 && e.frame == -1
  }

  /** `__obtener_primer_entrada_libre`. */
  function FirstEmpty(slots: seq<Slot>, i: nat): (k: nat)
    requires i <= |slots|
    ensures i <= k <= |slots|
    ensures forall x | i <= x < k :: !IsEmpty(slots[x])
    ensures k < |slots| ==> IsEmpty(slots[k])
    decreases |slots| - i
  {
    if i == |slots| || IsEmpty(slots[i]) then i else FirstEmpty(slots, i + 1)
  }

  /** k is the first slot of least stamp. */
  predicate Oldest(slots: seq<Slot>, k: nat) {
    && k < |slots|
    && (forall i | 0 <= i < |slots| :: slots[k].stamp <= slots[i].stamp)
    && (forall i | 0 <= i < k :: slots[k].stamp < slots[i].stamp)
  }

  /** `__elegir_entrada_de_menor_instante_de_tiempo` among the first n slots. */
  function OldestOf(slots: seq<Slot>, n: nat): (k: nat)
    requires 0 < n <= |slots|
    ensures k < n && Oldest(slots[..n], k)
  {
    if n == 1 then 0
    else
      var k := OldestOf(slots, n - 1);
      if slots[n - 1].stamp < slots[k].stamp then n - 1 else k
  }

  /** `tlb_create`: zeroed entries, which are not empty ones. */
  function Created(n: nat, policy: Policy): Cache {
    Cache(seq(n, i => Slot(0, 0, 0)), n, 0, policy)
  }

  function Flushed(t: Cache): Cache {
    t.(slots := seq(|t.slots|, i => EMPTY), free := |t.slots|)
  }

  /** `tlb_get_marco`: the frame address or -1; under LRU a hit renews the stamp. */
  function Lookup(t: Cache, page: nat): (Cache, int) {
    var k := FindPage(t.slots, page, 0);
    if k < |t.slots| then
      (if t.policy == Lru
       then t.(slots := t.slots[k := t.slots[k].(stamp := t.clock)], clock := t.clock + 1)
       else t,
       t.slots[k].frame)
    else (t, -1)
  }

  /** Where `tlb_registrar_entrada_en_tlb` puts a new translation. */
  function Victim(t: Cache): (k: nat)
    requires |t.slots| > 0 && (t.free > 0 ==> FirstEmpty(t.slots, 0) < |t.slots|)
    ensures k < |t.slots|
  {
    if t.free > 0 then FirstEmpty(t.slots, 0) else OldestOf(t.slots, |t.slots|)
  }

  function Register(t: Cache, page: nat, frame: nat): Cache
    requires |t.slots| > 0 && (t.free > 0 ==> FirstEmpty(t.slots, 0) < |t.slots|)
  {
    Cache(t.slots[Victim(t) := Slot(page, frame, t.clock)], if t.free > 0 then t.free - 1 else 0,
          t.clock + 1, t.policy)
  }

  // ---------------------------------------------------------------- invariant

  function Used(t: Cache): int {
    |t.slots| - t.free
  }

  /** Occupied entries come first, with distinct pages and distinct past stamps. */
  ghost predicate Ok(t: Cache) {
    && |t.slots| > 0 && t.free <= |t.slots|
    && (forall i | 0 <= i < Used(t) ::
          0 <= t.slots[i].page && 0 <= t.slots[i].frame && 0 <= t.slots[i].stamp < t.clock)
    && (forall i | Used(t) <= i < |t.slots| :: t.slots[i] == EMPTY)
    && (forall i, k | 0 <= i < k < Used(t) ::
          t.slots[i].page != t.slots[k].page && t.slots[i].stamp != t.slots[k].stamp)
  }

  /** One access of `__cpu_obtener_marco`: lookup, and on a miss registration of what
      the walk answers.  The second part is the frame address that is used. */
  function Access(t: Cache, page: nat, walked: nat): (Cache, int)
    requires Ok(t)
  {
    var (t', frame) := Lookup(t, page);
    MissLeaves(t, page);
    if frame >= 0 then (t', frame) else (Register(t', page, walked), walked)
  }

  lemma OkFirstEmpty(t: Cache)
    requires Ok(t)
    ensures FirstEmpty(t.slots, 0) == Used(t)
  {
    assert forall i | 0 <= i < Used(t) :: !IsEmpty(t.slots[i]);
    assert Used(t) < |t.slots| ==> IsEmpty(t.slots[Used(t)]);
  }

  lemma MissLeaves(t: Cache, page: nat)
    requires Ok(t)
    ensures var (t', frame) := Lookup(t, page);
            && (frame < 0 <==> forall i | 0 <= i < Used(t) :: t.slots[i].page != page)
            && (frame < 0 ==> t' == t)
            && FirstEmpty(t.slots, 0) == Used(t)
  {
    OkFirstEmpty(t);
  }

  lemma AccessOk(t: Cache, page: nat, walked: nat)
    requires Ok(t)
    ensures var (t', frame) := Lookup(t, page);
            && Ok(t') && |t'.slots| == |t.slots|
            && FirstEmpty(t.slots, 0) == Used(t)
            && (frame < 0 ==> Ok(Register(t, page, walked)) && |Register(t, page, walked).slots| == |t.slots|)
  {
    OkFirstEmpty(t);
  }

  // ---------------------------------------------------------------- reference

  function Without(s: seq<nat>, page: nat): (r: seq<nat>)
    ensures page !in r && |r| <= |s|
    ensures page !in s ==> r == s
    ensures forall x :: x in r <==> x in s && x != page
  {
    if s == [] then [] else (if s[0] == page then [] else [s[0]]) + Without(s[1..], page)
  }

  predicate Distinct(s: seq<nat>) {
    forall i, k | 0 <= i < k < |s| :: s[i] != s[k]
  }

  function Take(s: seq<nat>, n: nat): (r: seq<nat>)
    ensures |r| == if |s| <= n then |s| else n
    ensures forall i | 0 <= i < |r| :: r[i] == s[i]
  {
    if |s| <= n then s else s[..n]
  }

  /** s with its k-th element moved to the front. */
  function ToFront(s: seq<nat>, k: nat): (r: seq<nat>)
    requires k < |s|
  {
    [s[k]] + s[..k] + s[k + 1..]
  }

  lemma ToFrontAt(s: seq<nat>, k: nat)
    requires k < |s|
    ensures |ToFront(s, k)| == |s|
    ensures forall i {:trigger ToFront(s, k)[i]} | 0 <= i < |s| ::
              ToFront(s, k)[i] == if i == 0 then s[k] else if i <= k then s[i - 1] else s[i]
  {
  }

  /** The pages held, newest first: LRU moves a hit to the front, FIFO leaves it where
      it is; a miss enters at the front and the last of n falls out. */
  function Renew(policy: Policy, s: seq<nat>, page: nat, n: nat): seq<nat> {
    if page in s then (if policy == Lru then [page] + Without(s, page) else s)
    else Take([page] + s, n)
  }

  predicate On(at: seq<nat>, i: int) {
    i in at
  }

  /** The occupied entries, listed by `at`, are the pages of s, with stamps falling
      along the list. */
  ghost predicate HoldsAt(t: Cache, s: seq<nat>, at: seq<nat>) {
    && Ok(t) && |s| == |at| == Used(t)
    && (forall k | 0 <= k < |at| :: at[k] < Used(t) && t.slots[at[k]].page == s[k])
    && (forall i | 0 <= i < Used(t) :: On(at, i))
    && (forall a, b | 0 <= a < b < |at| :: t.slots[at[a]].stamp > t.slots[at[b]].stamp)
  }

  ghost predicate Holds(t: Cache, s: seq<nat>) {
    exists at :: HoldsAt(t, s, at)
  }

  lemma {:induction false} WithoutIs(s: seq<nat>, k: nat)
    requires Distinct(s) && k < |s|
    ensures Without(s, s[k]) == s[..k] + s[k + 1..]
  {
    if k == 0 {
      assert s[0] !in s[1..];
    } else {
      WithoutIs(s[1..], k - 1);
      assert s[..k] + s[k + 1..] == [s[0]] + (s[1..][..k - 1] + s[1..][k..]);
    }
  }

  lemma WithoutFront(s: seq<nat>, k: nat)
    requires Distinct(s) && k < |s|
    ensures [s[k]] + Without(s, s[k]) == ToFront(s, k)
  {
    WithoutIs(s, k);
  }

  lemma HoldsDistinct(t: Cache, s: seq<nat>, at: seq<nat>)
    requires HoldsAt(t, s, at)
    ensures Distinct(s)
    ensures forall page :: page in s <==> exists i :: 0 <= i < Used(t) && t.slots[i].page == page
  {
    forall page | page in s ensures exists i :: 0 <= i < Used(t) && t.slots[i].page == page {
      var k :| 0 <= k < |s| && s[k] == page;
      assert t.slots[at[k]].page == page;
    }
    forall i | 0 <= i < Used(t) ensures t.slots[i].page in s {
      assert On(at, i);
      var k :| 0 <= k < |at| && at[k] == i;
      assert s[k] == t.slots[i].page;
    }
  }

  lemma HitKeeps(t: Cache, s: seq<nat>, at: seq<nat>, k: nat)
    requires HoldsAt(t, s, at) && k < |at|
    ensures Lookup(t, s[k]).1 == t.slots[at[k]].frame >= 0
    ensures Holds(Lookup(t, s[k]).0, Renew(t.policy, s, s[k], |t.slots|))
  {
    HoldsDistinct(t, s, at);
    assert FindPage(t.slots, s[k], 0) == at[k];
    if t.policy == Lru {
      WithoutFront(s, k);
      assert forall i | 0 <= i < Used(t) && i != at[k] :: t.slots[i].page != s[k];
      Overwritten(t, s, at, k, t.slots[at[k]].(stamp := t.clock));
      assert ToFront(s, k)[0 := s[k]] == ToFront(s, k);
    } else {
      assert HoldsAt(t, s, at);
    }
  }

  lemma OthersElsewhere(t: Cache, s: seq<nat>, at: seq<nat>, k: nat)
    requires HoldsAt(t, s, at) && k < |at|
    ensures forall x | 0 <= x < |at| && x != k :: at[x] != at[k] && s[x] != s[k]
  {
    forall x | 0 <= x < |at| && x != k ensures at[x] != at[k] {
      assert t.slots[at[x]].stamp != t.slots[at[k]].stamp;
    }
  }

  lemma OnMoved(at: seq<nat>, k: nat, i: int)
    requires k < |at| && On(at, i)
    ensures On(ToFront(at, k), i)
  {
    var x :| 0 <= x < |at| && at[x] == i;
    assert ToFront(at, k)[if x < k then x + 1 else if x == k then 0 else x] == i;
  }

  /** The k-th newest entry is overwritten with the current time: it becomes the newest. */
  lemma Overwritten(t: Cache, s: seq<nat>, at: seq<nat>, k: nat, e: Slot)
    requires HoldsAt(t, s, at) && k < |at| && e.page >= 0 && e.frame >= 0 && e.stamp == t.clock
    requires forall i | 0 <= i < Used(t) && i != at[k] :: t.slots[i].page != e.page
    ensures HoldsAt(t.(slots := t.slots[at[k] := e], clock := t.clock + 1),
                    ToFront(s, k)[0 := e.page], ToFront(at, k))
  {
    forall i | 0 <= i < Used(t) ensures On(ToFront(at, k), i) {
      assert On(at, i);
      OnMoved(at, k, i);
    }
    hide On;
    ToFrontAt(s, k);
    ToFrontAt(at, k);
    OthersElsewhere(t, s, at, k);
    hide ToFront;
    OverwrittenOrder(t, s, at, k, e, ToFront(at, k));
    assert Ok(t.(slots := t.slots[at[k] := e], clock := t.clock + 1));
  }

  lemma OverwrittenOrder(t: Cache, s: seq<nat>, at: seq<nat>, k: nat, e: Slot, at': seq<nat>)
    requires HoldsAt(t, s, at) && k < |at| && e.stamp == t.clock
    requires |at'| == |at|
    requires forall i {:trigger at'[i]} | 0 <= i < |at| ::
               at'[i] == if i == 0 then at[k] else if i <= k then at[i - 1] else at[i]
    ensures forall a, b | 0 <= a < b < |at'| ::
              at'[a] < Used(t) && at'[b] < Used(t) &&
              t.slots[at[k] := e][at'[a]].stamp > t.slots[at[k] := e][at'[b]].stamp
  {
    OthersElsewhere(t, s, at, k);
    hide On;
    var slots := t.slots[at[k] := e];
    forall a, b | 0 <= a < b < |at'|
      ensures at'[a] < Used(t) && at'[b] < Used(t) && slots[at'[a]].stamp > slots[at'[b]].stamp
    {
      var y := if b <= k then b - 1 else b;
      assert at'[b] == at[y] && y != k;
      if a > 0 {
        var x := if a <= k then a - 1 else a;
        assert at'[a] == at[x] && x != k && x < y;
      }
    }
  }

  lemma NewestIn(s: seq<nat>, page: nat)
    requires |s| > 0
    ensures ToFront(s, |s| - 1)[0 := page] == Take([page] + s, |s|)
  {
  }

  lemma MissEnters(t: Cache, s: seq<nat>, at: seq<nat>, page: nat, frame: nat)
    requires HoldsAt(t, s, at) && page !in s
    ensures Lookup(t, page) == (t, -1) && FirstEmpty(t.slots, 0) == Used(t)
    ensures Holds(Register(t, page, frame), Renew(t.policy, s, page, |t.slots|))
  {
    HoldsDistinct(t, s, at);
    OkFirstEmpty(t);
    assert FindPage(t.slots, page, 0) == |t.slots|;
    hide ToFront, Take, On, FindPage, FirstEmpty;
    if t.free > 0 {
      Entered(t, s, at, page, frame);
    } else {
      LastIsOldest(t, s, at);
      Overwritten(t, s, at, |at| - 1, Slot(page, frame, t.clock));
      NewestIn(s, page);
    }
  }

  lemma Entered(t: Cache, s: seq<nat>, at: seq<nat>, page: nat, frame: nat)
    requires HoldsAt(t, s, at) && page !in s && t.free > 0 && FirstEmpty(t.slots, 0) == Used(t)
    requires forall i | 0 <= i < Used(t) :: t.slots[i].page != page
    ensures HoldsAt(Register(t, page, frame), Take([page] + s, |t.slots|), [Used(t) as nat] + at)
  {
    var at' := [Used(t) as nat] + at;
    forall i | 0 <= i < Used(t) + 1 ensures On(at', i) {
      assert i < Used(t) ==> On(at, i);
      assert at'[0] == Used(t);
    }
    hide On, Take;
  }

  lemma LastIsOldest(t: Cache, s: seq<nat>, at: seq<nat>)
    requires HoldsAt(t, s, at) && t.free == 0
    ensures |at| > 0 && OldestOf(t.slots, |t.slots|) == at[|at| - 1]
  {
    var v := OldestOf(t.slots, |t.slots|);
    assert t.slots[..|t.slots|] == t.slots;
    assert On(at, v);
    var x :| 0 <= x < |at| && at[x] == v;
    assert t.slots[at[x]].stamp <= t.slots[at[|at| - 1]].stamp;
  }

  /** Stamps mean order: whatever the slots, an access renews the list of pages, and a
      page hits exactly when it is on the list. */
  lemma AccessRenews(t: Cache, s: seq<nat>, page: nat, walked: nat)
    requires Holds(t, s)
    ensures Holds(Access(t, page, walked).0, Renew(t.policy, s, page, |t.slots|))
    ensures Access(t, page, walked).0.policy == t.policy && |Access(t, page, walked).0.slots| == |t.slots|
    ensures Lookup(t, page).1 >= 0 <==> page in s
  {
    var at :| HoldsAt(t, s, at);
    MissLeaves(t, page);
    if page in s {
      var k :| 0 <= k < |s| && s[k] == page;
      HitKeeps(t, s, at, k);
    } else {
      MissEnters(t, s, at, page, walked);
    }
  }

  lemma FlushedHolds(t: Cache)
    requires |t.slots| > 0
    ensures Holds(Flushed(t), [])
  {
    assert HoldsAt(Flushed(t), [], []);
  }

  // ---------------------------------------------------------------- whole traces

  /** A reference: the page, and the frame address a walk would answer with. */
  datatype Ref = Ref(page: nat, walked: nat)

  function Pages(trace: seq<Ref>): (r: seq<nat>)
    ensures |r| == |trace|
  {
    seq(|trace|, i requires 0 <= i < |trace| => trace[i].page)
  }

  /** The cache and the list of pages after a trace, access by access. */
  function Listed(policy: Policy, pages: seq<nat>, n: nat): seq<nat> {
    if pages == [] then [] else Renew(policy, Listed(policy, pages[..|pages| - 1], n), pages[|pages| - 1], n)
  }

  ghost function Run(t: Cache, trace: seq<Ref>): Cache {
    if trace == [] then t
    else
      var t' := Run(t, trace[..|trace| - 1]);
      if Ok(t') then Access(t', trace[|trace| - 1].page, trace[|trace| - 1].walked).0 else t'
  }

  lemma {:induction false} RunHolds(t: Cache, trace: seq<Ref>)
    requires |t.slots| > 0
    ensures Holds(Run(Flushed(t), trace), Listed(t.policy, Pages(trace), |t.slots|))
    ensures Run(Flushed(t), trace).policy == t.policy && |Run(Flushed(t), trace).slots| == |t.slots|
  {
    if trace == [] {
      FlushedHolds(t);
    } else {
      var init, r := trace[..|trace| - 1], trace[|trace| - 1];
      RunHolds(t, init);
      assert Pages(trace)[..|trace| - 1] == Pages(init);
      AccessRenews(Run(Flushed(t), init), Listed(t.policy, Pages(init), |t.slots|), r.page, r.walked);
    }
  }

  /** The pages of a trace by last use, most recent first. */
  function Recency(pages: seq<nat>): (r: seq<nat>) {
    if pages == [] then []
    else
      var p := pages[|pages| - 1];
      [p] + Without(Recency(pages[..|pages| - 1]), p)
  }

  /** The distinct pages used since the last use of `page`. */
  function Since(pages: seq<nat>, page: nat): set<nat> {
    if pages == [] || pages[|pages| - 1] == page then {}
    else Since(pages[..|pages| - 1], page) + {pages[|pages| - 1]}
  }

  lemma {:induction false} WithoutDistinct(s: seq<nat>, page: nat)
    requires Distinct(s)
    ensures Distinct(Without(s, page))
  {
    if page in s {
      var k :| 0 <= k < |s| && s[k] == page;
      WithoutIs(s, k);
    }
  }

  lemma {:induction false} RecencyDistinct(pages: seq<nat>)
    ensures Distinct(Recency(pages))
    ensures forall p :: p in Recency(pages) <==> p in pages
  {
    if pages != [] {
      var init := pages[..|pages| - 1];
      RecencyDistinct(init);
      WithoutDistinct(Recency(init), pages[|pages| - 1]);
      assert pages == init + [pages[|pages| - 1]];
    }
  }

  /** Moving a page to the front commutes with keeping the first n. */
  lemma RenewTakes(r: seq<nat>, page: nat, n: nat)
    requires n > 0 && Distinct(r)
    ensures Renew(Lru, Take(r, n), page, n) == Take([page] + Without(r, page), n)
  {
    hide ToFront, Without;
    var s := Take(r, n);
    if page in r {
      var k :| 0 <= k < |r| && r[k] == page;
      WithoutFront(r, k);
      ToFrontAt(r, k);
      if page in s {
        assert k < n && s[k] == page;
        WithoutFront(s, k);
        ToFrontAt(s, k);
      }
    } else {
      assert page !in s;
    }
  }

  /** Under LRU the list is the n pages used most recently. */
  lemma {:induction false} LruListed(pages: seq<nat>, n: nat)
    requires n > 0
    ensures Listed(Lru, pages, n) == Take(Recency(pages), n)
  {
    if pages != [] {
      var init := pages[..|pages| - 1];
      LruListed(init, n);
      RecencyDistinct(init);
      RenewTakes(Recency(init), pages[|pages| - 1], n);
    }
  }

  lemma {:induction false} DistinctSize(s: seq<nat>, all: set<nat>)
    requires Distinct(s) && forall p :: p in all <==> p in s
    ensures |all| == |s|
  {
    if s == [] {
      assert all == {};
    } else {
      assert s[0] !in s[1..];
      DistinctSize(s[1..], all - {s[0]});
    }
  }

  lemma ToFrontPrefix(s: seq<nat>, k: nat, i: nat, p: nat)
    requires k < |s| && 0 < i < |s|
    ensures p in ToFront(s, k)[..i] <==> p == s[k] || p in s[..if i <= k then i - 1 else i]
  {
    var f := ToFront(s, k)[..i];
    var j := if i <= k then i - 1 else i;
    if p in f {
      var x :| 0 <= x < i && f[x] == p;
      assert x > 0 ==> s[..j][if x <= k then x - 1 else x] == p;
    }
    if p in s[..j] {
      var x :| 0 <= x < j && s[..j][x] == p;
      assert f[if x < k then x + 1 else if x == k then 0 else x] == p;
    }
    assert f[0] == s[k];
  }

  /** The pages before q in the recency order are those used since its last use. */
  lemma {:induction false} RecencyBefore(pages: seq<nat>, i: nat, p: nat)
    requires i < |Recency(pages)|
    ensures p in Since(pages, Recency(pages)[i]) <==> p in Recency(pages)[..i]
  {
    hide ToFront, Without;
    var last := pages[|pages| - 1];
    var init := pages[..|pages| - 1];
    var before := Recency(init);
    if i > 0 {
      RecencyDistinct(init);
      if last in before {
        var k :| 0 <= k < |before| && before[k] == last;
        WithoutFront(before, k);
        ToFrontAt(before, k);
        RecencyBefore(init, if i <= k then i - 1 else i, p);
        ToFrontPrefix(before, k, i, p);
      } else {
        RecencyBefore(init, i - 1, p);
        assert Recency(pages)[..i] == [last] + before[..i - 1];
      }
    }
  }

  /** The place of a page in the recency order is the number of distinct pages used
      since. */
  lemma RecencyDepth(pages: seq<nat>, i: nat)
    requires i < |Recency(pages)|
    ensures |Since(pages, Recency(pages)[i])| == i
  {
    RecencyDistinct(pages);
    forall p ensures p in Since(pages, Recency(pages)[i]) <==> p in Recency(pages)[..i] {
      RecencyBefore(pages, i, p);
    }
    DistinctSize(Recency(pages)[..i], Since(pages, Recency(pages)[i]));
  }

  ghost predicate Held(t: Cache, page: nat) {
    Ok(t) && exists i :: 0 <= i < Used(t) && t.slots[i].page == page
  }

  /** An LRU TLB of n entries holds, after any trace since a flush, exactly the pages
      with fewer than n distinct pages used since their last use; and it hits exactly on
      those. */
  lemma LruHoldsLastDistinct(t: Cache, trace: seq<Ref>, page: nat)
    requires |t.slots| > 0 && t.policy == Lru
    ensures var t' := Run(Flushed(t), trace);
            && Ok(t')
            && (Held(t', page) <==> page in Pages(trace) && |Since(Pages(trace), page)| < |t.slots|)
            && (Lookup(t', page).1 >= 0 <==> Held(t', page))
  {
    var n := |t.slots|;
    var pages := Pages(trace);
    RunHolds(t, trace);
    LruListed(pages, n);
    RecencyDistinct(pages);
    var t' := Run(Flushed(t), trace);
    var s := Take(Recency(pages), n);
    var at :| HoldsAt(t', s, at);
    HoldsDistinct(t', s, at);
    AccessRenews(t', s, page, 0);
    if page in pages {
      var i :| 0 <= i < |Recency(pages)| && Recency(pages)[i] == page;
      RecencyDepth(pages, i);
      if i < n {
        assert s[i] == page;
      }
    }
  }

  /** Inclusion: a larger LRU TLB holds whatever a smaller one does, so it hits whenever
      the smaller one hits, on every trace. */
  lemma LruHitsGrow(small: Cache, large: Cache, trace: seq<Ref>, page: nat)
    requires 0 < |small.slots| <= |large.slots| && small.policy == large.policy == Lru
    ensures Lookup(Run(Flushed(small), trace), page).1 >= 0 ==> Lookup(Run(Flushed(large), trace), page).1 >= 0
  {
    LruHoldsLastDistinct(small, trace, page);
    LruHoldsLastDistinct(large, trace, page);
  }

  /** The pages that missed in a FIFO TLB of n entries, newest first. */
  function Inserted(pages: seq<nat>, n: nat): seq<nat> {
    if pages == [] then []
    else
      var r := Inserted(pages[..|pages| - 1], n);
      var p := pages[|pages| - 1];
      if p in Take(r, n) then r else [p] + r
  }

  lemma {:induction false} FifoListed(pages: seq<nat>, n: nat)
    requires n > 0
    ensures Listed(Fifo, pages, n) == Take(Inserted(pages, n), n)
  {
    if pages != [] {
      var init := pages[..|pages| - 1];
      FifoListed(init, n);
      var r := Inserted(init, n);
      var p := pages[|pages| - 1];
      if p !in Take(r, n) && |r| >= n {
        assert ([p] + Take(r, n))[..n] == [p] + r[..n - 1];
        assert ([p] + r)[..n] == [p] + r[..n - 1];
      }
    }
  }

  /** A FIFO TLB of n entries holds the last n pages inserted; an access that hits
      changes nothing in it. */
  lemma FifoHoldsLastInserted(t: Cache, trace: seq<Ref>, page: nat)
    requires |t.slots| > 0 && t.policy == Fifo
    ensures var t' := Run(Flushed(t), trace);
            && Ok(t')
            && (Held(t', page) <==> page in Take(Inserted(Pages(trace), |t.slots|), |t.slots|))
            && (Held(t', page) ==> Lookup(t', page).0 == t' && Lookup(t', page).1 >= 0)
  {
    RunHolds(t, trace);
    FifoListed(Pages(trace), |t.slots|);
    var t' := Run(Flushed(t), trace);
    var s := Take(Inserted(Pages(trace), |t.slots|), |t.slots|);
    var at :| HoldsAt(t', s, at);
    HoldsDistinct(t', s, at);
    AccessRenews(t', s, page, 0);
  }

  // ---------------------------------------------------------------- the unit itself

  /** `t_tlb` with its entries array and the loops over it. */
  class Tlb {
    const policy: Policy
    const entries: array<Slot>
    var free: nat
    var clock: nat

    function View(): Cache
      reads this, entries
    {
      Cache(entries[..], free, clock, policy)
    }

    /** `tlb_create`. */
    constructor (n: nat, policy: Policy)
      ensures fresh(entries) && View() == Created(n, policy)
    {
      this.policy := policy;
      entries := new Slot[n](_ => Slot(0, 0, 0));
      free := n;
      clock := 0;
    }

    /** `tlb_flush`. */
    method Flush()
      modifies this`free, entries
      ensures View() == Flushed(old(View()))
    {
      var i := 0;
      while i < entries.Length
        invariant i <= entries.Length && free == old(free)
        invariant forall k | 0 <= k < i :: entries[k] == EMPTY
      {
        entries[i] := EMPTY;
        i := i + 1;
      }
      free := entries.Length;
      assert entries[..] == Flushed(old(View())).slots;
    }

    /** `tlb_get_marco`. */
    method GetFrame(page: nat) returns (frame: int)
      modifies this`clock, entries
      ensures (View(), frame) == Lookup(old(View()), page)
    {
      var i := 0;
      while i < entries.Length
        invariant i <= entries.Length && View() == old(View())
        invariant forall k | 0 <= k < i :: entries[k].page != page
      {
        if entries[i].page == page {
          FoundAt(entries[..], page, i);
          if policy == Lru {
            entries[i] := entries[i].(stamp := clock);
            clock := clock + 1;
          }
          return entries[i].frame;
        }
        i := i + 1;
      }
      FoundAt(entries[..], page, i);
      return -1;
    }

    /** `__obtener_primer_entrada_libre`. */
    method FirstFree() returns (k: int)
      ensures var f := FirstEmpty(entries[..], 0);
              k == if f < entries.Length then f else -1
    {
      var i := 0;
      while i < entries.Length
        invariant i <= entries.Length
        invariant forall k | 0 <= k < i :: !IsEmpty(entries[k])
      {
        if entries[i].page == -1 && entries[i].frame == -1 {
          EmptyAt(entries[..], i);
          return i;
        }
        i := i + 1;
      }
      EmptyAt(entries[..], i);
      return -1;
    }

    /** `__elegir_entrada_de_menor_instante_de_tiempo`. */
    method LeastStamp() returns (k: nat)
      requires entries.Length > 0
      ensures k == OldestOf(entries[..], entries.Length)
    {
      k := 0;
      var i := 1;
      while i < entries.Length
        invariant 1 <= i <= entries.Length && k == OldestOf(entries[..], i)
      {
        if entries[i].stamp < entries[k].stamp {
          k := i;
        }
        i := i + 1;
      }
    }

    /** `tlb_registrar_entrada_en_tlb`. */
    method Store(page: nat, frame: nat)
      requires |View().slots| > 0 && (View().free > 0 ==> FirstEmpty(View().slots, 0) < |View().slots|)
      modifies this`free, this`clock, entries
      ensures View() == Register(old(View()), page, frame)
    {
      var k: int;
      if free > 0 {
        k := FirstFree();
        free := free - 1;
      } else {
        k := LeastStamp();
      }
      entries[k] := Slot(page, frame, clock);
      clock := clock + 1;
    }
  }

  lemma FoundAt(slots: seq<Slot>, page: nat, i: nat)
    requires i <= |slots| && (forall k | 0 <= k < i :: slots[k].page != page)
    requires i < |slots| ==> slots[i].page == page
    ensures FindPage(slots, page, 0) == i
  {
  }

  lemma EmptyAt(slots: seq<Slot>, i: nat)
    requires i <= |slots| && (forall k | 0 <= k < i :: !IsEmpty(slots[k]))
    requires i < |slots| ==> IsEmpty(slots[i])
    ensures FirstEmpty(slots, 0) == i
  {
  }
}
