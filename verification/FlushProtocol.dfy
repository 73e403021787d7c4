/** The flush protocol between kernel and CPU.

    The kernel remembers the process suspended last and sends it with a header that makes
    the CPU flush its TLB; the CPU flushes by itself when the process is not the one it ran
    last.  A process that ran last, was suspended, and is sent again must therefore be the
    one suspended last.  `ultimoPIDSuspendido` remembers one process only, so this depends
    on the order in which things happen.
 */
module FlushProtocol {
  import Arith
  import Srt
  import opened Queues
  import opened Scheduler

  /** The kernel, the process the CPU ran last (-1 before the first), and whether that
      process has been suspended since. */
  datatype Watch = Watch(k: Kernel, last: int, stale: bool)

  function Observe(w: Watch, e: Event): Watch
    requires Enabled(w.k, e) && Steady(w.k, e)
  {
    if e.Send? then Watch(Step(w.k, e), w.k.execQ[0], false)
    else Watch(Step(w.k, e), w.last, w.stale || SuspendsLast(w, e))
  }

  predicate SuspendsLast(w: Watch, e: Event) {
    e.Fire? && Suspends(w.k, e.i, e.waited) && w.k.timers[e.i].pid == w.last
  }

  /** What the protocol is for: nobody who was suspended since the CPU ran it is sent as if
      the TLB were still its own. */
  predicate Sound(w: Watch) {
    Enabled(w.k, Send) && w.k.execQ != [] && w.k.execQ[0] == w.last && w.stale ==> w.k.lastSuspended == w.last
  }

  /** Under FIFO, and under SRT with estimates that never change, whoever is first in line
      stays first. */
  predicate Lined(k: Kernel) {
    !k.srt || k.alfa == 0.0
  }

  /** Then, and with one process at a time, timers may fire in any order. */
  predicate AnyOrder(k: Kernel) {
    Lined(k) || k.degree <= 1
  }

  predicate InTurn(k: Kernel, e: Event) {
    e.Fire? && !AnyOrder(k) ==> e.i == 0
  }

  // ---------------------------------------------------------------- invariant

  /** Those on their way to the CPU, in the order in which FIFO queues let them through. */
  function Line(k: Kernel): seq<nat> {
    k.execQ + k.readyQ + k.susReadyQ + (k.device + k.ioQ)
  }

  ghost predicate Before(q: seq<nat>, a: int, b: int) {
    exists i, j :: 0 <= i < j < |q| && q[i] == a && q[j] == b
  }

  /** Last of those waiting for I/O. */
  predicate LastWaiting(k: Kernel, p: nat) {
    var w := k.device + k.ioQ;
    w != [] && w[|w| - 1] == p
  }

  /** All estimates are the initial one while alfa is 0. */
  ghost predicate Even(k: Kernel) {
    k.srt && k.alfa == 0.0 ==>
      forall p | p in k.pcbs :: k.pcbs[p].estimate == k.initial && k.pcbs[p].executed >= 0.0
  }

  /** p has not run since its last block. */
  predicate Rested(k: Kernel, p: nat) {
    k.srt && p in k.pcbs ==> k.pcbs[p].executed == 0.0
  }

  /** Whoever is suspended after p stays ahead of p. */
  ghost predicate Follows(k: Kernel, p: nat) {
    && Rested(k, p)
    && (p in k.device + k.ioQ ==> LastWaiting(k, p) && p in k.pcbs && k.pcbs[p].tag == SUSPENDED_BLOCKED)
    && (p !in k.device + k.ioQ ==> k.device + k.ioQ == [])
    && (k.lastSuspended == p || Before(Line(k), k.lastSuspended, p))
  }

  /** What holds while p, the last process the CPU ran, is suspended or back from it: p is
      the one suspended last and nobody else can be, or whoever was is ahead of p. */
  ghost predicate Guarded(k: Kernel, p: nat) {
    if Lined(k) then Follows(k, p) else k.lastSuspended == p && (k.timers == [] || k.blockedQ == [])
  }

  /** While p is in BLOCKED its timer is the last one started, and p the last to wait. */
  ghost predicate LastBlock(k: Kernel, p: nat) {
    p in k.pcbs && p in k.blockedQ ==>
      && LastWaiting(k, p) && Rested(k, p)
      && forall i | 0 <= i < |k.timers| - 1 :: k.timers[i] != Timer(p, k.pcbs[p].blocks)
  }

  /** Where the process that ran last is. */
  ghost predicate Known(w: Watch) {
    && (w.k.attend == AtCpu ==> w.k.execQ != [] && w.last == w.k.execQ[0] && !w.stale)
    && (w.k.attend == Answering ==> w.k.flight != [] && w.last == w.k.flight[0] && !w.stale)
    && w.last < w.k.nextPid
    && (w.last >= 0 && w.last in w.k.pcbs ==> Admitted(w.k, w.last))
  }

  ghost predicate WatchOk(w: Watch) {
    && Known(w) && Even(w.k)
    && (w.last >= 0 ==> LastBlock(w.k, w.last))
    && (w.last >= 0 && w.last in w.k.pcbs && w.stale ==> Guarded(w.k, w.last))
  }

  // ---------------------------------------------------------------- orders

  lemma InsertKeeps(a: seq<nat>, x: nat, b: seq<nat>, p: int, r: int)
    requires Before(a + b, p, r)
    ensures Before(a + [x] + b, p, r)
  {
    var q, q' := a + b, a + [x] + b;
    var i, j :| 0 <= i < j < |q| && q[i] == p && q[j] == r;
    var i', j' := if i < |a| then i else i + 1, if j < |a| then j else j + 1;
    assert q'[i'] == p && q'[j'] == r;
  }

  lemma AdvanceKeeps(a: seq<nat>, s: seq<nat>, x: nat, b: seq<nat>, p: int, r: int)
    requires Before(a + s + ([x] + b), p, r) && r != x
    ensures Before(a + [x] + s + b, p, r)
  {
    var q, q' := a + s + ([x] + b), a + [x] + s + b;
    var i, j :| 0 <= i < j < |q| && q[i] == p && q[j] == r;
    var m := |a| + |s|;
    var i' := if i < |a| || i > m then i else if i == m then |a| else i + 1;
    var j' := if j < |a| || j > m then j else j + 1;
    assert q[m] == x;
    assert q'[i'] == p && q'[j'] == r;
  }

  // ---------------------------------------------------------------- places

  lemma NotBlocked(k: Kernel, p: nat)
    requires Inv(k) && (p in k.execQ || p in k.flight || p in k.exitQ || p in k.newQ)
    ensures p in k.pcbs && p !in k.blockedQ
    ensures !(k.execQ != [] && k.exitQ != [] && k.execQ[0] == k.exitQ[0])
    ensures !(k.flight != [] && k.exitQ != [] && k.flight[0] == k.exitQ[0])
  {
    hide Tokens, Signals, Tables, TimersOk;
    if k.exitQ != [] {
      OnceOnly(k, k.exitQ[0]);
    }
    hide OnePlace;
  }

  lemma AdmittedPlace(k: Kernel, p: nat)
    requires Inv(k) && (p in k.execQ || p in k.exitQ || p in k.flight || p in k.blockedQ)
    ensures Admitted(k, p)
  {
    hide Tokens, Signals, TimersOk, Tables;
    OnceOnly(k, p);
    hide OnePlace;
  }

  lemma PidBelow(k: Kernel, p: nat)
    requires Inv(k) && p in k.pcbs
    ensures 0 < p < k.nextPid
  {
  }

  lemma Attending(k: Kernel)
    requires Inv(k)
    ensures k.attend == AtCpu ==> k.flight == []
    ensures k.attend != Answering ==> k.flight == []
    ensures k.attend == AtCpu ==> |k.execQ| == 1
    ensures |k.execQ| <= 1
  {
    hide OnePlace, Tagged, Tokens, Tables, TimersOk;
  }

  // ---------------------------------------------------------------- where the last one is

  lemma KnownArrive(w: Watch, size: nat)
    requires Known(w) && forall p | p in w.k.pcbs :: p < w.k.nextPid
    ensures Known(Observe(w, Arrive(size)))
  {
  }

  lemma KnownAdmit(w: Watch)
    requires Known(w) && Enabled(w.k, Admit) && Steady(w.k, Admit)
    ensures Known(Observe(w, Admit))
  {
    AdmitLeaves(w.k);
    hide Step, Enabled, Steady;
  }

  /** What an admission leaves alone. */
  lemma AdmitLeaves(k: Kernel)
    requires Enabled(k, Admit) && Steady(k, Admit)
    ensures var k' := Step(k, Admit);
            && k'.attend == k.attend && k'.execQ == k.execQ && k'.flight == k.flight && k'.nextPid == k.nextPid
            && k'.pcbs.Keys == k.pcbs.Keys
            && forall p | p in k'.newQ :: p in k.newQ
  {
    if k.susReadyQ == [] {
      FrontIn(k.newQ);
    }
  }

  lemma KnownRequeue(w: Watch)
    requires Known(w) && Enabled(w.k, Requeue) && Steady(w.k, Requeue)
    ensures Known(Observe(w, Requeue))
  {
  }

  lemma KnownIoDone(w: Watch)
    requires Known(w) && Enabled(w.k, IoDone) && Steady(w.k, IoDone)
    ensures Known(Observe(w, IoDone))
  {
    hide Without;
  }

  lemma KnownFire(w: Watch, i: nat, waited: nat)
    requires Known(w) && Inv(w.k) && Enabled(w.k, Fire(i, waited)) && Steady(w.k, Fire(i, waited))
    ensures Known(Observe(w, Fire(i, waited)))
  {
    hide Inv, DoFire, LetThrough;
    FireLeaves(w.k, i, waited);
    if w.k.execQ != [] {
      NotBlocked(w.k, w.k.execQ[0]);
    }
    if w.k.flight != [] {
      NotBlocked(w.k, w.k.flight[0]);
    }
  }

  /** What a timer leaves alone. */
  lemma FireLeaves(k: Kernel, i: nat, waited: nat)
    requires i < |k.timers|
    ensures var k' := DoFire(k, i, waited);
            && k'.attend == k.attend && k'.execQ == k.execQ && k'.flight == k.flight && k'.newQ == k.newQ
            && k'.nextPid == k.nextPid && k'.pcbs.Keys == k.pcbs.Keys
  {
    hide Without, LetThrough;
  }

  lemma KnownRelease(w: Watch)
    requires Known(w) && Inv(w.k) && Enabled(w.k, Release) && Steady(w.k, Release)
    ensures Known(Observe(w, Release))
  {
    hide Inv;
    NotBlocked(w.k, w.k.exitQ[0]);
  }

  lemma KnownSend(w: Watch)
    requires Known(w) && Inv(w.k) && Enabled(w.k, Send) && Steady(w.k, Send)
    ensures Known(Observe(w, Send))
  {
    hide Inv;
    AdmittedPlace(w.k, w.k.execQ[0]);
    PidBelow(w.k, w.k.execQ[0]);
  }

  lemma KnownRest(w: Watch, e: Event)
    requires Known(w) && Inv(w.k) && Enabled(w.k, e) && Steady(w.k, e)
    requires || e.TakeWork? || e.TakeReady? || e.TakeDispatch? || e.Pick?
             || e.Answered? || e.Interrupt? || e.TakeIo? || e.Touch?
    ensures Known(Observe(w, e))
  {
    hide Inv, RemoveAt;
    Attending(w.k);
  }

  lemma KnownStep(w: Watch, e: Event)
    requires Inv(w.k) && Known(w) && Enabled(w.k, e) && Steady(w.k, e)
    ensures Known(Observe(w, e))
  {
    hide Inv, Known, Step, Enabled, Steady, Suspends;
    match e
    case Arrive(size) =>
      forall p | p in w.k.pcbs ensures p < w.k.nextPid { PidBelow(w.k, p); }
      KnownArrive(w, size);
    case Admit => KnownAdmit(w);
    case Requeue => KnownRequeue(w);
    case IoDone => KnownIoDone(w);
    case Fire(i, waited) => KnownFire(w, i, waited);
    case Release => KnownRelease(w);
    case Send => KnownSend(w);
    case _ => KnownRest(w, e);
  }

  // ---------------------------------------------------------------- the last to wait

  /** What LastBlock depends on stays, or gets easier. */
  lemma SameBlock(k: Kernel, k': Kernel, p: nat)
    requires LastBlock(k, p) && k'.device + k'.ioQ == k.device + k.ioQ
    requires p in k'.pcbs && p in k'.blockedQ ==>
               && p in k.pcbs && p in k.blockedQ && k'.pcbs[p].blocks == k.pcbs[p].blocks
               && k'.pcbs[p].executed == k.pcbs[p].executed
    requires k'.timers == k.timers && k'.srt == k.srt
    ensures LastBlock(k', p)
  {
  }

  /** A timer's removal leaves the last timer last, or nothing of the process. */
  lemma FireBlock(k: Kernel, i: nat, waited: nat, p: nat)
    requires LastBlock(k, p) && i < |k.timers|
    ensures LastBlock(DoFire(k, i, waited), p)
  {
    hide Without, LetThrough;
    WithoutSub(k.blockedQ, k.timers[i].pid);
    var k' := DoFire(k, i, waited);
    assert forall j | 0 <= j < |k'.timers| :: k'.timers[j] == k.timers[if j < i then j else j + 1];
  }

  lemma IoBlock(k: Kernel, p: nat)
    requires Inv(k) && LastBlock(k, p) && k.device != [] && k.device[0] in k.pcbs
    ensures LastBlock(DoIoDone(k), p)
  {
    hide Without, Inv;
    var x := k.device[0];
    var k' := DoIoDone(k);
    WithoutSub(k.blockedQ, x);
    BlockedOut(k, x);
    assert (k.device + k.ioQ)[1..] == k.device[1..] + k.ioQ;
  }

  /** Whoever the device is done with leaves BLOCKED. */
  lemma BlockedOut(k: Kernel, x: nat)
    requires Inv(k) && x in k.pcbs
    ensures x !in Without(k.blockedQ, x)
    ensures k.pcbs[x].tag != BLOCKED ==> x !in k.blockedQ
  {
    hide OnePlace, Tokens, Signals, Tables, TimersOk, Without;
    WithoutIs(k.blockedQ, x);
    hide NoDup;
  }

  /** The process just answered for is the last to wait, and its timer the last one. */
  lemma RequeueBlock(k: Kernel)
    requires Inv(k) && Enabled(k, Requeue) && Steady(k, Requeue)
    ensures LastBlock(Step(k, Requeue), k.flight[0])
  {
    hide Inv;
    var p := k.flight[0];
    NotBlocked(k, p);
    TimersOf(k, p);
    assert forall i | 0 <= i < |k.timers| :: k.timers[i] in k.timers;
  }

  lemma TimersOf(k: Kernel, p: nat)
    requires Inv(k) && p in k.pcbs
    ensures forall t | t in k.timers && t.pid == p :: t.block <= k.pcbs[p].blocks
  {
    hide OnePlace, Tagged, Tokens, Signals, Tables;
  }

  /** The process that ran last stays the last to wait until another one runs. */
  lemma BlockStep(w: Watch, e: Event)
    requires Inv(w.k) && WatchOk(w) && Enabled(w.k, e) && Steady(w.k, e)
    ensures Observe(w, e).last >= 0 ==> LastBlock(Step(w.k, e), Observe(w, e).last)
  {
    hide Inv, Without, LetThrough, RemoveAt, LastBlock, LastWaiting, Guarded;
    if e.Send? {
      NotBlocked(w.k, w.k.execQ[0]);
      SentBlock(w.k);
    } else if w.last >= 0 {
      if e.Fire? {
        FireBlock(w.k, e.i, e.waited, w.last);
      } else if e.IoDone? {
        IoBlock(w.k, w.last);
      } else if e.Requeue? {
        RequeueBlock(w.k);
      } else if e.Arrive? {
        ArriveBlock(w.k, e.size, w.last);
      } else if e.Release? {
        ReleaseBlock(w.k, w.last);
      } else if e.Admit? {
        AdmitBlock(w.k, w.last);
      } else {
        RestBlock(w.k, e, w.last);
      }
    }
  }

  lemma SentBlock(k: Kernel)
    requires Enabled(k, Send) && Steady(k, Send) && k.execQ[0] !in k.blockedQ
    ensures LastBlock(Step(k, Send), k.execQ[0])
  {
  }

  lemma ArriveBlock(k: Kernel, size: nat, p: nat)
    requires Inv(k) && LastBlock(k, p)
    ensures LastBlock(DoArrive(k, size), p)
  {
    BlockedOld(k);
    hide Inv;
  }

  lemma BlockedOld(k: Kernel)
    requires Inv(k)
    ensures k.nextPid !in k.blockedQ
  {
    FreshPid(k);
    hide OnePlace, Tokens, Signals, Tables, TimersOk;
  }

  lemma ReleaseBlock(k: Kernel, p: nat)
    requires LastBlock(k, p) && Enabled(k, Release) && Steady(k, Release)
    ensures LastBlock(DoRelease(k), p)
  {
  }

  lemma AdmitBlock(k: Kernel, p: nat)
    requires LastBlock(k, p) && Enabled(k, Admit) && Steady(k, Admit)
    ensures LastBlock(Step(k, Admit), p)
  {
    SameBlock(k, Step(k, Admit), p);
  }

  lemma RestBlock(k: Kernel, e: Event, p: nat)
    requires LastBlock(k, p) && Enabled(k, e) && Steady(k, e)
    requires || e.TakeWork? || e.TakeReady? || e.TakeDispatch? || e.Pick?
             || e.Answered? || e.Interrupt? || e.TakeIo? || e.Touch?
    ensures LastBlock(Step(k, e), p)
  {
    hide RemoveAt;
    if e.TakeIo? {
      assert k.device + k.ioQ == [k.ioQ[0]] + k.ioQ[1..];
    }
    SameBlock(k, Step(k, e), p);
    hide LastBlock;
  }

  // ---------------------------------------------------------------- estimates at alfa 0

  lemma SmoothNothing(last: real, estimate: real)
    ensures Srt.Smooth(0.0, last, estimate) == estimate
  {
  }

  /** Only a process that has run is charged for it, and only arrivals are new. */
  lemma EstimatesStay(k: Kernel, e: Event, p: nat)
    requires Enabled(k, e) && Steady(k, e) && !e.Requeue? && !e.Arrive? && p in Step(k, e).pcbs
    ensures p in k.pcbs
    ensures Step(k, e).pcbs[p].estimate == k.pcbs[p].estimate && Step(k, e).pcbs[p].executed == k.pcbs[p].executed
  {
    hide DoFire, DoIoDone, HandOff, FromNew, RemoveAt, Elects;
    if e.Fire? {
      FireEstimates(k, e.i, e.waited, p);
    } else if e.IoDone? {
      IoEstimates(k, p);
    } else if e.Admit? {
      AdmitEstimates(k, p);
    }
  }

  lemma FireEstimates(k: Kernel, i: nat, waited: nat, p: nat)
    requires i < |k.timers|
    ensures var k' := DoFire(k, i, waited);
            && k'.pcbs.Keys == k.pcbs.Keys
            && (p in k.pcbs ==>
                  k'.pcbs[p].estimate == k.pcbs[p].estimate && k'.pcbs[p].executed == k.pcbs[p].executed)
  {
    hide Without, LetThrough;
  }

  lemma IoEstimates(k: Kernel, p: nat)
    requires |k.device| > 0 && k.device[0] in k.pcbs
    ensures var k' := DoIoDone(k);
            && k'.pcbs.Keys == k.pcbs.Keys
            && (p in k.pcbs ==>
                  k'.pcbs[p].estimate == k.pcbs[p].estimate && k'.pcbs[p].executed == k.pcbs[p].executed)
  {
    hide Without;
  }

  lemma AdmitEstimates(k: Kernel, p: nat)
    requires Enabled(k, Admit) && Steady(k, Admit)
    ensures var k' := Step(k, Admit);
            && k'.pcbs.Keys == k.pcbs.Keys
            && (p in k.pcbs ==>
                  k'.pcbs[p].estimate == k.pcbs[p].estimate && k'.pcbs[p].executed == k.pcbs[p].executed)
  {
  }

  lemma EvenRequeue(k: Kernel)
    requires Even(k) && Enabled(k, Requeue) && Steady(k, Requeue)
    ensures Even(Step(k, Requeue))
  {
    hide Srt.Smooth;
    var p := k.flight[0];
    SmoothNothing(k.pcbs[p].executed + k.ran as real, k.pcbs[p].estimate);
  }

  lemma EvenStep(k: Kernel, e: Event)
    requires Inv(k) && Even(k) && Enabled(k, e) && Steady(k, e)
    ensures Even(Step(k, e))
  {
    hide Inv, Step, Enabled, Steady;
    if e.Requeue? {
      EvenRequeue(k);
    } else if e.Arrive? {
      EvenArrive(k, e.size);
    } else {
      StepFramed(k, e, 0);
      forall p | p in Step(k, e).pcbs
        ensures p in k.pcbs && Step(k, e).pcbs[p].estimate == k.pcbs[p].estimate
                && Step(k, e).pcbs[p].executed == k.pcbs[p].executed
      {
        EstimatesStay(k, e, p);
      }
    }
  }

  lemma EvenArrive(k: Kernel, size: nat)
    requires Even(k)
    ensures Even(Step(k, Arrive(size)))
  {
  }

  // ---------------------------------------------------------------- who is ahead

  lemma Ahead(k: Kernel, c: nat, p: nat)
    requires LastWaiting(k, p) && c in k.device + k.ioQ && c != p
    ensures Before(Line(k), c, p)
  {
    var w := k.device + k.ioQ;
    var i :| 0 <= i < |w| && w[i] == c;
    var m := |Line(k)| - |w|;
    assert Line(k)[m + i] == c && Line(k)[m + |w| - 1] == p;
  }

  /** No step before an I/O is over changes who is ahead of a process that has not run
      since its last block. */
  lemma LineStep(k: Kernel, e: Event, a: int, p: nat)
    requires Inv(k) && Lined(k) && Even(k) && Rested(k, p) && p in k.pcbs
    requires Enabled(k, e) && Steady(k, e) && Before(Line(k), a, p)
    requires !e.Answered? && !e.Requeue? && !e.IoDone?
    ensures Before(Line(Step(k, e)), a, p)
  {
    hide Inv, Before, Without, LetThrough, RemoveAt, Line, Even, Elects;
    match e
    case Admit => AdmitLine(k, a, p);
    case Pick(i) => if k.srt { ElectLine(k, i, a, p); } else { PickLine(k, i); }
    case TakeIo => TakeIoLine(k);
    case Fire(i, waited) => FireLine(k, i, waited);
    case _ => RestLine(k, e);
  }

  lemma PickLine(k: Kernel, i: nat)
    requires k.readyQ != [] && !k.srt && Elects(k, i)
    ensures Line(DoPick(k, i)) == Line(k)
  {
    assert RemoveAt(k.readyQ, 0) == k.readyQ[1..];
    hide RemoveAt;
    FrontMoves(k.execQ, k.readyQ);
  }

  /** With equal estimates SRT takes nobody who has not run before somebody queued ahead. */
  lemma ElectLine(k: Kernel, i: nat, a: int, p: nat)
    requires Inv(k) && k.srt && k.alfa == 0.0 && Even(k) && Rested(k, p) && p in k.pcbs
    requires k.short == Choosing && i < |k.readyQ| && Elects(k, i) && Before(Line(k), a, p)
    ensures Before(Line(DoPick(k, i)), a, p)
  {
    hide Inv, Before, Elects, Even;
    hide Line, RemoveAt;
    NobodyExecutes(k);
    ElectedOther(k, i, a, p);
    LineParts(k, i);
    AdvanceKeeps([], k.readyQ[..i], k.readyQ[i], k.readyQ[i + 1..] + BehindReady(k), a, p);
  }

  lemma ElectedOther(k: Kernel, i: nat, a: int, p: nat)
    requires Inv(k) && k.srt && k.alfa == 0.0 && Even(k) && Rested(k, p) && p in k.pcbs
    requires k.execQ == [] && i < |k.readyQ| && Elects(k, i) && Before(Line(k), a, p)
    ensures k.readyQ[i] != p
  {
    hide Inv, Before, Elects, Even, Line;
    if k.readyQ[i] == p {
      ElectedFirst(k, i);
      AheadInReady(k, i, a);
    }
  }

  function BehindReady(k: Kernel): seq<nat> {
    k.susReadyQ + (k.device + k.ioQ)
  }

  lemma LineParts(k: Kernel, i: nat)
    requires i < |k.readyQ| && k.execQ == []
    ensures var front, x, back := k.readyQ[..i], k.readyQ[i], k.readyQ[i + 1..] + BehindReady(k);
            && Line(k) == [] + front + ([x] + back)
            && Line(DoPick(k, i)) == [] + [x] + front + back
  {
  }

  lemma NobodyExecutes(k: Kernel)
    requires Inv(k) && k.short == Choosing
    ensures k.execQ == []
  {
    hide OnePlace, Tagged, Tokens, Tables, TimersOk;
  }

  /** Ahead of a ready process are only those queued before it. */
  lemma AheadInReady(k: Kernel, i: nat, a: int)
    requires Inv(k) && k.execQ == [] && i < |k.readyQ| && Before(Line(k), a, k.readyQ[i])
    ensures exists m :: 0 <= m < i && k.readyQ[m] == a
  {
    hide Inv;
    ReadyDistinct(k);
    var p := k.readyQ[i];
    ReadyOnly(k, p);
    var line := Line(k);
    forall x | |k.readyQ| <= x < |line| ensures line[x] in BehindReady(k) {
      assert line[x] == BehindReady(k)[x - |k.readyQ|];
    }
    var m, j :| 0 <= m < j < |line| && line[m] == a && line[j] == p;
    assert k.readyQ[j] == p;
    assert k.readyQ[m] == a;
  }

  lemma ReadyOnly(k: Kernel, p: nat)
    requires Inv(k) && p in k.readyQ
    ensures p !in BehindReady(k)
  {
    hide Tagged, Tokens, Signals, Tables, TimersOk;
    OnceOnly(k, p);
    hide OnePlace;
  }

  lemma ElectedFirst(k: Kernel, i: nat)
    requires Inv(k) && k.srt && k.alfa == 0.0 && Even(k) && i < |k.readyQ| && Elects(k, i)
    requires Rested(k, k.readyQ[i])
    ensures i == 0
  {
    hide OnePlace, Tokens, Signals, Tables, TimersOk;
    var q := ReadyBursts(k);
    assert k.readyQ[0] in k.readyQ && k.readyQ[i] in k.readyQ;
    hide Tagged;
    assert Srt.Remaining(q[0]) <= k.initial == Srt.Remaining(q[i]);
  }

  lemma FrontMoves(a: seq<nat>, b: seq<nat>)
    requires b != []
    ensures a + [b[0]] + b[1..] == a + b
  {
  }

  lemma TakeIoLine(k: Kernel)
    requires Enabled(k, TakeIo) && Steady(k, TakeIo)
    ensures Line(DoTakeIo(k)) == Line(k)
  {
    assert k.device + k.ioQ == [k.ioQ[0]] + k.ioQ[1..];
  }

  lemma FireLine(k: Kernel, i: nat, waited: nat)
    requires i < |k.timers|
    ensures Line(DoFire(k, i, waited)) == Line(k)
  {
    hide Without, LetThrough;
  }

  lemma RestLine(k: Kernel, e: Event)
    requires Enabled(k, e) && Steady(k, e)
    requires || e.Arrive? || e.TakeWork? || e.TakeReady? || e.TakeDispatch?
             || e.Send? || e.Interrupt? || e.Touch? || e.Release?
    ensures Line(Step(k, e)) == Line(k)
  {
  }

  lemma AdmitLine(k: Kernel, a: int, p: nat)
    requires Enabled(k, Admit) && Steady(k, Admit) && Before(Line(k), a, p)
    ensures Before(Line(Step(k, Admit)), a, p)
  {
    hide Before;
    var k' := Step(k, Admit);
    if k.susReadyQ != [] {
      assert k.susReadyQ == [k.susReadyQ[0]] + k.susReadyQ[1..];
      assert Line(k') == Line(k);
    } else if k'.readyQ != k.readyQ {
      var front, back := k.execQ + k.readyQ, k.susReadyQ + (k.device + k.ioQ);
      assert Line(k) == front + back;
      assert Line(k') == front + [k.newQ[0]] + back;
      InsertKeeps(front, k.newQ[0], back, a, p);
    } else {
      assert Line(k') == Line(k);
    }
  }

  lemma IoLine(k: Kernel, a: int, p: nat)
    requires |k.device| == 1 && k.device[0] in k.pcbs
    requires k.pcbs[k.device[0]].tag in {BLOCKED, SUSPENDED_BLOCKED}
    requires p == k.device[0] ==> k.pcbs[p].tag == SUSPENDED_BLOCKED
    requires Before(Line(k), a, p)
    ensures Before(Line(DoIoDone(k)), a, p)
  {
    hide Before, Without;
    var x := k.device[0];
    var k' := DoIoDone(k);
    if k.pcbs[x].tag == BLOCKED {
      var front := k.execQ + k.readyQ;
      assert Line(k) == front + k.susReadyQ + ([x] + k.ioQ);
      assert Line(k') == front + [x] + k.susReadyQ + k.ioQ;
      AdvanceKeeps(front, k.susReadyQ, x, k.ioQ, a, p);
    } else {
      assert Line(k') == Line(k);
    }
  }

  lemma DeviceHolds(k: Kernel)
    requires Inv(k) && k.device != []
    ensures |k.device| == 1 && k.device[0] in k.pcbs
    ensures k.pcbs[k.device[0]].tag in {BLOCKED, SUSPENDED_BLOCKED}
    ensures k.device[0] !in k.ioQ
  {
    hide Tokens, Tables, TimersOk;
    OnceOnly(k, k.device[0]);
    hide OnePlace;
  }

  lemma IoDoneLeaves(k: Kernel)
    requires |k.device| == 1 && k.device[0] in k.pcbs
    ensures var k' := DoIoDone(k);
            && k'.device + k'.ioQ == k.ioQ && k'.lastSuspended == k.lastSuspended && k'.srt == k.srt
            && forall p | p in k.pcbs && p != k.device[0] :: p in k'.pcbs && k'.pcbs[p] == k.pcbs[p]
    ensures k.device + k.ioQ == [k.device[0]] + k.ioQ
  {
    hide Without;
    assert k.device == [k.device[0]] && k.device[1..] == [];
    var k' := DoIoDone(k);
    assert k'.device == [] && k'.ioQ == k.ioQ;
  }

  lemma IoFollows(k: Kernel, p: nat)
    requires Inv(k) && Follows(k, p) && p in k.pcbs && k.device != []
    ensures k.device[0] in k.pcbs && Follows(DoIoDone(k), p)
  {
    hide Inv, Before, DoIoDone, Line;
    DeviceHolds(k);
    IoEstimates(k, p);
    IoDoneLeaves(k);
    var x := k.device[0];
    assert ([x] + k.ioQ)[|k.ioQ|] == if k.ioQ == [] then x else k.ioQ[|k.ioQ| - 1];
    if k.lastSuspended != p {
      IoLine(k, k.lastSuspended, p);
    }
  }

  /** A process waiting for I/O while suspended keeps its tag until the device is done. */
  lemma WaitingKeepsTag(k: Kernel, e: Event, p: nat)
    requires Inv(k) && Enabled(k, e) && Steady(k, e) && p in k.device + k.ioQ
    requires p in k.pcbs && k.pcbs[p].tag == SUSPENDED_BLOCKED && !e.IoDone? && !e.Requeue?
    ensures p in Step(k, e).pcbs && Step(k, e).pcbs[p].tag == SUSPENDED_BLOCKED
  {
    hide Inv, DoFire, HandOff, RemoveAt;
    PidBelow(k, p);
    WaitingTags(k, p);
    if e.Fire? {
      FireKeepsTag(k, e.i, e.waited, p);
    } else if e.Admit? && k.susReadyQ != [] {
      HandOffKeepsTag(k, p);
    }
  }

  lemma WaitingTags(k: Kernel, p: nat)
    requires Inv(k) && p in k.pcbs && k.pcbs[p].tag == SUSPENDED_BLOCKED
    ensures p !in k.blockedQ && p !in k.susReadyQ && p !in k.exitQ
  {
    hide OnePlace, Tokens, Signals, Tables, TimersOk, NoDup;
  }

  lemma FireKeepsTag(k: Kernel, i: nat, waited: nat, p: nat)
    requires i < |k.timers| && p in k.pcbs && p !in k.blockedQ
    ensures p in DoFire(k, i, waited).pcbs && DoFire(k, i, waited).pcbs[p] == k.pcbs[p]
  {
    hide Without, LetThrough;
  }

  lemma HandOffKeepsTag(k: Kernel, p: nat)
    requires k.susReadyQ != [] && k.susReadyQ[0] in k.pcbs && k.grade > 0 && p in k.pcbs && p !in k.susReadyQ
    ensures p in HandOff(k).pcbs && HandOff(k).pcbs[p] == k.pcbs[p]
  {
  }

  lemma RestFollows(k: Kernel, e: Event, p: nat)
    requires Inv(k) && Lined(k) && Even(k) && Follows(k, p) && p in k.pcbs && Enabled(k, e) && Steady(k, e)
    requires !e.Answered? && !e.Requeue? && !e.IoDone? && !e.Fire?
    ensures Follows(Step(k, e), p)
  {
    hide Inv, Before, Line, RemoveAt, Even, Elects;
    StaysRested(k, e, p);
    StepFramed(k, e, if e.Arrive? then e.size else 0);
    if k.lastSuspended != p {
      LineStep(k, e, k.lastSuspended, p);
    }
    SameWaiting(k, e);
    if p in k.device + k.ioQ {
      WaitingKeepsTag(k, e, p);
    }
    hide Step;
  }

  lemma StaysRested(k: Kernel, e: Event, p: nat)
    requires Inv(k) && Rested(k, p) && p in k.pcbs && Enabled(k, e) && Steady(k, e) && !e.Requeue?
    ensures Rested(Step(k, e), p)
  {
    hide Inv, Step, Enabled, Steady;
    StepFramed(k, e, if e.Arrive? then e.size else 0);
    if e.Arrive? {
      PidBelow(k, p);
      OthersStay(k, e.size, p);
    } else if p in Step(k, e).pcbs {
      EstimatesStay(k, e, p);
    }
  }

  lemma OthersStay(k: Kernel, size: nat, p: nat)
    requires p in k.pcbs && p < k.nextPid
    ensures p in Step(k, Arrive(size)).pcbs && Step(k, Arrive(size)).pcbs[p] == k.pcbs[p]
  {
  }

  lemma SameWaiting(k: Kernel, e: Event)
    requires Enabled(k, e) && Steady(k, e) && !e.Requeue? && !e.IoDone? && !e.Fire?
    ensures var k' := Step(k, e);
            k'.device + k'.ioQ == k.device + k.ioQ && k'.lastSuspended == k.lastSuspended
  {
    hide RemoveAt;
    if e.TakeIo? {
      TakeIoWaiting(k);
    }
  }

  lemma TakeIoWaiting(k: Kernel)
    requires k.device == [] && k.ioQ != []
    ensures [k.ioQ[0]] + k.ioQ[1..] == k.device + k.ioQ
  {
  }

  /** Whoever is suspended next is ahead of p, who is the last to wait. */
  lemma FireFollows(k: Kernel, i: nat, waited: nat, p: nat)
    requires Inv(k) && Follows(k, p) && i < |k.timers| && p in k.pcbs
    ensures Follows(DoFire(k, i, waited), p)
  {
    hide Inv, Before, Line, Without, LetThrough;
    FireLine(k, i, waited);
    if p in k.device + k.ioQ {
      WaitingKeepsTag(k, Fire(i, waited), p);
    }
    if Suspends(k, i, waited) {
      BlockedIsWaiting(k, k.timers[i].pid);
      if k.timers[i].pid != p {
        Ahead(k, k.timers[i].pid, p);
      }
    }
  }

  lemma BlockedIsWaiting(k: Kernel, c: nat)
    requires Inv(k) && c in k.blockedQ
    ensures c in k.pcbs && k.pcbs[c].tag == BLOCKED && c in k.device + k.ioQ
  {
    hide Tokens, Signals, Tables, TimersOk;
    BlockedWaits(k, c);
    hide OnePlace, NoDup;
  }

  // ---------------------------------------------------------------- guarded

  /** With one token nobody else is in BLOCKED. */
  lemma OnlyBlocked(k: Kernel, p: nat)
    requires Inv(k) && k.degree <= 1 && p in k.blockedQ
    ensures Without(k.blockedQ, p) == []
  {
    hide OnePlace, Signals, Tables, TimersOk, Without;
    WithoutIs(k.blockedQ, p);
    var q := Without(k.blockedQ, p);
    if q != [] {
      assert q[0] in k.blockedQ && q[0] != p;
      assert {p, q[0]} <= BlockedSet(k);
      Arith.Subsets({p, q[0]}, BlockedSet(k));
    }
  }

  lemma FireGuards(w: Watch, e: Event)
    requires Inv(w.k) && WatchOk(w) && Enabled(w.k, e) && SuspendsLast(w, e) && InTurn(w.k, e)
    ensures Guarded(Step(w.k, e), w.last)
  {
    hide Inv, Without, LetThrough, Known, Follows;
    var k, p := w.k, w.last;
    var k' := Step(k, e);
    assert k'.lastSuspended == p && k'.srt == k.srt && k'.alfa == k.alfa;
    if Lined(k) {
      SuspendedFollows(w, e);
    } else if k.degree <= 1 {
      OnlyBlocked(k, p);
    } else {
      assert |k.timers| == 1;
    }
  }

  lemma SuspendedFollows(w: Watch, e: Event)
    requires Inv(w.k) && WatchOk(w) && Enabled(w.k, e) && SuspendsLast(w, e)
    ensures Follows(Step(w.k, e), w.last)
  {
    hide Inv, Without, LetThrough, Known, Guarded, Before;
  }

  lemma QuietGuards(k: Kernel, e: Event, p: nat)
    requires !Lined(k) && Guarded(k, p) && Enabled(k, e) && Steady(k, e)
    requires !e.Requeue?
    ensures Guarded(Step(k, e), p)
  {
    hide Follows, RemoveAt, DoFire, DoIoDone;
    if e.Fire? {
      FireQuiet(k, e.i, e.waited);
    } else if e.IoDone? {
      IoQuiet(k);
    }
  }

  lemma FireQuiet(k: Kernel, i: nat, waited: nat)
    requires i < |k.timers| && k.blockedQ == []
    ensures var k' := DoFire(k, i, waited);
            k'.blockedQ == [] && k'.lastSuspended == k.lastSuspended && k'.srt == k.srt
            && k'.alfa == k.alfa
  {
    hide LetThrough;
  }

  lemma IoQuiet(k: Kernel)
    requires |k.device| > 0 && k.device[0] in k.pcbs
    ensures var k' := DoIoDone(k);
            && k'.timers == k.timers && k'.lastSuspended == k.lastSuspended
            && k'.srt == k.srt && k'.alfa == k.alfa
            && (k.blockedQ == [] ==> k'.blockedQ == [])
  {
  }

  lemma GuardedKeeps(w: Watch, e: Event)
    requires Inv(w.k) && WatchOk(w) && Enabled(w.k, e) && Steady(w.k, e)
    requires w.stale && w.last >= 0 && w.last in w.k.pcbs && !e.Send?
    ensures Guarded(Step(w.k, e), w.last)
  {
    hide Inv, Without, LetThrough, RemoveAt, Follows;
    var k, p := w.k, w.last;
    if !Lined(k) {
      QuietGuards(k, e, p);
    } else if e.IoDone? {
      IoFollows(k, p);
    } else if e.Fire? {
      FireFollows(k, e.i, e.waited, p);
    } else {
      RestFollows(k, e, p);
    }
  }

  lemma StillLive(w: Watch, e: Event)
    requires Known(w) && Enabled(w.k, e) && Steady(w.k, e)
    ensures w.last >= 0 && w.last in Step(w.k, e).pcbs ==> w.last in w.k.pcbs
  {
    hide Without, LetThrough, RemoveAt;
  }

  // ---------------------------------------------------------------- the protocol

  /** One step of the kernel keeps the protocol, timers firing in order where that matters. */
  lemma WatchStep(w: Watch, e: Event)
    requires Inv(w.k) && WatchOk(w) && Enabled(w.k, e) && Steady(w.k, e) && InTurn(w.k, e)
    ensures WatchOk(Observe(w, e))
  {
    hide Inv, Known, LastBlock, Guarded, Step, Enabled, Steady, InTurn, SuspendsLast;
    KnownStep(w, e);
    EvenStep(w.k, e);
    BlockStep(w, e);
    StillLive(w, e);
    if SuspendsLast(w, e) {
      FireGuards(w, e);
    } else if !e.Send? && w.stale && w.last >= 0 && w.last in w.k.pcbs {
      GuardedKeeps(w, e);
    }
  }

  /** Whoever is sent was at the front of the line, so nobody was ahead. */
  lemma WatchSound(w: Watch)
    requires Inv(w.k) && WatchOk(w)
    ensures Sound(w)
  {
    hide Inv, LastBlock;
    if Enabled(w.k, Send) && w.k.execQ != [] && w.k.execQ[0] == w.last && w.stale {
      NotBlocked(w.k, w.k.execQ[0]);
      if w.k.lastSuspended != w.last {
        FrontOfLine(w.k, w.k.lastSuspended);
      }
    }
  }

  lemma FrontOfLine(k: Kernel, a: int)
    requires Inv(k) && k.execQ != []
    ensures !Before(Line(k), a, k.execQ[0])
  {
    hide Tagged, Tokens, Tables, TimersOk;
    var p := k.execQ[0];
    OnceOnly(k, p);
    hide OnePlace;
    assert k.execQ == [p];
    hide Signals;
    var rest := k.readyQ + k.susReadyQ + (k.device + k.ioQ);
    assert Line(k) == [p] + rest;
    hide Line;
    assert p !in rest;
    forall j | 0 < j < |Line(k)| ensures Line(k)[j] != p {
      assert Line(k)[j] == rest[j - 1] && rest[j - 1] in rest;
    }
  }

  // ---------------------------------------------------------------- runs

  ghost function Watched(w: Watch, events: seq<Event>): Watch
    requires CanRun(w.k, events)
    decreases |events|
  {
    if events == [] then w else Watched(Observe(w, events[0]), events[1..])
  }

  /** Before anything has happened. */
  function Unwatched(degree: nat, slots: nat, limit: nat, srt: bool, alfa: real, initial: real): Watch {
    Watch(Init(degree, slots, limit, srt, alfa, initial), -1, false)
  }

  predicate InOrder(events: seq<Event>) {
    forall e | e in events && e.Fire? :: e.i == 0
  }

  lemma {:induction false} WatchRun(w: Watch, events: seq<Event>)
    requires Inv(w.k) && WatchOk(w) && CanRun(w.k, events) && (AnyOrder(w.k) || InOrder(events))
    ensures Sound(Watched(w, events))
    decreases |events|
  {
    hide Inv, WatchOk, Sound, Step, Enabled, Steady;
    if events == [] {
      WatchSound(w);
    } else {
      var e := events[0];
      assert e in events;
      WatchStep(w, e);
      StepInv(w.k, e);
      StepFramed(w.k, e, if e.Arrive? then e.size else 0);
      WatchRun(Observe(w, e), events[1..]);
    }
  }

  /** The flush protocol is enough when timers fire in the order they were started, and
      under FIFO, under SRT with alfa 0, or with a single process at a time in any order. */
  lemma FlushEnough(degree: nat, slots: nat, limit: nat, srt: bool, alfa: real, initial: real, events: seq<Event>)
    requires degree <= slots && CanRun(Init(degree, slots, limit, srt, alfa, initial), events)
    requires InOrder(events) || !srt || degree <= 1 || alfa == 0.0
    ensures Sound(Watched(Unwatched(degree, slots, limit, srt, alfa, initial), events))
  {
    InitInv(degree, slots, limit, srt, alfa, initial);
    hide Inv, Sound;
    WatchRun(Unwatched(degree, slots, limit, srt, alfa, initial), events);
  }
}
