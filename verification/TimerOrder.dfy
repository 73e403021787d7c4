/** Exactly when the flush protocol is enough.

    `ultimoPIDSuspendido` remembers one process.  Under SRT, with two processes at a time,
    the timers of two blocked processes that fire in the wrong order suspend the one that ran
    last and forget it; chosen before the other because its burst was shorter, it is sent to
    the CPU without a flush.  With alfa 0 bursts do not change estimates, so the other one is
    chosen first; then, as in every other configuration, no order of timers does any harm.
 */
module TimerOrder {
  import Srt
  import opened Queues
  import opened Scheduler
  import opened FlushProtocol

  /** Degree of multiprogramming, slots of memory, limit of a block, smoothing factor and
      initial estimate; the algorithm is SRT. */
  datatype Setup = Setup(degree: nat, slots: nat, limit: nat, alfa: real, initial: real)

  predicate Pair(c: Setup) {
    2 <= c.degree <= c.slots && c.alfa != 0.0
  }

  function Begin(c: Setup): Watch {
    Unwatched(c.degree, c.slots, c.limit, true, c.alfa, c.initial)
  }

  ghost predicate Reachable(w: Watch, c: Setup) {
    exists events ::
      && CanRun(Begin(c).k, events)
      && Watched(Begin(c), events) == w
  }

  lemma {:induction false} RunAppend(w: Watch, events: seq<Event>, e: Event)
    requires CanRun(w.k, events) && Enabled(Watched(w, events).k, e) && Steady(Watched(w, events).k, e)
    ensures CanRun(w.k, events + [e]) && Watched(w, events + [e]) == Observe(Watched(w, events), e)
    decreases |events|
  {
    hide Step, Enabled, Steady, SuspendsLast;
    if events == [] {
      assert events + [e] == [e];
      assert CanRun(Step(w.k, e), []);
    } else {
      assert (events + [e])[1..] == events[1..] + [e];
      RunAppend(Observe(w, events[0]), events[1..], e);
    }
  }

  lemma ReachStep(w: Watch, e: Event, c: Setup)
    requires Reachable(w, c) && Enabled(w.k, e) && Steady(w.k, e)
    ensures Reachable(Observe(w, e), c)
  {
    hide Observe, Enabled, Steady;
    var w0 := Begin(c);
    var events :| CanRun(w0.k, events) && Watched(w0, events) == w;
    RunAppend(w0, events, e);
  }

  /** The two bursts, in milliseconds: the first process's makes its estimate the larger one. */
  function FirstRan(c: Setup): nat {
    if c.alfa > 0.0 then 1 else 0
  }

  function SecondRan(c: Setup): nat {
    1 - FirstRan(c)
  }

  function Fresh(c: Setup, table: nat): Pcb {
    Pcb(4, NEW, table, 0, 0, c.initial, 0.0, 0.0)
  }

  /** A process that has run once, for so long, and blocked. */
  function RanOnce(c: Setup, tag: Tag, table: nat, ioTime: nat, ran: nat): Pcb {
    Pcb(4, tag, table, 1, ioTime, Srt.Smooth(c.alfa, ran as real, c.initial), ran as real, 0.0)
  }

  lemma SecondEstimateLess(c: Setup)
    requires c.alfa != 0.0
    ensures Srt.Smooth(c.alfa, SecondRan(c) as real, c.initial) < Srt.Smooth(c.alfa, FirstRan(c) as real, c.initial)
  {
    assert c.alfa * 1.0 == c.alfa && c.alfa * 0.0 == 0.0;
  }

  /** Two processes admitted and ready. */
  function BothReady(c: Setup): Kernel
    requires Pair(c)
  {
    Begin(c).k.(
      pcbs := map[1 := Fresh(c, 1), 2 := Fresh(c, 2)], nextPid := 3,
      readyQ := [1, 2], semReady := 2, grade := c.degree - 2, preempt := true,
      mem := Mem({1, 2}, {}, 3))
  }

  /** One of them admitted, the other one new. */
  function FirstReady(c: Setup): Kernel
    requires Pair(c)
  {
    Begin(c).k.(
      pcbs := map[1 := Fresh(c, 1), 2 := Fresh(c, 0)], nextPid := 3,
      newQ := [2], work := 1, readyQ := [1], semReady := 1, grade := c.degree - 1, preempt := true,
      mem := Mem({1}, {}, 2))
  }

  lemma ReachFirstReady(c: Setup)
    requires Pair(c)
    ensures Reachable(Watch(FirstReady(c), -1, false), c)
  {
    hide Reachable, Srt.Smooth;
    var w := Begin(c);
    StartReachable(c);
    ReachStep(w, Arrive(4), c);
    w := Observe(w, Arrive(4));
    ReachStep(w, Arrive(4), c);
    w := Observe(w, Arrive(4));
    ReachStep(w, TakeWork, c);
    w := Observe(w, TakeWork);
    ReachStep(w, Admit, c);
    w := Observe(w, Admit);
    assert w.k.pcbs == FirstReady(c).pcbs;
    assert w == Watch(FirstReady(c), -1, false);
  }

  lemma ReachBothReady(c: Setup)
    requires Pair(c)
    ensures Reachable(Watch(BothReady(c), -1, false), c)
  {
    hide Reachable, Srt.Smooth;
    ReachFirstReady(c);
    var w := Watch(FirstReady(c), -1, false);
    ReachStep(w, TakeWork, c);
    w := Observe(w, TakeWork);
    ReachStep(w, Admit, c);
    w := Observe(w, Admit);
    assert w.k.pcbs == BothReady(c).pcbs;
    assert w == Watch(BothReady(c), -1, false);
  }

  lemma StartReachable(c: Setup)
    ensures Reachable(Begin(c), c)
  {
    var w := Begin(c);
    assert CanRun(w.k, []) && Watched(w, []) == w;
  }

  /** Process 1 is chosen. */
  function FirstChosen(c: Setup): Kernel
    requires Pair(c)
  {
    BothReady(c).(readyQ := [2], semReady := 1, preempt := false, execQ := [1], semExec := 1, dispatch := 0)
  }

  lemma FirstGone()
    ensures RemoveAt([1, 2], 0) == [2]
  {
    assert [1, 2][..0] == [] && [1, 2][1..] == [2];
  }

  function Choosing1(c: Setup): Kernel
    requires Pair(c)
  {
    BothReady(c).(semReady := 1, preempt := false, dispatch := 0, short := Choosing)
  }

  lemma ReachChoosing1(c: Setup)
    requires Pair(c)
    ensures Reachable(Watch(Choosing1(c), -1, false), c)
  {
    hide Reachable, Srt.Smooth;
    var w := Watch(BothReady(c), -1, false);
    ReachBothReady(c);
    ReachStep(w, TakeReady, c);
    w := Observe(w, TakeReady);
    ReachStep(w, TakeDispatch, c);
    assert Observe(w, TakeDispatch) == Watch(Choosing1(c), -1, false);
  }

  lemma ReachFirstChosen(c: Setup)
    requires Pair(c)
    ensures Reachable(Watch(FirstChosen(c), -1, false), c)
  {
    hide Reachable, RemoveAt;
    ReachChoosing1(c);
    FirstGone();
    var w := Watch(Choosing1(c), -1, false);
    assert w.k.readyQ == [1, 2] && w.k.execQ + [1] == [1];
    ReachStep(w, Pick(0), c);
    assert Observe(w, Pick(0)) == Watch(FirstChosen(c), -1, false);
  }

  /** Process 1 has run and blocked; its timer is asleep. */
  function FirstBlocked(c: Setup): Kernel
    requires Pair(c)
  {
    BothReady(c).(
      pcbs := map[1 := RanOnce(c, BLOCKED, 1, c.limit + 1, FirstRan(c)), 2 := Fresh(c, 2)],
      readyQ := [2], semReady := 1, ioQ := [1], semIo := 1, blockedQ := [1], timers := [Timer(1, 1)],
      preempt := false, answer := Blocked(c.limit + 1), ran := FirstRan(c))
  }

  lemma ReachFirstBlocked(c: Setup)
    requires Pair(c)
    ensures Reachable(Watch(FirstBlocked(c), 1, false), c)
  {
    hide Reachable, Srt.Smooth;
    var w := Watch(FirstChosen(c), -1, false);
    ReachFirstChosen(c);
    ReachStep(w, Send, c);
    w := Observe(w, Send);
    ReachStep(w, Answered(Blocked(c.limit + 1), FirstRan(c)), c);
    w := Observe(w, Answered(Blocked(c.limit + 1), FirstRan(c)));
    ReachStep(w, Requeue, c);
    w := Observe(w, Requeue);
    assert w.k.pcbs == FirstBlocked(c).pcbs;
    assert w == Watch(FirstBlocked(c), 1, false);
  }

  /** Then process 2 did the same: it is the one the CPU ran last. */
  function BothBlocked(c: Setup): Kernel
    requires Pair(c)
  {
    FirstBlocked(c).(
      pcbs := map[1 := RanOnce(c, BLOCKED, 1, c.limit + 1, FirstRan(c)),
                  2 := RanOnce(c, BLOCKED, 2, c.limit + 1, SecondRan(c))],
      readyQ := [], semReady := 0, ioQ := [1, 2], semIo := 2, blockedQ := [1, 2],
      timers := [Timer(1, 1), Timer(2, 1)], ran := SecondRan(c))
  }

  lemma ReachBothBlocked(c: Setup)
    requires Pair(c)
    ensures Reachable(Watch(BothBlocked(c), 2, false), c)
  {
    hide Reachable, Srt.Smooth;
    var w := Watch(FirstBlocked(c), 1, false);
    ReachFirstBlocked(c);
    ReachStep(w, TakeReady, c);
    w := Observe(w, TakeReady);
    ReachStep(w, TakeDispatch, c);
    w := Observe(w, TakeDispatch);
    ReachStep(w, Pick(0), c);
    w := Observe(w, Pick(0));
    ReachStep(w, Send, c);
    w := Observe(w, Send);
    ReachStep(w, Answered(Blocked(c.limit + 1), SecondRan(c)), c);
    w := Observe(w, Answered(Blocked(c.limit + 1), SecondRan(c)));
    ReachStep(w, Requeue, c);
    w := Observe(w, Requeue);
    assert w.k.pcbs == BothBlocked(c).pcbs;
    assert w == Watch(BothBlocked(c), 2, false);
  }

  /** The timer of process 2 fires first, then that of process 1. */
  function BothSuspended(c: Setup): Kernel
    requires Pair(c)
  {
    BothBlocked(c).(
      pcbs := map[1 := RanOnce(c, SUSPENDED_BLOCKED, 1, c.limit + 1, FirstRan(c)),
                  2 := RanOnce(c, SUSPENDED_BLOCKED, 2, c.limit + 1, SecondRan(c))],
      blockedQ := [], susBlockedQ := [2, 1], timers := [], lastSuspended := 1, grade := c.degree,
      mem := Mem({}, {1, 2}, 3))
  }

  lemma ReachBothSuspended(c: Setup)
    requires Pair(c)
    ensures Reachable(Watch(BothSuspended(c), 2, true), c)
  {
    hide Reachable, Srt.Smooth;
    var w := Watch(BothBlocked(c), 2, false);
    ReachBothBlocked(c);
    ReachStep(w, Fire(1, 0), c);
    w := Observe(w, Fire(1, 0));
    ReachStep(w, Fire(0, 0), c);
    w := Observe(w, Fire(0, 0));
    assert w.k.pcbs == BothSuspended(c).pcbs;
    assert w == Watch(BothSuspended(c), 2, true);
  }

  /** Both have had their I/O. */
  function BothSusReady(c: Setup): Kernel
    requires Pair(c)
  {
    BothSuspended(c).(
      pcbs := map[1 := RanOnce(c, SUSPENDED_READY, 1, 0, FirstRan(c)),
                  2 := RanOnce(c, SUSPENDED_READY, 2, 0, SecondRan(c))],
      susBlockedQ := [], ioQ := [], semIo := 0, susReadyQ := [1, 2], work := 2)
  }

  lemma ReachBothSusReady(c: Setup)
    requires Pair(c)
    ensures Reachable(Watch(BothSusReady(c), 2, true), c)
  {
    hide Reachable, Srt.Smooth;
    var w := Watch(BothSuspended(c), 2, true);
    ReachBothSuspended(c);
    ReachStep(w, TakeIo, c);
    w := Observe(w, TakeIo);
    ReachStep(w, IoDone, c);
    w := Observe(w, IoDone);
    ReachStep(w, TakeIo, c);
    w := Observe(w, TakeIo);
    ReachStep(w, IoDone, c);
    w := Observe(w, IoDone);
    assert w.k.pcbs == BothSusReady(c).pcbs;
    assert w == Watch(BothSusReady(c), 2, true);
  }

  /** Both are ready again, process 1 first in the queue. */
  function Choosing2(c: Setup): Kernel
    requires Pair(c)
  {
    BothSusReady(c).(
      pcbs := map[1 := RanOnce(c, READY, 1, 0, FirstRan(c)),
                  2 := RanOnce(c, READY, 2, 0, SecondRan(c))],
      susReadyQ := [], work := 0, grade := c.degree - 2, readyQ := [1, 2], semReady := 1, dispatch := 0,
      short := Choosing)
  }

  lemma ReachChoosing2(c: Setup)
    requires Pair(c)
    ensures Reachable(Watch(Choosing2(c), 2, true), c)
  {
    hide Reachable, Srt.Smooth;
    var w := Watch(BothSusReady(c), 2, true);
    ReachBothSusReady(c);
    ReachStep(w, TakeWork, c);
    w := Observe(w, TakeWork);
    ReachStep(w, Admit, c);
    w := Observe(w, Admit);
    ReachStep(w, TakeWork, c);
    w := Observe(w, TakeWork);
    ReachStep(w, Admit, c);
    w := Observe(w, Admit);
    ReachStep(w, TakeReady, c);
    w := Observe(w, TakeReady);
    ReachStep(w, TakeDispatch, c);
    w := Observe(w, TakeDispatch);
    assert w.k.pcbs == Choosing2(c).pcbs;
    assert w == Watch(Choosing2(c), 2, true);
  }

  /** Process 2 has the smaller estimate left, so SRT takes it although it came second. */
  lemma SecondElected(c: Setup)
    requires Pair(c)
    ensures Elects(Choosing2(c), 1)
  {
    SecondEstimateLess(c);
    hide Srt.Smooth;
    var k := Choosing2(c);
    assert k.readyQ[0] == 1 && k.readyQ[1] == 2;
  }

  /** And the scheduler takes process 2. */
  function SecondChosen(c: Setup): Kernel
    requires Pair(c)
  {
    Choosing2(c).(readyQ := [1], execQ := [2], semExec := 1, short := AtReady)
  }

  lemma SecondGone()
    ensures RemoveAt([1, 2], 1) == [1]
  {
  }

  lemma ReachSecondChosen(c: Setup)
    requires Pair(c)
    ensures Reachable(Watch(SecondChosen(c), 2, true), c)
  {
    hide Reachable, RemoveAt, Elects, Srt.Smooth;
    ReachChoosing2(c);
    SecondElected(c);
    SecondGone();
    var w := Watch(Choosing2(c), 2, true);
    assert w.k.readyQ == [1, 2] && w.k.execQ + [2] == [2];
    ReachStep(w, Pick(1), c);
    assert Observe(w, Pick(1)) == Watch(SecondChosen(c), 2, true);
  }

  /** Process 2, the last one the CPU ran, has been suspended since and is about to be sent;
      it is not the last one suspended, so it gets the header that does not flush. */
  lemma OutOfOrderTimersSkipTheFlush(c: Setup)
    requires Pair(c)
    ensures exists w :: Reachable(w, c) && !Sound(w)
  {
    ReachSecondChosen(c);
    hide Reachable;
    var w := Watch(SecondChosen(c), 2, true);
    assert Reachable(w, c) && !Sound(w);
  }

  /** Sound throughout every run, whatever the interleaving and the order of the timers. */
  ghost predicate AlwaysSound(degree: nat, slots: nat, limit: nat, srt: bool, alfa: real, initial: real) {
    forall events | CanRun(Unwatched(degree, slots, limit, srt, alfa, initial).k, events) ::
      Sound(Watched(Unwatched(degree, slots, limit, srt, alfa, initial), events))
  }

  lemma NotAlwaysSound(c: Setup)
    requires Pair(c)
    ensures !AlwaysSound(c.degree, c.slots, c.limit, true, c.alfa, c.initial)
  {
    OutOfOrderTimersSkipTheFlush(c);
    hide Sound, CanRun, Watched;
    var w :| Reachable(w, c) && !Sound(w);
  }

  /** The protocol is enough for every interleaving and every order of timers exactly under
      FIFO, with a single process at a time, or when bursts do not change estimates. */
  lemma FlushEnoughIff(degree: nat, slots: nat, limit: nat, srt: bool, alfa: real, initial: real)
    requires degree <= slots
    ensures AlwaysSound(degree, slots, limit, srt, alfa, initial) <==> !srt || degree <= 1 || alfa == 0.0
  {
    if !srt || degree <= 1 || alfa == 0.0 {
      forall events | CanRun(Unwatched(degree, slots, limit, srt, alfa, initial).k, events)
        ensures Sound(Watched(Unwatched(degree, slots, limit, srt, alfa, initial), events))
      {
        FlushEnough(degree, slots, limit, srt, alfa, initial, events);
      }
    } else {
      NotAlwaysSound(Setup(degree, slots, limit, alfa, initial));
    }
  }
}
