/** What kernel, CPU and memory together can come to.

    A run of one process, suspended once by its timer and back after a short I/O the second
    time, is sent to the CPU with its pages in memory and the TLB flushed, because
    `ultimoPIDSuspendido` still names it.  From there a stale translation is a few reads away
    in every configuration that is not harmless.
 */
module SystemStale {
  import opened Paging
  import opened VirtualMemory
  import opened MemoryProofs
  import opened FlatMemory
  import opened RequestRuns
  import opened Translation
  import opened CpuMemory
  import opened SystemRun
  import opened StaleTlb
  import Q = Queues
  import S = Scheduler
  import Srt
  import P = FlushProtocol
  import T = TlbCache

  // ---------------------------------------------------------------- runs of any configuration

  /** Every action of the run is allowed, and can be taken, when it comes. */
  ghost predicate Gets(y: System, actions: seq<Action>)
    decreases |actions|
  {
    actions == []
    || (Allows(y, actions[0]) && Ready(y, actions[0]) && Gets(SystemRun.After(y, actions[0]), actions[1..]))
  }

  ghost function GotTo(y: System, actions: seq<Action>): System
    requires Gets(y, actions)
    decreases |actions|
  {
    if actions == [] then y else GotTo(SystemRun.After(y, actions[0]), actions[1..])
  }

  /** What CPU and memory do along it. */
  ghost function Caused(y: System, actions: seq<Action>): seq<Event>
    requires Gets(y, actions)
    decreases |actions|
  {
    if actions == [] then [] else Effect(y, actions[0]) + Caused(SystemRun.After(y, actions[0]), actions[1..])
  }

  /** From power-on the system can come to y, CPU and memory having done just this. */
  ghost predicate Reach(u: Setup, y: System, es: seq<Event>) {
    exists actions ::
      && Gets(Switched(u), actions)
      && GotTo(Switched(u), actions) == y && Caused(Switched(u), actions) == es
  }

  ghost predicate Reachable(u: Setup, y: System) {
    exists es :: Reach(u, y, es)
  }

  lemma {:induction false} GetsAppend(y: System, actions: seq<Action>, a: Action)
    requires Gets(y, actions) && Allows(GotTo(y, actions), a) && Ready(GotTo(y, actions), a)
    ensures Gets(y, actions + [a]) && GotTo(y, actions + [a]) == SystemRun.After(GotTo(y, actions), a)
    ensures Caused(y, actions + [a]) == Caused(y, actions) + Effect(GotTo(y, actions), a)
    decreases |actions|
  {
    hide Allows, SystemRun.After, Effect;
    hide CpuOk, S.Enabled, S.Steady, Possible, RightEvent;
    if actions == [] {
      assert actions + [a] == [a];
      assert Gets(SystemRun.After(y, a), []);
    } else {
      assert (actions + [a])[1..] == actions[1..] + [a];
      GetsAppend(SystemRun.After(y, actions[0]), actions[1..], a);
    }
  }

  lemma ReachStep(u: Setup, y: System, es: seq<Event>, a: Action)
    requires Reach(u, y, es) && Allows(y, a) && Ready(y, a)
    ensures Reach(u, SystemRun.After(y, a), es + Effect(y, a))
  {
    hide Allows, SystemRun.After, Switched, Effect, CpuOk, S.Enabled, S.Steady, Possible, RightEvent;
    var actions :|
      && Gets(Switched(u), actions)
      && GotTo(Switched(u), actions) == y && Caused(Switched(u), actions) == es;
    GetsAppend(Switched(u), actions, a);
  }

  lemma SwitchedReach(u: Setup)
    ensures Reach(u, Switched(u), [])
  {
    hide Switched;
    assert Gets(Switched(u), []) && GotTo(Switched(u), []) == Switched(u) && Caused(Switched(u), []) == [];
  }

  /** Steps in which neither CPU nor memory has a part. */
  predicate Quiet(k: S.Kernel, e: S.Event) {
    !e.Send? && !e.Release? && !e.Fire? && !e.Touch? && (e.Admit? ==> k.susReadyQ != [])
  }

  lemma QuietReach(u: Setup, y: System, es: seq<Event>, e: S.Event)
    requires Reach(u, y, es) && CpuOk(y.m) && y.m.at.Idle?
    requires S.Enabled(y.k, e) && S.Steady(y.k, e) && Quiet(y.k, e)
    requires e.Arrive? ==> e.size <= y.m.s.c.K * y.m.s.c.T
    ensures Reach(u, System(S.Step(y.k, e), y.m, y.running), es)
  {
    hide Reach, CpuOk, S.Enabled, S.Steady, S.Step, Possible, RightEvent;
    ReachStep(u, y, es, Sched(e));
    assert es + [] == es;
  }

  // ---------------------------------------------------------------- one process

  /** Process 1 is the only one, admitted, and no thread is in the middle of anything. */
  predicate Only(k: S.Kernel) {
    && k.pcbs.Keys == {1} && k.pcbs[1].table == 1
    && k.newQ == [] && k.flight == [] && k.exitQ == [] && k.device == []
    && k.long == S.AtWork && k.short == S.AtReady
  }

  predicate NoIo(k: S.Kernel) {
    k.ioQ == [] && k.semIo == 0 && k.blockedQ == [] && k.susBlockedQ == [] && k.susReadyQ == []
  }

  predicate InReady(k: S.Kernel) {
    && Only(k) && NoIo(k)
    && k.readyQ == [1] && k.semReady == 1 && k.execQ == [] && k.semExec == 0 && k.dispatch == 1
    && k.attend == S.AtExec
  }

  predicate Chosen(k: S.Kernel) {
    && Only(k) && NoIo(k)
    && k.readyQ == [] && k.semReady == 0 && k.execQ == [1] && k.semExec == 1 && k.dispatch == 0
    && k.attend == S.AtExec
  }

  predicate OnCpu(k: S.Kernel) {
    && Only(k) && NoIo(k)
    && k.readyQ == [] && k.semReady == 0 && k.execQ == [1] && k.semExec == 0 && k.dispatch == 0
    && k.attend == S.AtCpu
  }

  predicate InIo(k: S.Kernel) {
    && Only(k) && k.ioQ == [1] && k.semIo == 1 && k.susReadyQ == []
    && k.readyQ == [] && k.semReady == 0 && k.execQ == [] && k.semExec == 0 && k.dispatch == 1
    && k.attend == S.AtExec
  }

  predicate Waiting(k: S.Kernel) {
    InIo(k) && k.blockedQ == [1] && k.susBlockedQ == [] && k.pcbs[1].tag == S.BLOCKED
  }

  predicate Parked(k: S.Kernel) {
    InIo(k) && k.blockedQ == [] && k.susBlockedQ == [1] && k.pcbs[1].tag == S.SUSPENDED_BLOCKED && k.grade > 0
  }

  /** Timers and what the kernel remembers of suspensions stay. */
  predicate Same(k: S.Kernel, k': S.Kernel) {
    && k'.timers == k.timers && k'.lastSuspended == k.lastSuspended && k'.limit == k.limit
    && 1 in k.pcbs && 1 in k'.pcbs && k'.pcbs[1].blocks == k.pcbs[1].blocks
  }

  /** READY to EXEC, under either algorithm. */
  lemma Chooses(u: Setup, y: System, es: seq<Event>) returns (y': System)
    requires Reach(u, y, es) && CpuOk(y.m) && y.m.at.Idle? && InReady(y.k)
    ensures Reach(u, y', es) && y'.m == y.m && y'.running == y.running && Chosen(y'.k) && Same(y.k, y'.k)
  {
    hide Reach, CpuOk;
    var k := y.k;
    QuietReach(u, y, es, S.TakeReady);
    var k1 := S.Step(k, S.TakeReady);
    QuietReach(u, System(k1, y.m, y.running), es, S.TakeDispatch);
    var k2 := S.Step(k1, S.TakeDispatch);
    assert S.Elects(k2, 0);
    QuietReach(u, System(k2, y.m, y.running), es, S.Pick(0));
    assert Q.RemoveAt([1], 0) == [];
    y' := System(S.Step(k2, S.Pick(0)), y.m, y.running);
  }

  /** EXEC to BLOCKED. */
  lemma Blocks(u: Setup, y: System, es: seq<Event>, ioTime: nat) returns (y': System)
    requires Reach(u, y, es) && CpuOk(y.m) && y.m.at.Idle? && OnCpu(y.k)
    ensures Reach(u, y', es) && y'.m == y.m && y'.running == y.running && Waiting(y'.k)
    ensures y'.k.pcbs[1].ioTime == ioTime && y'.k.pcbs[1].blocks == y.k.pcbs[1].blocks + 1
    ensures y'.k.timers == y.k.timers + [S.Timer(1, y'.k.pcbs[1].blocks)] && y'.k.limit == y.k.limit
    ensures y'.k.lastSuspended == y.k.lastSuspended
  {
    hide Reach, CpuOk, S.BurstOf;
    var e := S.Answered(S.Blocked(ioTime), 0);
    QuietReach(u, y, es, e);
    var k1 := S.Step(y.k, e);
    QuietReach(u, System(k1, y.m, y.running), es, S.Requeue);
    y' := System(S.Step(k1, S.Requeue), y.m, y.running);
  }

  /** The I/O ends before the timer fires. */
  lemma Returns(u: Setup, y: System, es: seq<Event>) returns (y': System)
    requires Reach(u, y, es) && CpuOk(y.m) && y.m.at.Idle? && Waiting(y.k)
    ensures Reach(u, y', es) && y'.m == y.m && y'.running == y.running && InReady(y'.k) && Same(y.k, y'.k)
  {
    hide Reach, CpuOk;
    QuietReach(u, y, es, S.TakeIo);
    var k1 := S.Step(y.k, S.TakeIo);
    QuietReach(u, System(k1, y.m, y.running), es, S.IoDone);
    assert Q.Without([1], 1) == [];
    y' := System(S.Step(k1, S.IoDone), y.m, y.running);
  }

  /** The I/O of a suspended process ends, and it is admitted again. */
  lemma ComesBack(u: Setup, y: System, es: seq<Event>) returns (y': System)
    requires Reach(u, y, es) && CpuOk(y.m) && y.m.at.Idle? && Parked(y.k)
    ensures Reach(u, y', es) && y'.m == y.m && y'.running == y.running && InReady(y'.k) && Same(y.k, y'.k)
  {
    hide Reach, CpuOk;
    QuietReach(u, y, es, S.TakeIo);
    var k1 := S.Step(y.k, S.TakeIo);
    QuietReach(u, System(k1, y.m, y.running), es, S.IoDone);
    assert Q.Without([1], 1) == [];
    var k2 := S.Step(k1, S.IoDone);
    QuietReach(u, System(k2, y.m, y.running), es, S.TakeWork);
    var k3 := S.Step(k2, S.TakeWork);
    QuietReach(u, System(k3, y.m, y.running), es, S.Admit);
    y' := System(S.Step(k3, S.Admit), y.m, y.running);
  }

  // ---------------------------------------------------------------- what memory and CPU do meanwhile

  /** The process arrives, with all the pages it can have, and is admitted. */
  lemma Arrives(u: Setup) returns (y': System)
    requires Sized(u) && u.degree > 0
    ensures Reach(u, y', [Ask(Create(u.c.K * u.c.T))]) && CpuOk(y'.m) && InReady(y'.k) && y'.running == -1
    ensures y'.k.timers == [] && y'.k.pcbs[1].blocks == 0 && y'.k.limit == u.limit
    ensures y'.m.s == Filled(u.c, 0) && y'.m.id == 0 && y'.m.at.Idle? && |y'.m.t.slots| == u.entries
  {
    var y, size := Switched(u), u.c.K * u.c.T;
    hide Reach, Trusted, CpuOk;
    SwitchedReach(u);
    StartOk(u);
    QuietReach(u, y, [], S.Arrive(size));
    var k1 := S.Step(y.k, S.Arrive(size));
    QuietReach(u, System(k1, y.m, -1), [], S.TakeWork);
    var y2 := System(S.Step(k1, S.TakeWork), y.m, -1);
    CreatesFilled(u.c);
    StepKeeps(y.m, Ask(Create(size)));
    hide Start;
    Admits(u, y2, [], size);
    assert [] + [Ask(Create(size))] == [Ask(Create(size))];
    y' := SystemRun.After(y2, Sched(S.Admit));
    hide Filled;
  }

  lemma StartOk(u: Setup)
    requires Sized(u)
    ensures CpuOk(Start(u.c, u.entries, u.policy)) && Start(u.c, u.entries, u.policy).at.Idle?
    ensures Start(u.c, u.entries, u.policy).id == 0
  {
  }

  lemma Admits(u: Setup, y: System, es: seq<Event>, size: nat)
    requires Reach(u, y, es) && CpuOk(y.m) && S.Enabled(y.k, S.Admit) && S.Steady(y.k, S.Admit) && y.k.susReadyQ == []
    requires y.k.pcbs[y.k.newQ[0]].size == size
    ensures Ready(y, Sched(S.Admit)) && Reach(u, SystemRun.After(y, Sched(S.Admit)), es + [Ask(Create(size))])
    ensures Possible(y.m, Ask(Create(size)))
    ensures SystemRun.After(y, Sched(S.Admit))
            == System(S.Step(y.k, S.Admit), Step(y.m, Ask(Create(size))).0, y.running)
  {
    hide Reach, CpuOk, S.Step, Step;
    ReachStep(u, y, es, Sched(S.Admit));
  }

  /** EXEC to the CPU, with the header that flushes. */
  lemma Sends(u: Setup, y: System, es: seq<Event>) returns (y': System)
    requires Reach(u, y, es) && CpuOk(y.m) && y.m.at.Idle? && Chosen(y.k) && Flushes(y, 1) && 1 in y.m.s.swap
    ensures Reach(u, y', es + [Dispatch(1)]) && CpuOk(y'.m) && OnCpu(y'.k) && Same(y.k, y'.k) && y'.running == 1
    ensures y'.m == Cpu(y.m.s, T.Flushed(y.m.t), 1, Idle) && |y'.m.t.slots| == |y.m.t.slots|
  {
    hide Reach, CpuOk;
    StepKeeps(y.m, Dispatch(1));
    ReachStep(u, y, es, Sched(S.Send));
    y' := SystemRun.After(y, Sched(S.Send));
  }

  /** The timer fires while the I/O goes on. */
  lemma Parks(u: Setup, y: System, es: seq<Event>) returns (y': System)
    requires Reach(u, y, es) && CpuOk(y.m) && y.m.at.Idle? && Waiting(y.k) && 1 in y.m.s.swap
    requires y.k.timers == [S.Timer(1, y.k.pcbs[1].blocks)] && y.k.pcbs[1].ioTime > y.k.limit
    ensures Possible(y.m, Ask(Suspend(1)))
    ensures Reach(u, y', es + [Ask(Suspend(1))]) && CpuOk(y'.m) && Parked(y'.k) && y'.running == y.running
    ensures y'.k.timers == [] && y'.k.lastSuspended == 1 && y'.k.pcbs[1].blocks == y.k.pcbs[1].blocks
    ensures y'.m == Step(y.m, Ask(Suspend(1))).0 && |y'.m.t.slots| == |y.m.t.slots|
  {
    hide Reach, CpuOk, Step;
    assert Q.Without([1], 1) == [];
    StepKeeps(y.m, Ask(Suspend(1)));
    ReachStep(u, y, es, Sched(S.Fire(0, 0)));
    y' := SystemRun.After(y, Sched(S.Fire(0, 0)));
  }

  /** One step of an access of the running process. */
  lemma Uses(u: Setup, y: System, es: seq<Event>, e: Event) returns (y': System)
    requires Reach(u, y, es) && CpuOk(y.m) && OnCpu(y.k)
    requires Accesses(e) && Possible(y.m, e) && RightEvent(y.m, e)
    ensures Reach(u, y', es + [e]) && CpuOk(y'.m) && OnCpu(y'.k) && Same(y.k, y'.k) && y'.running == y.running
    ensures y'.m == Step(y.m, e).0
  {
    hide Reach, CpuOk, Step, RightEvent, InProcess;
    StepKeeps(y.m, e);
    ReachStep(u, y, es, Use(e));
    y' := SystemRun.After(y, Use(e));
  }

  /** A read that misses the TLB. */
  lemma Reads1(u: Setup, y: System, es: seq<Event>, l: Logical) returns (y': System)
    requires Reach(u, y, es) && CpuOk(y.m) && OnCpu(y.k) && y.m.at.Idle? && y.m.id != 0
    requires CanAccess(y.m.s, y.m.id, l) && ConfigOk(y.m.s.c) && Right(y.m.s, y.m.t, y.m.id, l)
    requires Looked(y.m, l).at.Missed?
    ensures Reach(u, y', es + [Begin(l), AskTable, AskFrame, Fetch])
    ensures CpuOk(y'.m) && OnCpu(y'.k) && Same(y.k, y'.k) && y'.running == y.running
    ensures y'.m == DoLoad(y.m, l).0
  {
    hide Reach, CpuOk, Step, CanAccess, Right, Possible, OnCpu;
    BeginGoes(y.m, l);
    ObtainGoes(y.m, l);
    var y1 := Uses(u, y, es, Begin(l));
    var y2 := Uses(u, y1, es + [Begin(l)], AskTable);
    var y3 := Uses(u, y2, es + [Begin(l)] + [AskTable], AskFrame);
    AccessGoes(y3.m, Fetch);
    y' := Uses(u, y3, es + [Begin(l)] + [AskTable] + [AskFrame], Fetch);
    assert es + [Begin(l)] + [AskTable] + [AskFrame] + [Fetch] == es + [Begin(l), AskTable, AskFrame, Fetch];
    assert Obtain(y.m, l) == y3.m;
  }

  // ---------------------------------------------------------------- the suspended process wakes

  /** Memory after process 1 has been suspended before it ever touched a page. */
  function ParkedState(c: Config): State
    requires c.P > 0
  {
    Filled(c, 0).(slots := seq(c.P, i => BlankSlot(c)), suspended := map[1 := Suspended(c.K * c.T, [])])
  }

  lemma ParksFilled(c: Config)
    requires ConfigOk(c) && Inv(Filled(c, 0))
    ensures Enabled(Filled(c, 0), Suspend(1)) && Serve(Filled(c, 0), Suspend(1)).0 == ParkedState(c)
  {
    FilledFacts(c, 0);
    var s := Filled(c, 0);
    ActiveSlot(s, 1);
    NoneKnown(FilledSlot(c, 0).pages, c.K);
    var s' := Serve(s, Suspend(1)).0;
    assert s'.swap[1] == ZeroPages(c);
    assert s'.swap == s.swap;
    assert s'.slots[0] == BlankSlot(c);
    assert s'.slots == ParkedState(c).slots;
  }

  lemma {:induction false} NoneKnown(pages: seq<Entry>, n: nat)
    requires n <= |pages| && forall q | 0 <= q < n :: !Known(pages[q])
    ensures KnownPages(pages, n) == []
  {
    if n > 0 {
      NoneKnown(pages, n - 1);
    }
  }

  lemma WakesFilled(c: Config, e1: nat)
    requires ConfigOk(c) && e1 < c.E
    ensures HasFree(ParkedState(c)) && Enabled(ParkedState(c), Table(1, e1))
    ensures ServeTable(ParkedState(c), 1, e1).0 == Filled(c, 0)
  {
    var s := ParkedState(c);
    assert FindSlot(s.slots, 0, 0) == 0;
    var s' := ServeTable(s, 1, e1).0;
    assert s'.slots[0].pages == FilledSlot(c, 0).pages;
    assert s'.slots[0].frames == FilledSlot(c, 0).frames;
    assert s'.slots[0] == FilledSlot(c, 0);
    assert s'.slots == Filled(c, 0).slots;
    assert s'.suspended == map[];
  }

  /** Its first read finds memory as if it had never been suspended. */
  lemma ReadsParked(c: Config, l: Logical)
    requires ConfigOk(c) && Inv(ParkedState(c)) && Inv(Filled(c, 0)) && CanAccess(Filled(c, 0), 1, l)
    ensures CanAccess(ParkedState(c), 1, l) && LoadWord(ParkedState(c), 1, l) == LoadWord(Filled(c, 0), 1, l)
  {
    hide Inv, ServeFrame, ServeRead;
    FilledFacts(c, 0);
    WakesFilled(c, l.e1);
    hide Filled;
  }

  // ---------------------------------------------------------------- the run

  /** Process 1 runs, between accesses, with this memory and these pages in the TLB, and is the
      one suspended last. */
  ghost predicate Running(u: Setup, y: System, es: seq<Event>, s: State, list: seq<nat>) {
    && Reach(u, y, es) && CpuOk(y.m) && OnCpu(y.k) && y.running == 1 && y.k.lastSuspended == 1
    && y.m.s == s && y.m.id == 1 && y.m.at.Idle? && |y.m.t.slots| == u.entries && T.Holds(y.m.t, list)
  }

  /** A setup in which a translation can go stale. */
  ghost predicate Harmful(u: Setup) {
    Sized(u) && u.degree > 0 && u.c.T >= WORD && u.c.M < u.c.K && u.entries >= 2
  }

  /** A page that is not in the TLB is read. */
  lemma ReadsPage(u: Setup, y: System, es: seq<Event>, s: State, list: seq<nat>, q: nat) returns (y': System)
    requires Harmful(u) && Running(u, y, es, s, list) && q < u.c.K && q !in list
    requires s.c == u.c && CanAccess(s, 1, PageAt(u.c, q))
    ensures Inv(s) && y'.m.t.policy == y.m.t.policy
    ensures Running(u, y', es + Read1(u.c, q), LoadWord(s, 1, PageAt(u.c, q)).0,
                    T.Renew(y.m.t.policy, list, q, u.entries))
  {
    hide Reach, CpuOk, CanAccess, LoadWord, Right, T.Holds, T.Lookup, DoLoad, Looked, OnCpu, Inv;
    InvOf(y.m);
    AbsentMisses(y.m, u.c, q, list);
    y' := Reads1(u, y, es, PageAt(u.c, q));
    LoadedIs(y.m, PageAt(u.c, q), list);
    PageAtIs(u.c, q);
  }

  /** The rest of the first M pages are read. */
  lemma {:induction false} ReadsRest(u: Setup, y: System, es: seq<Event>, n: nat, list: seq<nat>)
    returns (y': System, list': seq<nat>)
    requires Harmful(u) && n <= u.c.M && Running(u, y, es, Filled(u.c, n), list) && forall q | q in list :: q < n
    ensures Running(u, y', es + Reads(u.c, n, u.c.M - n), Filled(u.c, u.c.M), list')
    decreases u.c.M - n
  {
    hide Running, Filled, LoadWord, CanAccess, Inv, Read1;
    if n == u.c.M {
      y', list' := y, list;
      assert es + [] == es;
    } else {
      FilledFacts(u.c, n);
      CanRead(Filled(u.c, n), u.c, n);
      var y1 := ReadsPage(u, y, es, Filled(u.c, n), list, n);
      FilledNext(u.c, n);
      RenewBelow(y.m.t.policy, list, n, u.entries);
      var es1 := es + Read1(u.c, n);
      y', list' := ReadsRest(u, y1, es1, n + 1, T.Renew(y.m.t.policy, list, n, u.entries));
      assert es1 + Reads(u.c, n + 1, u.c.M - n - 1) == es + Reads(u.c, n, u.c.M - n);
    }
  }

  /** From power-on to the first dispatch after the suspension. */
  lemma RunsParked(u: Setup) returns (y': System, es: seq<Event>)
    requires Harmful(u)
    ensures es == [Ask(Create(u.c.K * u.c.T)), Dispatch(1), Ask(Suspend(1)), Dispatch(1)]
    ensures Running(u, y', es, ParkedState(u.c), []) && Inv(Filled(u.c, 0))
  {
    hide Reach, CpuOk, Filled, ParkedState, Step, Waiting, Parked, Inv, Chosen, T.Holds;
    FilledFacts(u.c, 0);
    es := [Ask(Create(u.c.K * u.c.T))];
    var y0 := Arrives(u);
    InvOf(y0.m);
    var y1 := Chooses(u, y0, es);
    var y2 := Sends(u, y1, es);
    es := es + [Dispatch(1)];
    var y3 := Blocks(u, y2, es, u.limit + 1);
    hide OnCpu, InReady;
    var y4 := Parks(u, y3, es);
    es := es + [Ask(Suspend(1))];
    ParksFilled(u.c);
    ParkedMemory(y3.m);
    assert 1 in y4.m.s.swap by { ParkedLive(u.c); }
    var y5 := ComesBack(u, y4, es);
    var y6 := Chooses(u, y5, es);
    y' := Sends(u, y6, es);
    es := es + [Dispatch(1)];
    T.FlushedHolds(y6.m.t);
  }

  lemma ParkedMemory(m: Cpu)
    requires CpuOk(m) && Possible(m, Ask(Suspend(1))) && Inv(m.s)
    ensures Enabled(m.s, Suspend(1))
    ensures Step(m, Ask(Suspend(1))).0.s == Serve(m.s, Suspend(1)).0
    ensures Step(m, Ask(Suspend(1))).0.at == m.at
  {
    hide CpuOk, Inv, Serve;
  }

  lemma ParkedLive(c: Config)
    requires c.P > 0
    ensures 1 in ParkedState(c).swap && ParkedState(c).c == c
  {
  }

  /** To the third dispatch: the first M pages are in memory and the TLB is empty. */
  lemma RunsFilled(u: Setup) returns (y': System, es: seq<Event>)
    requires Harmful(u)
    ensures Running(u, y', es, Filled(u.c, u.c.M), [])
  {
    hide Reach, CpuOk, Filled, ParkedState, Inv, LoadWord, CanAccess, T.Holds, InReady, OnCpu, Waiting, Chosen;
    var y0, es0 := RunsParked(u);
    FilledFacts(u.c, 0);
    CanRead(Filled(u.c, 0), u.c, 0);
    InvOf(y0.m);
    ParkedLive(u.c);
    ReadsParked(u.c, PageAt(u.c, 0));
    var y1 := ReadsPage(u, y0, es0, ParkedState(u.c), [], 0);
    FilledNext(u.c, 0);
    es := es0 + Read1(u.c, 0);
    var y2, list := ReadsRest(u, y1, es, 1, T.Renew(y0.m.t.policy, [], 0, u.entries));
    es := es + Reads(u.c, 1, u.c.M - 1);
    var y3 := Blocks(u, y2, es, 0);
    var y4 := Returns(u, y3, es);
    var y5 := Chooses(u, y4, es);
    FilledFacts(u.c, u.c.M);
    y' := Sends(u, y5, es);
    es := es + [Dispatch(1)];
    T.FlushedHolds(y5.m.t);
  }

  /** Page 0 is read again, page M takes its frame, and the next look for page 0 finds the old
      translation. */
  lemma RunsStale(u: Setup) returns (y: System, l: Logical)
    requires Harmful(u)
    ensures Reachable(u, y) && Allows(y, Use(Begin(l))) && CpuOk(y.m) && !RightEvent(y.m, Begin(l))
  {
    hide Reach, CpuOk, Filled, Inv, LoadWord, CanAccess, T.Holds, T.Lookup, FindSlot, Right;
    var c := u.c;
    var y0, es0 := RunsFilled(u);
    FilledFacts(c, c.M);
    InvOf(y0.m);
    CanRead(Filled(c, c.M), c, 0);
    var y1 := ReadsPage(u, y0, es0, Filled(c, c.M), [], 0);
    var es1 := es0 + Read1(c, 0);
    ReadZero(c);
    CanRead(Filled(c, c.M), c, c.M);
    assert T.Renew(y0.m.t.policy, [], 0, u.entries) == [0];
    var y2 := ReadsPage(u, y1, es1, Filled(c, c.M), [0], c.M);
    EvictsZero(c);
    assert T.Renew(y0.m.t.policy, [0], c.M, u.entries) == [c.M, 0];
    CanRead(y2.m.s, c, 0);
    PageAtIs(c, 0);
    T.AccessRenews(y2.m.t, [c.M, 0], 0, 0);
    AbsentIsWrong(y2.m, c);
    y, l := y2, PageAt(c, 0);
  }

  // ---------------------------------------------------------------- exactly when

  /** Whatever the kernel does, no lookup of the running process is led astray. */
  ghost predicate NeverAstray(u: Setup) {
    forall y, l | Reachable(u, y) && Allows(y, Use(Begin(l))) :: CpuOk(y.m) && RightEvent(y.m, Begin(l))
  }

  lemma {:induction false} HarmlessGets(y: System, actions: seq<Action>)
    requires SysInv(y) && Gets(y, actions)
    ensures SysInv(GotTo(y, actions))
    decreases |actions|
  {
    hide SysInv, Allows, Ready, SystemRun.After;
    if actions != [] {
      SysStep(y, actions[0]);
      HarmlessGets(SystemRun.After(y, actions[0]), actions[1..]);
    }
  }

  lemma HarmlessNever(u: Setup)
    requires SetupOk(u)
    ensures NeverAstray(u)
  {
    forall y, l | Reachable(u, y) && Allows(y, Use(Begin(l))) ensures CpuOk(y.m) && RightEvent(y.m, Begin(l)) {
      hide Gets, GotTo, Caused, Allows, CpuOk, SysInv, RightEvent, Switched;
      var es :| Reach(u, y, es);
      var actions :| Gets(Switched(u), actions) && GotTo(Switched(u), actions) == y;
      var y0 := PowerOn(u);
      HarmlessGets(y0, actions);
      UseReady(y, Begin(l));
      UsePossible(y, Begin(l));
      SystemRun.OkOf(y);
    }
  }

  /** What holds in every configuration: the kernel's invariants, and sizes do not change. */
  ghost predicate Sound(u: Setup, y: System) {
    S.Inv(y.k) && y.k.degree == u.degree && CpuOk(y.m) && y.m.s.c == u.c
  }

  lemma SoundStep(u: Setup, y: System, a: Action)
    requires Sound(u, y) && Allows(y, a) && Ready(y, a)
    ensures Sound(u, SystemRun.After(y, a))
  {
    hide S.Inv, CpuOk, Allows, Step, S.Step, S.Enabled, S.Steady, Effect, Possible, RightEvent;
    if a.Sched? {
      S.StepInv(y.k, a.e);
      S.StepFramed(y.k, a.e, if a.e.Arrive? then a.e.size else 0);
    } else {
      S.StepInv(y.k, S.Touch);
      S.StepFramed(y.k, S.Touch, 0);
    }
    if Effect(y, a) != [] {
      StepKeeps(y.m, Effect(y, a)[0]);
    }
  }

  lemma {:induction false} SoundGets(u: Setup, y: System, actions: seq<Action>)
    requires Sound(u, y) && Gets(y, actions)
    ensures Sound(u, GotTo(y, actions))
    decreases |actions|
  {
    hide Sound, Allows, Ready, SystemRun.After;
    if actions != [] {
      SoundStep(u, y, actions[0]);
      SoundGets(u, SystemRun.After(y, actions[0]), actions[1..]);
    }
  }

  lemma SoundReach(u: Setup, y: System)
    requires Sized(u) && Reachable(u, y)
    ensures Sound(u, y)
  {
    hide Gets, GotTo, Caused, Sound, Start;
    var es :| Reach(u, y, es);
      var actions :| Gets(Switched(u), actions) && GotTo(Switched(u), actions) == y;
    SoundStart(u);
    SoundGets(u, Switched(u), actions);
  }

  lemma SoundStart(u: Setup)
    requires Sized(u)
    ensures Sound(u, Switched(u))
  {
    S.InitInv(u.degree, u.c.P, u.limit, u.srt, u.alfa, u.initial);
    StartOk(u);
    hide S.Inv, CpuOk;
  }

  /** Without tokens nobody runs, and in pages smaller than a word nobody has anything to access. */
  lemma NothingBegins(u: Setup, y: System, l: Logical)
    requires Sound(u, y) && (u.degree == 0 || u.c.T < WORD)
    ensures !Allows(y, Use(Begin(l)))
  {
    hide S.OnePlace, S.Tagged, S.Tables, S.TimersOk, S.BlockedSet, CpuOk;
  }

  /** With kernel, CPU and memory together, under every schedule the kernel can follow, no
      lookup is led astray exactly in the harmless configurations (or when nothing can run, or
      pages are too small to hold a word). */
  lemma SystemTransparentIff(u: Setup)
    requires Sized(u)
    ensures NeverAstray(u) <==> u.degree == 0 || Harmless(u.c, u.entries) || u.c.T < WORD
  {
    if Harmless(u.c, u.entries) {
      HarmlessNever(u);
    } else if u.degree == 0 || u.c.T < WORD {
      forall y, l | Reachable(u, y) ensures !Allows(y, Use(Begin(l))) {
        hide Reachable, Allows, Sound;
        SoundReach(u, y);
        NothingBegins(u, y, l);
      }
    } else {
      hide Reachable, Allows, CpuOk;
      var y, l := RunsStale(u);
    }
  }
}
