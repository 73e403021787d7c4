/** Kernel, CPU and memory together.

    The kernel decides with `ultimoPIDSuspendido` which header a dispatched process is sent
    with, the CPU decides with `pidProcesoEnExec` and the header whether to flush its TLB
    (cpu/src/cpu_kernel_server.c, lines 147-150), and memory moves pages underneath.
    Module FlushProtocol says when that is enough; here it is what keeps the translations in
    the TLB those of the process that runs.
 */
module SystemRun {
  import Arith
  import opened Paging
  import opened Addressing
  import opened VirtualMemory
  import opened MemoryProofs
  import opened FlatMemory
  import opened RequestRuns
  import opened Translation
  import opened CpuMemory
  import Q = Queues
  import S = Scheduler
  import P = FlushProtocol
  import T = TlbCache

  /** `running` is `pidProcesoEnExec`, -1 before the first dispatch. */
  datatype System = System(k: S.Kernel, m: Cpu, running: int)

  /** A step of the kernel's threads, or one of the running process's access to memory. */
  datatype Action = Sched(e: S.Event) | Use(u: CpuMemory.Event)

  // ---------------------------------------------------------------- steps

  /** The header of lines 312-318 and the CPU's test. */
  predicate Flushes(y: System, p: nat) {
    y.k.lastSuspended == p || y.running != p
  }

  /** Sizes are those memory accepts, timers fire in order where that matters, an access
      keeps inside the process and inside a page, and is over before the CPU gives the process
      back: a read has been answered, a write has been sent (module InFlight). */
  predicate Allows(y: System, a: Action) {
    match a
    case Sched(e) =>
      && S.Enabled(y.k, e) && !e.Touch?
      && (e.Arrive? ==> e.size <= y.m.s.c.K * y.m.s.c.T)
      && (e.Answered? ==> y.m.at.Idle?)
      && P.InTurn(y.k, e)
    case Use(u) =>
      && y.k.attend == S.AtCpu && Accesses(u)
      && (u.Begin? ==> y.m.at.Idle? && InProcess(y.m.s, y.m.id, u.l))
      && (u.AskTable? ==> y.m.at.Missed?)
      && (u.AskFrame? ==> y.m.at.Tabled?)
      && (u.Fetch? || u.Put? ==> y.m.at.Located?)
      && (u.Put? ==> |u.v| == WORD)
  }

  /** What memory and CPU do while the kernel takes a step. */
  function Effect(y: System, a: Action): seq<CpuMemory.Event>
    requires a.Sched? ==> S.Enabled(y.k, a.e) && S.Steady(y.k, a.e)
  {
    match a
    case Use(u) => [u]
    case Sched(e) =>
      match e
      case Admit =>
        if y.k.susReadyQ == [] then [Ask(Create(y.k.pcbs[y.k.newQ[0]].size))] else []
      case Send =>
        var p := y.k.execQ[0];
        if Flushes(y, p) then [CpuMemory.Dispatch(y.k.pcbs[p].table)] else []
      case Fire(i, waited) =>
        if S.Suspends(y.k, i, waited) then [Ask(Suspend(y.k.pcbs[y.k.timers[i].pid].table))] else []
      case Release => [Ask(Finish(y.k.pcbs[y.k.exitQ[0]].table))]
      case _ => []
  }

  /** The kernel's reckoning of memory changes with the request that may wake a process. */
  function KernelAfter(y: System, a: Action): S.Kernel
    requires a.Sched? ==> S.Enabled(y.k, a.e) && S.Steady(y.k, a.e)
    requires a.Use? ==> S.Enabled(y.k, S.Touch) && S.Steady(y.k, S.Touch)
  {
    if a.Sched? then S.Step(y.k, a.e) else if a.u.AskTable? then S.Step(y.k, S.Touch) else y.k
  }

  function RunningAfter(y: System, a: Action): int
    requires a.Sched? ==> S.Enabled(y.k, a.e) && S.Steady(y.k, a.e)
  {
    if a.Sched? && a.e.Send? then y.k.execQ[0] else y.running
  }

  // ---------------------------------------------------------------- invariant

  /** The kernel's picture of memory is the truth. */
  ghost predicate Pictured(y: System) {
    && y.k.mem.active == y.m.s.swap.Keys - y.m.s.suspended.Keys
    && y.k.mem.suspended == y.m.s.suspended.Keys
    && y.k.mem.nextTable == y.m.s.nextId
    && y.k.slots == y.m.s.c.P
    && forall p | p in y.k.pcbs :: y.k.pcbs[p].size <= y.m.s.c.K * y.m.s.c.T
  }

  /** The TLB no longer holds translations of the process that ran last. */
  predicate Stale(y: System) {
    y.running >= 0 && y.running in y.k.pcbs && y.m.id != y.k.pcbs[y.running].table
  }

  function WatchOf(y: System): P.Watch {
    P.Watch(y.k, y.running, Stale(y))
  }

  /** The flush protocol, for the staleness the TLB really has. */
  ghost predicate FlushOk(y: System) {
    P.WatchOk(WatchOf(y)) && (y.running < 0 ==> y.m.id == 0)
  }

  /** An access is in hand only while the CPU has the process. */
  predicate AtRest(y: System) {
    y.k.attend == S.AtCpu || y.m.at.Idle?
  }

  ghost predicate SysInv(y: System) {
    S.Inv(y.k) && Trusted(y.m) && Harmless(y.m.s.c, |y.m.t.slots|) && Pictured(y) && FlushOk(y) && AtRest(y)
  }

  // ---------------------------------------------------------------- memory behind the picture

  function Ids(slots: seq<Slot>): (r: set<nat>)
  {
    set i | 0 <= i < |slots| :: slots[i].id
  }

  lemma {:induction false} IdsSize(slots: seq<Slot>)
    requires IdsDistinct(slots) && forall i | 0 <= i < |slots| :: slots[i].id != 0
    ensures |Ids(slots)| == |slots|
  {
    if slots != [] {
      var n := |slots| - 1;
      IdsSize(slots[..n]);
      assert forall i | 0 <= i < n :: slots[..n][i] == slots[i];
      assert Ids(slots) == Ids(slots[..n]) + {slots[n].id};
      assert slots[n].id !in Ids(slots[..n]);
    }
  }

  /** Fewer active processes than slots leave a slot free. */
  lemma FewActiveFree(s: State)
    requires Inv(s) && |s.swap.Keys - s.suspended.Keys| < s.c.P
    ensures HasFree(s)
  {
    hide Good, Vacant;
    if !HasFree(s) {
      assert forall i | 0 <= i < |s.slots| :: s.slots[i].id != 0;
      IdsSize(s.slots);
      assert Ids(s.slots) <= s.swap.Keys - s.suspended.Keys by {
        forall i | 0 <= i < |s.slots| ensures s.slots[i].id in s.swap.Keys - s.suspended.Keys {
          assert SlotOk(s, s.slots[i]);
        }
      }
      Arith.Subsets(Ids(s.slots), s.swap.Keys - s.suspended.Keys);
    }
  }

  // ---------------------------------------------------------------- one step of the whole

  /** The step can be taken: the kernel finds its queues filled, memory and CPU can do
      their part, and an access is not led astray. */
  ghost predicate Ready(y: System, a: Action) {
    && CpuOk(y.m)
    && (a.Sched? ==> S.Enabled(y.k, a.e) && S.Steady(y.k, a.e))
    && (a.Use? ==> S.Enabled(y.k, S.Touch) && S.Steady(y.k, S.Touch))
    && (Effect(y, a) != [] ==> Possible(y.m, Effect(y, a)[0]) && RightEvent(y.m, Effect(y, a)[0]))
  }

  ghost function CpuAfter(y: System, a: Action): Cpu
    requires Ready(y, a)
  {
    if Effect(y, a) == [] then y.m else Step(y.m, Effect(y, a)[0]).0
  }

  ghost function After(y: System, a: Action): System
    requires Ready(y, a)
  {
    System(KernelAfter(y, a), CpuAfter(y, a), RunningAfter(y, a))
  }

  /** The running process has its translations in the TLB, and its table is live. */
  lemma RunningTable(y: System)
    requires S.Inv(y.k) && Inv(y.m.s) && Pictured(y) && FlushOk(y) && y.k.attend == S.AtCpu
    ensures y.k.execQ != [] && y.running == y.k.execQ[0] && y.k.execQ[0] in y.k.pcbs
    ensures y.m.id == y.k.pcbs[y.k.execQ[0]].table && y.m.id in y.m.s.swap
  {
    hide S.OnePlace, S.Tagged, S.Tokens, S.Signals, S.TimersOk;
    S.NeverEmpty(y.k, S.Touch);
    hide Stale;
    TableLive(y, y.k.execQ[0]);
    RunsOwn(y);
  }

  lemma RunsOwn(y: System)
    requires FlushOk(y) && y.k.attend == S.AtCpu && y.running in y.k.pcbs
    ensures y.m.id == y.k.pcbs[y.running].table
  {
  }

  lemma TableLive(y: System, p: nat)
    requires S.Tables(y.k) && Inv(y.m.s) && Pictured(y) && S.Admitted(y.k, p)
    ensures y.k.pcbs[p].table in y.m.s.swap
  {
    SuspendedLive(y.m.s);
    hide Inv;
  }

  lemma SuspendedLive(s: State)
    requires Inv(s)
    ensures s.suspended.Keys <= s.swap.Keys
  {
    hide SlotsOk;
    forall id | id in s.suspended ensures id in s.swap {
      assert SuspendedOk(s, id);
    }
  }

  /** An access of the running process can always be served, and is not led astray. */
  lemma UseReady(y: System, u: CpuMemory.Event)
    requires SysInv(y) && Allows(y, Use(u))
    ensures Ready(y, Use(u))
  {
    hide S.OnePlace, S.Tagged, S.Tokens, S.Signals, S.Tables, S.TimersOk, Inv, Coherent, Right, StageOk, InProcess;
    RunningTable(y);
    S.NeverEmpty(y.k, S.Touch);
    S.WakeFindsSlot(y.k);
    if y.m.id in y.m.s.suspended {
      FewActiveFree(y.m.s);
    }
    LiveNotZero(y.m.s, y.m.id);
    StepTrusted(y.m, u);
  }

  /** So can everything the kernel asks of memory: admission finds a slot, suspension and
      release find their process. */
  lemma SchedReady(y: System, e: S.Event)
    requires SysInv(y) && Allows(y, Sched(e))
    ensures Ready(y, Sched(e))
    ensures e.Admit? && y.k.susReadyQ == [] ==>
              HasFree(y.m.s) && y.k.pcbs[y.k.newQ[0]].size <= y.m.s.c.K * y.m.s.c.T
  {
    hide S.Inv, Inv, Trusted, FlushOk, S.Suspends, S.Elects, S.Steady, CpuOk, Pictured;
    TrustedOk(y);
    S.NeverEmpty(y.k, e);
    match e
    case Admit => AdmitReady(y);
    case Send => SendReady(y);
    case Fire(i, waited) => FireReady(y, i, waited);
    case Release => ReleaseReady(y);
    case _ =>
  }

  lemma AdmitReady(y: System)
    requires SysInv(y) && S.Enabled(y.k, S.Admit) && S.Steady(y.k, S.Admit)
    ensures Ready(y, Sched(S.Admit))
    ensures y.k.susReadyQ == [] ==> HasFree(y.m.s) && y.k.pcbs[y.k.newQ[0]].size <= y.m.s.c.K * y.m.s.c.T
  {
    hide S.Inv, Inv, Trusted, FlushOk, CpuOk;
    TrustedOk(y);
    if y.k.susReadyQ == [] {
      S.AdmissionFindsSlot(y.k);
      FewActiveFree(y.m.s);
    }
  }

  lemma SendReady(y: System)
    requires SysInv(y) && S.Enabled(y.k, S.Send) && S.Steady(y.k, S.Send)
    ensures Ready(y, Sched(S.Send))
  {
    hide S.Inv, Inv, Trusted, FlushOk, CpuOk;
    TrustedOk(y);
    P.AdmittedPlace(y.k, y.k.execQ[0]);
    TableParts(y.k);
    TableLive(y, y.k.execQ[0]);
  }

  lemma FireReady(y: System, i: nat, waited: nat)
    requires SysInv(y) && S.Enabled(y.k, S.Fire(i, waited))
    ensures Ready(y, Sched(S.Fire(i, waited)))
  {
    hide S.Inv, Inv, Trusted, FlushOk, CpuOk, Pictured, S.LetThrough;
    TrustedOk(y);
    if S.Suspends(y.k, i, waited) {
      FiresLive(y, i, waited);
      NotInHand(y, y.k.timers[i].pid);
    }
  }

  lemma ReleaseReady(y: System)
    requires SysInv(y) && S.Enabled(y.k, S.Release) && S.Steady(y.k, S.Release)
    ensures Ready(y, Sched(S.Release))
  {
    hide S.Inv, Inv, Trusted, FlushOk, CpuOk, Pictured;
    TrustedOk(y);
    P.AdmittedPlace(y.k, y.k.exitQ[0]);
    TableParts(y.k);
    TableLive(y, y.k.exitQ[0]);
    NotInHand(y, y.k.exitQ[0]);
  }

  /** Whoever is suspended or ends is not the process whose access is in hand. */
  lemma NotInHand(y: System, p: nat)
    requires SysInv(y) && (p in y.k.blockedQ || p in y.k.exitQ)
    ensures p in y.k.pcbs && (y.k.pcbs[p].table == y.m.id ==> y.k.attend != S.AtCpu && y.m.at.Idle?)
  {
    hide S.Inv, Trusted, Inv, P.WatchOk, Stale, StageOk;
    TrustedOk(y);
    P.AdmittedPlace(y.k, p);
    if y.k.attend == S.AtCpu {
      RunningTable(y);
      var r := y.k.execQ[0];
      P.AdmittedPlace(y.k, r);
      P.NotBlocked(y.k, r);
      ExecNotExit(y.k, p);
      TablesApart(y.k, p, r);
    }
  }

  lemma ExecNotExit(k: S.Kernel, p: nat)
    requires S.Inv(k) && k.execQ != [] && (p in k.blockedQ || p in k.exitQ)
    ensures p != k.execQ[0]
  {
    hide S.Tokens, S.Signals, S.Tables, S.TimersOk, Q.NoDup;
    assert k.execQ[0] in k.execQ;
    S.OnceOnly(k, k.execQ[0]);
    hide S.OnePlace;
  }

  lemma FiresLive(y: System, i: nat, waited: nat)
    requires S.Inv(y.k) && Inv(y.m.s) && Pictured(y) && i < |y.k.timers| && S.Suspends(y.k, i, waited)
    ensures S.Admitted(y.k, y.k.timers[i].pid)
    ensures y.k.pcbs[y.k.timers[i].pid].table in y.m.s.swap
  {
    P.AdmittedPlace(y.k, y.k.timers[i].pid);
    TableLive(y, y.k.timers[i].pid);
    hide S.OnePlace, S.Tagged, S.Tokens, S.Signals, S.TimersOk, S.Tables;
  }

  // ---------------------------------------------------------------- what a step keeps

  lemma CpuTrusted(y: System, a: Action)
    requires SysInv(y) && Ready(y, a)
    ensures Trusted(CpuAfter(y, a)) && CpuAfter(y, a).s.c == y.m.s.c && |CpuAfter(y, a).t.slots| == |y.m.t.slots|
  {
    hide Inv, Coherent, Right, S.Inv, Step, Possible, RightEvent, Pictured, FlushOk, Effect;
    if Effect(y, a) != [] {
      StepTrusted(y.m, Effect(y, a)[0]);
      StepKeeps(y.m, Effect(y, a)[0]);
    }
  }

  // ---------------------------------------------------------------- the picture

  lemma UsePicture(y: System, u: CpuMemory.Event)
    requires SysInv(y) && Allows(y, Use(u)) && Ready(y, Use(u))
    ensures Pictured(After(y, Use(u))) && CpuAfter(y, Use(u)).id == y.m.id
  {
    hide S.Inv, Inv, Step, Possible, RightEvent, FlushOk, StageOk;
    hide S.OnePlace, S.Tagged, S.Tokens, S.Signals, S.Tables, S.TimersOk;
    TrustedOk(y);
    RunningTable(y);
    UseTables(y.m, u);
    assert y.k.mem.active + {y.m.id} == y.m.s.swap.Keys - (y.m.s.suspended.Keys - {y.m.id});
    assert y.m.id !in y.k.mem.suspended ==>
        && y.k.mem.active + {y.m.id} == y.k.mem.active
        && y.m.s.suspended.Keys - {y.m.id} == y.m.s.suspended.Keys;
  }

  lemma TrustedOk(y: System)
    requires SysInv(y)
    ensures Inv(y.m.s) && ConfigOk(y.m.s.c) && CpuOk(y.m) && S.Inv(y.k) && Pictured(y) && FlushOk(y) && AtRest(y)
  {
  }

  lemma AdmitPicture(y: System)
    requires SysInv(y) && Allows(y, Sched(S.Admit)) && Ready(y, Sched(S.Admit)) && y.k.susReadyQ == []
    ensures Pictured(After(y, Sched(S.Admit)))
  {
    hide S.Inv, Inv, FlushOk, CpuOk, Trusted, SysInv, S.Tables, S.Step, S.FromNew, S.HandOff, CpuAfter, Step;
    TrustedOk(y);
    S.AdmissionFindsSlot(y.k);
    S.StepSizes(y.k, S.Admit, y.m.s.c.K * y.m.s.c.T);
    AdmitServed(y);
    SuspendedLive(y.m.s);
    AdmitMem(y.k);
    var n := y.m.s.nextId;
    assert y.k.mem.active + {n} == (y.m.s.swap.Keys + {n}) - y.m.s.suspended.Keys;
    hide S.Steady, S.Enabled, Ready;
  }

  /** What memory makes of an admission. */
  lemma AdmitServed(y: System)
    requires SysInv(y) && Allows(y, Sched(S.Admit)) && Ready(y, Sched(S.Admit)) && y.k.susReadyQ == []
    ensures var s, s' := y.m.s, CpuAfter(y, Sched(S.Admit)).s;
            && s'.swap.Keys == s.swap.Keys + {s.nextId} && s.nextId !in s.swap && s'.suspended == s.suspended
            && s'.nextId == s.nextId + 1 && s'.c == s.c
  {
    hide S.Inv, Inv, FlushOk, Serve, CpuOk, Trusted, SysInv, Pictured, Untouched;
    TrustedOk(y);
    SchedReady(y, S.Admit);
    var r := Create(y.k.pcbs[y.k.newQ[0]].size);
    KernelTables(y.m.s, r);
    ServeConfig(y.m.s, r);
  }

  lemma AdmitMem(k: S.Kernel)
    requires S.Enabled(k, S.Admit) && S.Steady(k, S.Admit) && k.susReadyQ == [] && |k.mem.active| < k.slots
    ensures var k' := S.Step(k, S.Admit);
            && k'.mem == S.Mem(k.mem.active + {k.mem.nextTable}, k.mem.suspended, k.mem.nextTable + 1)
            && k'.slots == k.slots
  {
  }

  lemma FirePicture(y: System, i: nat, waited: nat)
    requires SysInv(y) && Allows(y, Sched(S.Fire(i, waited))) && Ready(y, Sched(S.Fire(i, waited)))
    requires S.Suspends(y.k, i, waited)
    ensures Pictured(After(y, Sched(S.Fire(i, waited))))
  {
    hide S.Inv, Inv, FlushOk, Q.Without, S.LetThrough;
    TrustedOk(y);
    var e := S.Fire(i, waited);
    FiresLive(y, i, waited);
    var t := y.k.pcbs[y.k.timers[i].pid].table;
    S.StepSizes(y.k, e, y.m.s.c.K * y.m.s.c.T);
    KernelTables(y.m.s, Suspend(t));
    ServeConfig(y.m.s, Suspend(t));
    hide Serve;
  }

  lemma ReleasePicture(y: System)
    requires SysInv(y) && Allows(y, Sched(S.Release)) && Ready(y, Sched(S.Release))
    ensures Pictured(After(y, Sched(S.Release)))
  {
    hide S.Inv, Inv, FlushOk, CpuOk, Trusted, CpuAfter, Step;
    TrustedOk(y);
    S.StepSizes(y.k, S.Release, y.m.s.c.K * y.m.s.c.T);
    ReleaseServed(y, y.k.pcbs[y.k.exitQ[0]].table);
    ReleaseMem(y.k);
    hide S.Step, S.Steady, S.Enabled, Ready;
  }

  lemma ReleaseMem(k: S.Kernel)
    requires S.Enabled(k, S.Release) && S.Steady(k, S.Release)
    ensures var k' := S.Step(k, S.Release);
            var t := k.pcbs[k.exitQ[0]].table;
            && k'.mem == S.Mem(k.mem.active - {t}, k.mem.suspended - {t}, k.mem.nextTable) && k'.slots == k.slots
  {
  }

  /** What memory makes of a release. */
  lemma ReleaseServed(y: System, t: nat)
    requires y.k.exitQ != [] && y.k.exitQ[0] in y.k.pcbs && t == y.k.pcbs[y.k.exitQ[0]].table
    requires Ready(y, Sched(S.Release)) && SysInv(y)
    ensures var s, s' := y.m.s, CpuAfter(y, Sched(S.Release)).s;
            && s'.swap.Keys == s.swap.Keys - {t} && s'.suspended.Keys == s.suspended.Keys - {t}
            && s'.nextId == s.nextId && s'.c == s.c
  {
    hide S.Inv, Inv, FlushOk, Serve, CpuOk, Trusted, SysInv, Pictured;
    TrustedOk(y);
    KernelTables(y.m.s, Finish(t));
    ServeConfig(y.m.s, Finish(t));
  }

  /** The kernel's picture of memory stays the truth. */
  lemma StepPicture(y: System, a: Action)
    requires SysInv(y) && Allows(y, a) && Ready(y, a)
    ensures Pictured(After(y, a))
  {
    hide S.Inv, Inv, FlushOk, S.Step, Step, Possible, RightEvent, Trusted, CpuOk, S.Steady, S.Enabled;
    match a {
      case Use(u) => UsePicture(y, u);
      case Sched(e) =>
        if e.Admit? && y.k.susReadyQ == [] {
          AdmitPicture(y);
        } else if e.Fire? && S.Suspends(y.k, e.i, e.waited) {
          FirePicture(y, e.i, e.waited);
        } else if e.Release? {
          ReleasePicture(y);
        } else {
          QuietPicture(y, e);
        }
    }
  }

  lemma QuietPicture(y: System, e: S.Event)
    requires Pictured(y) && Allows(y, Sched(e)) && Ready(y, Sched(e)) && !e.Release?
    requires e.Admit? ==> y.k.susReadyQ != []
    requires e.Fire? ==> !S.Suspends(y.k, e.i, e.waited)
    ensures Pictured(After(y, Sched(e)))
  {
    hide CpuOk, S.Step, S.Steady, S.Enabled;
    S.StepSizes(y.k, e, y.m.s.c.K * y.m.s.c.T);
    S.StepFramed(y.k, e, if e.Arrive? then e.size else 0);
    S.StepMem(y.k, e);
  }

  // ---------------------------------------------------------------- the flush protocol

  lemma TablesApart(k: S.Kernel, p: nat, r: nat)
    requires S.Inv(k) && S.Admitted(k, p) && S.Admitted(k, r) && p != r
    ensures k.pcbs[p].table != k.pcbs[r].table
  {
    hide S.OnePlace, S.Tagged, S.Tokens, S.Signals, S.TimersOk;
  }

  /** Nobody's table changes but that of a process being admitted. */
  lemma TableStays(k: S.Kernel, e: S.Event, p: nat)
    requires S.Enabled(k, e) && S.Steady(k, e) && S.Admitted(k, p) && p < k.nextPid
    ensures p in S.Step(k, e).pcbs ==> S.Step(k, e).pcbs[p].table == k.pcbs[p].table
  {
    hide S.HandOff, S.FromNew, S.DoRequeue, S.DoIoDone, S.DoFire, Q.RemoveAt;
    if e.Admit? {
      AdmitTables(k, p);
    } else if e.Requeue? {
      RequeueTables(k, p);
    } else if e.IoDone? {
      IoTables(k, p);
    } else if e.Fire? {
      FireTables(k, e.i, e.waited, p);
    }
  }

  lemma AdmitTables(k: S.Kernel, p: nat)
    requires S.Enabled(k, S.Admit) && S.Steady(k, S.Admit) && S.Admitted(k, p)
    ensures p in S.Step(k, S.Admit).pcbs && S.Step(k, S.Admit).pcbs[p].table == k.pcbs[p].table
  {
  }

  lemma RequeueTables(k: S.Kernel, p: nat)
    requires |k.flight| > 0 && k.flight[0] in k.pcbs && p in k.pcbs
    ensures p in S.DoRequeue(k).pcbs && S.DoRequeue(k).pcbs[p].table == k.pcbs[p].table
  {
  }

  lemma IoTables(k: S.Kernel, p: nat)
    requires |k.device| > 0 && k.device[0] in k.pcbs && p in k.pcbs
    ensures p in S.DoIoDone(k).pcbs && S.DoIoDone(k).pcbs[p].table == k.pcbs[p].table
  {
    hide Q.Without;
  }

  lemma FireTables(k: S.Kernel, i: nat, waited: nat, p: nat)
    requires i < |k.timers| && p in k.pcbs
    ensures p in S.DoFire(k, i, waited).pcbs && S.DoFire(k, i, waited).pcbs[p].table == k.pcbs[p].table
  {
    hide Q.Without, S.LetThrough;
  }

  /** The process that ran last, if it is still there, was there and admitted. */
  lemma LastLive(y: System, e: S.Event)
    requires FlushOk(y) && S.Enabled(y.k, e) && S.Steady(y.k, e)
    requires y.running >= 0 && y.running in S.Step(y.k, e).pcbs
    ensures S.Admitted(y.k, y.running) && S.Step(y.k, e).pcbs[y.running].table == y.k.pcbs[y.running].table
  {
    hide S.Step;
    P.StillLive(WatchOf(y), e);
    TableStays(y.k, e, y.running);
  }

  lemma SendStale(y: System)
    requires SysInv(y) && Ready(y, Sched(S.Send))
    ensures !Stale(After(y, Sched(S.Send)))
  {
    hide S.Inv, Inv, Pictured, CpuOk, Trusted, P.WatchOk;
    TrustedOk(y);
    P.WatchSound(WatchOf(y));
  }

  lemma FireStale(y: System, i: nat, waited: nat)
    requires SysInv(y) && Ready(y, Sched(S.Fire(i, waited))) && S.Suspends(y.k, i, waited)
    requires Stale(After(y, Sched(S.Fire(i, waited)))) && !Stale(y)
    ensures y.k.timers[i].pid == y.running
  {
    hide S.Inv, Inv, Pictured, CpuOk, Trusted, Serve, P.WatchOk;
    var e := S.Fire(i, waited);
    TrustedOk(y);
    LastLive(y, e);
    var p := y.k.timers[i].pid;
    P.AdmittedPlace(y.k, p);
    hide S.Step, S.Suspends;
    if y.running != p {
      TablesApart(y.k, p, y.running);
    }
  }

  lemma ReleaseStale(y: System)
    requires SysInv(y) && Ready(y, Sched(S.Release))
    ensures Stale(After(y, Sched(S.Release))) ==> Stale(y)
  {
    hide S.Inv, Inv, Pictured, CpuOk, Trusted, Serve, P.WatchOk;
    TrustedOk(y);
    var p := y.k.exitQ[0];
    P.AdmittedPlace(y.k, p);
    if Stale(After(y, Sched(S.Release))) {
      LastLive(y, S.Release);
      if y.running != p {
        TablesApart(y.k, p, y.running);
      }
    }
  }

  lemma RestStale(y: System, e: S.Event)
    requires SysInv(y) && Ready(y, Sched(e)) && CpuAfter(y, Sched(e)).id == y.m.id && !e.Send?
    ensures Stale(After(y, Sched(e))) ==> Stale(y)
  {
    hide S.Inv, Inv, Pictured, CpuOk, Trusted, CpuAfter, Serve, P.WatchOk, S.Step, Possible, RightEvent, Effect;
    if Stale(After(y, Sched(e))) {
      TrustedOk(y);
      LastLive(y, e);
    }
  }

  /** The CPU loses the translations of the process that ran last only when it is suspended. */
  lemma StaleStep(y: System, e: S.Event)
    requires SysInv(y) && Ready(y, Sched(e))
    ensures Stale(After(y, Sched(e))) ==> P.Observe(WatchOf(y), e).stale
  {
    hide S.Inv, Inv, Pictured, CpuOk, Trusted, Stale, FlushOk, S.Step, SysInv, After, S.Suspends;
    if e.Send? {
      SendStale(y);
    } else if e.Release? {
      ReleaseStale(y);
    } else if e.Fire? && S.Suspends(y.k, e.i, e.waited) {
      if Stale(After(y, Sched(e))) && !Stale(y) {
        FireStale(y, e.i, e.waited);
      }
    } else {
      NewKeepsOwner(y, e);
      RestStale(y, e);
    }
  }

  lemma NewKeepsOwner(y: System, e: S.Event)
    requires Ready(y, Sched(e)) && !e.Send? && !e.Release? && (e.Fire? ==> !S.Suspends(y.k, e.i, e.waited))
    ensures CpuAfter(y, Sched(e)).id == y.m.id
  {
    hide CpuOk, Serve, S.Steady, S.Suspends;
  }

  /** Less stale is as good. */
  lemma LessStale(w: P.Watch, stale: bool)
    requires P.WatchOk(w) && (stale ==> w.stale)
    ensures P.WatchOk(w.(stale := stale))
  {
    hide P.LastBlock, P.Guarded;
  }

  /** Before the first dispatch the TLB is nobody's. */
  lemma NobodyYet(y: System, a: Action)
    requires Ready(y, a) && (y.running < 0 ==> y.m.id == 0) && (a.Use? ==> y.running >= 0)
    ensures RunningAfter(y, a) < 0 ==> CpuAfter(y, a).id == 0
  {
    hide CpuOk, Serve, S.Suspends, Possible, RightEvent;
    if a.Sched? && Effect(y, a) != [] {
      assert Effect(y, a)[0].Dispatch? ==> a.e.Send?;
      assert Effect(y, a)[0].Dispatch? || Effect(y, a)[0].Ask?;
    }
  }

  /** An access changes nothing the protocol depends on. */
  lemma UseFlush(y: System, u: CpuMemory.Event)
    requires SysInv(y) && Allows(y, Use(u)) && Ready(y, Use(u))
    ensures FlushOk(After(y, Use(u)))
  {
    hide S.Inv, Inv, Pictured, S.Step, Step, Possible, RightEvent, Trusted, CpuOk, S.Steady, S.Enabled, Effect;
    hide P.WatchOk, StageOk;
    TrustedOk(y);
    UsePicture(y, u);
    RunningTable(y);
    var k' := KernelAfter(y, Use(u));
    if u.AskTable? {
      P.WatchStep(WatchOf(y), S.Touch);
      TouchPcbs(y.k);
    }
    hide CpuAfter;
  }

  lemma TouchPcbs(k: S.Kernel)
    requires S.Enabled(k, S.Touch) && S.Steady(k, S.Touch)
    ensures S.Step(k, S.Touch).pcbs == k.pcbs && S.Step(k, S.Touch).attend == S.AtCpu
  {
  }

  /** The flush protocol holds after every step, timers firing in order where that matters. */
  lemma StepFlush(y: System, a: Action)
    requires SysInv(y) && Allows(y, a) && Ready(y, a)
    ensures FlushOk(After(y, a))
  {
    hide S.Inv, Inv, Pictured, S.Step, Step, Possible, RightEvent, Trusted, CpuOk, S.Steady, S.Enabled;
    hide P.WatchOk, P.SuspendsLast, Stale, Effect, StageOk;
    TrustedOk(y);
    if a.Use? {
      UseFlush(y, a.u);
    } else {
      P.WatchStep(WatchOf(y), a.e);
      StaleStep(y, a.e);
      NobodyYet(y, a);
      LessStale(P.Observe(WatchOf(y), a.e), Stale(After(y, a)));
    }
    hide CpuAfter;
  }

  /** An access is begun by the process the CPU has, and the CPU keeps it until it is served. */
  lemma StepAtRest(y: System, a: Action)
    requires SysInv(y) && Allows(y, a) && Ready(y, a)
    ensures AtRest(After(y, a))
  {
    hide S.Inv, Inv, Pictured, Possible, RightEvent, Trusted, CpuOk, S.Steady, FlushOk, Serve;
    hide S.DoArrive, S.HandOff, S.FromNew, S.DoPick, S.DoRequeue, S.DoTouch, S.DoIoDone, S.DoFire, S.DoRelease;
    hide S.Elects, S.Suspends, Framed, Looked, Locate, ServeTable, ServeRead, ServeWrite;
    if a.Sched? {
      SchedAttend(y.k, a.e);
      SchedStage(y, a.e);
    } else {
      TouchPcbs(y.k);
    }
    hide S.Step, Step;
  }

  lemma SchedAttend(k: S.Kernel, e: S.Event)
    requires S.Enabled(k, e) && S.Steady(k, e)
    ensures !e.Answered? && k.attend == S.AtCpu ==> S.Step(k, e).attend == S.AtCpu
  {
    hide Q.Without, S.LetThrough, Q.RemoveAt, S.Elects, S.Charged;
  }

  lemma SchedStage(y: System, e: S.Event)
    requires Ready(y, Sched(e))
    ensures CpuAfter(y, Sched(e)).at == y.m.at
  {
    hide CpuOk, Serve, S.Steady, S.Suspends, S.Elects;
  }

  // ---------------------------------------------------------------- every step, every run

  /** Whatever the system is allowed to do next it can do, and everything holds again:
      scheduling, tokens, page tables, coherence of the TLB, the flush protocol. */
  lemma SysStep(y: System, a: Action)
    requires SysInv(y) && Allows(y, a)
    ensures Ready(y, a) && SysInv(After(y, a))
  {
    hide S.Inv, Inv, Pictured, FlushOk, AtRest, Trusted, S.Step, Step;
    match a {
      case Use(u) => UseReady(y, u); KernelPart(y); S.StepInv(y.k, S.Touch);
      case Sched(e) => SchedReady(y, e); KernelPart(y); S.StepInv(y.k, e);
    }
    CpuTrusted(y, a);
    StepPicture(y, a);
    StepFlush(y, a);
    StepAtRest(y, a);
  }

  lemma KernelPart(y: System)
    requires SysInv(y)
    ensures S.Inv(y.k)
  {
  }

  /** A process dispatched without a flush ran last and was not suspended since: every
      translation in the TLB is one of its own, and right. */
  lemma DispatchWithoutFlush(y: System)
    requires SysInv(y) && S.Enabled(y.k, S.Send)
    ensures y.k.execQ != [] && y.k.execQ[0] in y.k.pcbs
    ensures var p := y.k.execQ[0];
            !Flushes(y, p) ==>
              && y.running == p && y.m.id == y.k.pcbs[p].table && y.m.id != 0
              && y.m.s.c.T > 0 && y.m.s.c.M > 0 && Coherent(y.m.s, y.m.id, y.m.t)
  {
    hide S.Inv, Inv, Coherent, P.WatchOk;
    TrustedOk(y);
    P.WatchSound(WatchOf(y));
    S.NeverEmpty(y.k, S.Send);
    var p := y.k.execQ[0];
    P.AdmittedPlace(y.k, p);
    TableParts(y.k);
    TableLive(y, p);
    LiveNotZero(y.m.s, y.k.pcbs[p].table);
  }

  /** A dispatch empties the TLB exactly when another process ran last or this one is the one
      suspended last; otherwise CPU and memory go on as they were. */
  lemma DispatchFlushesIff(y: System)
    requires SysInv(y) && S.Enabled(y.k, S.Send)
    ensures y.k.execQ != [] && y.k.execQ[0] in y.k.pcbs && Ready(y, Sched(S.Send))
    ensures var p, m' := y.k.execQ[0], After(y, Sched(S.Send)).m;
            && m'.s == y.m.s && m'.id == y.k.pcbs[p].table && After(y, Sched(S.Send)).running == p
            && (if y.running != p || y.k.lastSuspended == p then
                  m'.t == y.m.t.(slots := m'.t.slots, free := |y.m.t.slots|)
                  && |m'.t.slots| == |y.m.t.slots| && forall i | 0 <= i < |m'.t.slots| :: m'.t.slots[i] == T.EMPTY
                else m' == y.m)
  {
    hide S.Inv, Inv, Coherent, P.WatchOk, CpuOk;
    DispatchWithoutFlush(y);
    TrustedOk(y);
    KernelPart(y);
    S.NeverEmpty(y.k, S.Send);
    SendReady(y);
    hide SysInv;
  }

  lemma TableParts(k: S.Kernel)
    requires S.Inv(k)
    ensures S.Tables(k)
  {
  }

  /** Every action is allowed in its turn. */
  ghost predicate Proceeds(y: System, actions: seq<Action>)
    requires SysInv(y)
    decreases |actions|
  {
    actions == [] || (Allows(y, actions[0]) && Proceeds(Onward(y, actions[0]), actions[1..]))
  }

  ghost function Onward(y: System, a: Action): (y': System)
    requires SysInv(y) && Allows(y, a)
    ensures SysInv(y') && Ready(y, a) && y' == After(y, a)
  {
    SysStep(y, a);
    hide *;
    After(y, a)
  }

  ghost function Finally(y: System, actions: seq<Action>): (y': System)
    requires SysInv(y) && Proceeds(y, actions)
    ensures SysInv(y')
    decreases |actions|
  {
    hide SysInv, After;
    if actions == [] then y else Finally(Onward(y, actions[0]), actions[1..])
  }

  /** What the CPU and memory do over a run. */
  ghost function Effects(y: System, actions: seq<Action>): seq<CpuMemory.Event>
    requires SysInv(y) && Proceeds(y, actions)
    decreases |actions|
  {
    hide SysInv, After;
    if actions == [] then [] else Effect(y, actions[0]) + Effects(Onward(y, actions[0]), actions[1..])
  }

  lemma EffectAtMostOne(y: System, a: Action)
    requires Ready(y, a)
    ensures Effect(y, a) == [] || Effect(y, a) == [Effect(y, a)[0]]
  {
    hide CpuOk, S.Steady, S.Suspends;
  }

  /** The run of the system is a run of CPU and memory. */
  lemma {:induction false} EffectsGo(y: System, actions: seq<Action>)
    requires SysInv(y) && Proceeds(y, actions) && CpuOk(y.m)
    ensures Goes(y.m, Effects(y, actions)) && CpuRun(y.m, Effects(y, actions)) == Finally(y, actions).m
    decreases |actions|
  {
    hide SysInv, CpuOk, Step, Effect, Possible, RightEvent, KernelAfter;
    if actions != [] {
      var a, rest := actions[0], actions[1..];
      var y' := Onward(y, a);
      OkOf(y');
      EffectAtMostOne(y, a);
      EffectsGo(y', rest);
      var es := Effect(y, a);
      if es == [] {
        assert Effects(y, actions) == Effects(y', rest);
      } else {
        assert Effects(y, actions)[0] == es[0];
        assert Effects(y, actions)[1..] == Effects(y', rest);
      }
    }
  }

  lemma OkOf(y: System)
    requires SysInv(y)
    ensures CpuOk(y.m)
  {
  }

  // ---------------------------------------------------------------- from power-on

  /** Degree of multiprogramming, limit of a block, algorithm, alfa and initial estimate of the
      kernel; memory; the entries of the TLB and their policy. */
  datatype Setup = Setup(degree: nat, limit: nat, srt: bool, alfa: real, initial: real,
                         c: Config, entries: nat, policy: T.Policy)

  /** A degree memory has slots for, and tables, frames and TLB entries to work with. */
  ghost predicate Sized(u: Setup) {
    u.degree <= u.c.P && ConfigOk(u.c) && u.entries > 0
  }

  ghost predicate SetupOk(u: Setup) {
    Sized(u) && Harmless(u.c, u.entries)
  }

  /** Everything at its start: nothing dispatched, nothing in memory, no process. */
  function Switched(u: Setup): System {
    System(S.Init(u.degree, u.c.P, u.limit, u.srt, u.alfa, u.initial), Start(u.c, u.entries, u.policy), -1)
  }

  ghost function PowerOn(u: Setup): (y: System)
    requires SetupOk(u)
    ensures SysInv(y) && y == Switched(u) && y.m == Start(u.c, u.entries, u.policy)
  {
    PowerOnInv(u);
    Switched(u)
  }

  lemma PowerOnInv(u: Setup)
    requires SetupOk(u)
    ensures SysInv(Switched(u))
  {
    S.InitInv(u.degree, u.c.P, u.limit, u.srt, u.alfa, u.initial);
    hide S.Inv, Coherent;
    var m := Start(u.c, u.entries, u.policy);
    assert m.s.swap.Keys == {} && m.s.suspended.Keys == {};
  }

  /** The whole machine: from power-on, with a degree memory has slots for and a TLB that
      cannot go stale, under any interleaving of schedulers, device, timers (in order under
      SRT with alfa other than 0, in any order otherwise), dispatches and single requests to
      memory, the running process fetches what the flat array of its process holds. */
  lemma ProgramsSeeFlatMemory(u: Setup, actions: seq<Action>)
    requires SetupOk(u) && Proceeds(PowerOn(u), actions) && Allows(Finally(PowerOn(u), actions), Use(Fetch))
    ensures var y0 := PowerOn(u);
            var y := Finally(y0, actions);
            && CpuOk(y0.m) && Goes(y0.m, Effects(y0, actions))
            && y.k.execQ != [] && y.k.execQ[0] in y.k.pcbs
            && CpuOk(y.m) && Possible(y.m, Fetch)
            && var id := y.k.pcbs[y.k.execQ[0]].table;
               var l := y.m.at.l;
               var reply := Step(y.m, Fetch).1;
               && y.m.id == id && reply.Value?
               && Agrees(FlatAfter(y0.m, map[], Effects(y0, actions)), id, PageNo(u.c, l.e1, l.e2), l.off, reply.v)
  {
    var y0 := PowerOn(u);
    var y := Finally(y0, actions);
    hide S.Inv, Inv, Trusted, Pictured, FlushOk, CpuRun, FlatAfter, Goes, Step, Agrees, Allows, StageOk, CpuOk;
    hide Possible, RightEvent, PowerOn, Switched, Start, Proceeds, Finally, Effects, Ready, AllRight;
    OkOf(y0);
    EffectsGo(y0, actions);
    OkOf(y);
    RunningTableOf(y, Fetch);
    UseReady(y, Fetch);
    UsePossible(y, Fetch);
    assert Represents(y0.m.s, map[]);
    hide Represents;
    FetchIsFlat(y0.m, map[], Effects(y0, actions));
  }

  lemma RunningTableOf(y: System, u: CpuMemory.Event)
    requires SysInv(y) && Allows(y, Use(u))
    ensures y.k.execQ != [] && y.k.execQ[0] in y.k.pcbs && y.m.id == y.k.pcbs[y.k.execQ[0]].table
  {
    hide S.Inv, Inv, StageOk;
    RunningTable(y);
  }

  lemma UsePossible(y: System, u: CpuMemory.Event)
    requires Ready(y, Use(u))
    ensures Possible(y.m, u) && RightEvent(y.m, u)
  {
  }
}
