/** Programs under the kernel's own schedule: consoles send them, the schedulers choose who
    runs and with which header it is sent, the CPU executes their instructions and memory
    moves their pages.

    The machine is SystemRun's together with ProgramRun's.  What it adds is which instruction
    an answer of the CPU comes from, and which process each program belongs to.
 */
module WholeRun {
  import opened Paging
  import opened VirtualMemory
  import opened Addressing
  import opened MemoryProofs
  import opened FlatMemory
  import opened Translation
  import opened CpuMemory
  import opened SystemRun
  import X = ProgramRun
  import C = Codec
  import Q = Queues
  import S = Scheduler
  import P = FlushProtocol
  import T = TlbCache

  /** The program of each process is in its PCB; `x` has those in memory by page table. */
  datatype Whole = Whole(y: System, x: X.Machine, programs: map<nat, seq<C.Instr>>)

  datatype Act =
    | Load(size: nat, program: seq<C.Instr>)   // a console sends a program
    | Kernel(e: S.Event)                       // any other step of the kernel
    | Memory(u: CpuMemory.Event)               // a step of the current instruction's access
    | NoOp                                     // the current instruction is NO_OP

  /** What the kernel and memory do. */
  function ActionOf(a: Act): seq<Action> {
    match a
    case Load(size, _) => [Sched(S.Arrive(size))]
    case Kernel(e) => [Sched(e)]
    case Memory(u) => [Use(u)]
    case NoOp => []
  }

  /** What that is to the programs. */
  function TurnOf(w: Whole, a: Act): seq<X.Turn>
    requires a.Kernel? ==> S.Enabled(w.y.k, a.e) && S.Steady(w.y.k, a.e)
  {
    var k := w.y.k;
    match a
    case Load(_, _) => []
    case Memory(u) => [X.Access(u)]
    case NoOp => [X.Plain]
    case Kernel(e) =>
      match e
      case Admit =>
        if k.susReadyQ == [] && k.newQ[0] in w.programs
        then [X.Admit(k.pcbs[k.newQ[0]].size, w.programs[k.newQ[0]])] else []
      case Send => if Flushes(w.y, k.execQ[0]) then [X.Switch(k.pcbs[k.execQ[0]].table)] else []
      case Answered(answer, _) => if answer.Preempted? then [] else [X.Plain]
      case Fire(i, waited) =>
        if S.Suspends(k, i, waited) then [X.Park(k.pcbs[k.timers[i].pid].table)] else []
      case Release => [X.Retire(k.pcbs[k.exitQ[0]].table)]
      case _ => []
  }

  /** The process ends with EXIT and blocks with I/O for as long as the instruction says; it
      is preempted between instructions. */
  predicate Answers(x: X.Machine, answer: S.Answer) {
    x.held == []
    && (!answer.Preempted? ==> X.Runs(x))
    && (answer.Terminated? ==> X.Current(x).kind == C.EXIT)
    && (answer.Blocked? ==> X.Current(x).kind == C.IO && X.Current(x).op1 == answer.ioTime)
  }

  ghost predicate May(w: Whole, a: Act) {
    && (ActionOf(a) != [] ==> Allows(w.y, ActionOf(a)[0]))
    && match a
       case Load(_, _) => true
       case Memory(u) => X.Fits(w.x, X.Access(u))
       case NoOp => w.y.k.attend == S.AtCpu && X.Fits(w.x, X.Plain) && X.Current(w.x).kind == C.NO_OP
       case Kernel(e) => !e.Arrive? && (e.Answered? ==> Answers(w.x, e.a))
  }

  // ---------------------------------------------------------------- invariant

  /** Both halves are about the same memory, a COPY in progress is the running process's, and
      every admitted process has its program under its page table. */
  ghost predicate Linked(w: Whole) {
    && w.x.m == w.y.m
    && (w.x.held != [] ==> w.y.k.attend == S.AtCpu)
    && (forall p | p in w.y.k.pcbs :: p in w.programs)
    && forall p | S.Admitted(w.y.k, p) ::
         w.y.k.pcbs[p].table in w.x.code && w.x.code[w.y.k.pcbs[p].table] == w.programs[p]
  }

  ghost predicate WholeInv(w: Whole) {
    SysInv(w.y) && X.Good(w.x) && Linked(w)
  }

  // ---------------------------------------------------------------- one act

  /** Both halves can take their part. */
  ghost predicate Fit(w: Whole, a: Act) {
    && (ActionOf(a) != [] ==> Ready(w.y, ActionOf(a)[0]))
    && (a.Kernel? ==> S.Enabled(w.y.k, a.e) && S.Steady(w.y.k, a.e))
    && (TurnOf(w, a) != [] ==> X.Can(w.x, TurnOf(w, a)[0]))
  }

  ghost function SystemAfter(w: Whole, a: Act): System
    requires Fit(w, a)
  {
    if ActionOf(a) == [] then w.y else SystemRun.After(w.y, ActionOf(a)[0])
  }

  ghost function MachineAfter(w: Whole, a: Act): X.Machine
    requires Fit(w, a)
  {
    if TurnOf(w, a) == [] then w.x else X.After(w.x, TurnOf(w, a)[0])
  }

  ghost function Then(w: Whole, a: Act): Whole
    requires Fit(w, a)
  {
    Whole(SystemAfter(w, a), MachineAfter(w, a),
          if a.Load? then w.programs[w.y.k.nextPid := a.program] else w.programs)
  }

  lemma Parts(w: Whole)
    requires WholeInv(w)
    ensures S.Inv(w.y.k) && CpuOk(w.x.m) && CpuOk(w.y.m) && w.x.m == w.y.m && X.CodeOk(w.x)
    ensures AtRest(w.y) && Inv(w.y.m.s) && ConfigOk(w.x.m.s.c)
  {
    hide S.Inv, CpuOk, Coherent, Represents, X.AllMatch, X.HeldOk, Pictured, FlushOk;
    TrustedOk(w.y);
  }

  /** What the kernel and memory do is what the turn of the programs says. */
  lemma SameEvents(w: Whole, a: Act)
    requires Linked(w) && May(w, a) && ActionOf(a) != [] && Ready(w.y, ActionOf(a)[0])
    ensures TurnOf(w, a) == [] ==> Effect(w.y, ActionOf(a)[0]) == []
    ensures TurnOf(w, a) != [] ==> X.EventOf(TurnOf(w, a)[0]) == Effect(w.y, ActionOf(a)[0])
  {
    hide CpuOk, S.Suspends, S.Elects, Allows, X.Fits, Answers, Possible, RightEvent;
  }

  /** The turn is the running program's, and a process is left only between instructions. */
  lemma TurnFits(w: Whole, a: Act)
    requires WholeInv(w) && May(w, a) && (ActionOf(a) != [] ==> Ready(w.y, ActionOf(a)[0])) && TurnOf(w, a) != []
    ensures X.Fits(w.x, TurnOf(w, a)[0])
  {
    hide SysInv, X.Good, CpuOk, S.Enabled, Effect, Possible, Allows, Answers, X.Runs, X.Current;
    if !a.Kernel? {
    } else if a.e.Fire? {
      FireFits(w, a.e.i, a.e.waited);
      hide Linked, S.Suspends;
    } else if a.e.Release? {
      ReleaseFits(w);
      hide Linked;
    } else {
      KernelFits(w, a.e);
    }
  }

  lemma KernelFits(w: Whole, e: S.Event)
    requires Linked(w) && May(w, Kernel(e)) && S.Enabled(w.y.k, e) && S.Steady(w.y.k, e)
    requires TurnOf(w, Kernel(e)) != [] && !e.Fire? && !e.Release?
    ensures X.Fits(w.x, TurnOf(w, Kernel(e))[0])
  {
    hide S.Elects, P.InTurn;
  }

  lemma ReleaseFits(w: Whole)
    requires WholeInv(w) && w.y.k.exitQ != [] && w.y.k.exitQ[0] in w.y.k.pcbs
    ensures w.y.k.pcbs[w.y.k.exitQ[0]].table == w.x.m.id ==> w.x.held == []
  {
    hide S.Inv, CpuOk, SysInv, X.Good, X.CodeOk;
    Parts(w);
    NotInHand(w.y, w.y.k.exitQ[0]);
  }

  lemma FireFits(w: Whole, i: nat, waited: nat)
    requires WholeInv(w) && i < |w.y.k.timers| && S.Suspends(w.y.k, i, waited)
    ensures w.y.k.timers[i].pid in w.y.k.pcbs
    ensures w.y.k.pcbs[w.y.k.timers[i].pid].table == w.x.m.id ==> w.x.held == []
  {
    Parts(w);
    hide S.Inv, CpuOk, SysInv, X.Good, S.LetThrough, X.CodeOk;
    NotInHand(w.y, w.y.k.timers[i].pid);
  }

  lemma ActFits(w: Whole, a: Act)
    requires WholeInv(w) && May(w, a)
    ensures Fit(w, a) && SysInv(SystemAfter(w, a)) && X.Good(MachineAfter(w, a))
  {
    hide S.Inv, CpuOk, SysInv, X.Good, Allows, Possible, X.Fits, Effect, RightEvent, S.Steady, S.Enabled;
    hide X.CodeOk, Linked, X.After;
    Parts(w);
    if ActionOf(a) != [] {
      SysStep(w.y, ActionOf(a)[0]);
      SameEvents(w, a);
    }
    if TurnOf(w, a) != [] {
      TurnFits(w, a);
      X.TurnGood(w.x, TurnOf(w, a)[0]);
    }
  }

  // ---------------------------------------------------------------- what links the halves

  lemma SameMemory(w: Whole, a: Act)
    requires Linked(w) && May(w, a) && Fit(w, a)
    ensures MachineAfter(w, a).m == SystemAfter(w, a).m
  {
    if ActionOf(a) != [] {
      SameEvents(w, a);
    }
    hide Effect, May, Step, S.Steady, S.Enabled, X.Fits, CpuOk, Possible, RightEvent, FlatStep;
  }

  /** Only the running process has a COPY in progress. */
  lemma HeldStays(w: Whole, a: Act)
    requires Linked(w) && May(w, a) && Fit(w, a)
    ensures MachineAfter(w, a).held != [] ==> SystemAfter(w, a).k.attend == S.AtCpu
  {
    hide CpuOk, Possible, RightEvent, Step, S.Step, S.Suspends, S.Elects, FlatStep, P.InTurn, S.Steady;
    if a.Kernel? {
      SchedAttend(w.y.k, a.e);
    } else if a.Memory? && a.u.AskTable? {
      TouchPcbs(w.y.k);
    } else if a.Load? {
      SchedAttend(w.y.k, S.Arrive(a.size));
    }
    hide S.Enabled;
  }

  /** Nobody is admitted but the first of NEW. */
  lemma AdmittedBefore(k: S.Kernel, e: S.Event, p: nat)
    requires S.Enabled(k, e) && S.Steady(k, e) && S.Admitted(S.Step(k, e), p)
    ensures S.Admitted(k, p) || (e.Admit? && k.susReadyQ == [] && p == k.newQ[0])
  {
    hide Q.Without, S.LetThrough, Q.RemoveAt, S.Elects, S.Charged;
  }

  lemma LiveBefore(k: S.Kernel, e: S.Event, p: nat)
    requires S.Enabled(k, e) && S.Steady(k, e) && p in S.Step(k, e).pcbs
    ensures p in k.pcbs || (e.Arrive? && p == k.nextPid)
  {
    hide S.Step, S.Steady, S.Enabled;
    S.StepFramed(k, e, if e.Arrive? then e.size else 0);
    if !e.Arrive? {
      S.StepFramed(k, e, 1);
    }
  }

  /** An admission gets the table number memory answers with. */
  lemma AdmitCode(w: Whole)
    requires WholeInv(w) && May(w, Kernel(S.Admit)) && Fit(w, Kernel(S.Admit)) && w.y.k.susReadyQ == []
    ensures var n := w.y.k.mem.nextTable;
            var p := w.y.k.newQ[0];
            && p in w.programs && n !in w.x.code
            && MachineAfter(w, Kernel(S.Admit)).code == w.x.code[n := w.programs[p]]
            && MachineAfter(w, Kernel(S.Admit)).pc == w.x.pc[n := 0]
            && p in SystemAfter(w, Kernel(S.Admit)).k.pcbs
            && SystemAfter(w, Kernel(S.Admit)).k.pcbs[p].table == n
  {
    hide SysInv, S.Inv, Inv, CpuOk, X.Good, S.Step, Step, S.Enabled, FlatStep, Possible, Pictured, Effect;
    hide X.AllMatch, X.HeldOk;
    Parts(w);
    AdmitReply(w);
    AdmitPcb(w);
    hide Ready, Allows;
  }

  /** What memory answers to an admission. */
  lemma AdmitReply(w: Whole)
    requires WholeInv(w) && May(w, Kernel(S.Admit)) && Fit(w, Kernel(S.Admit)) && w.y.k.susReadyQ == []
    ensures CpuOk(w.x.m)
    ensures var e := Ask(Create(w.y.k.pcbs[w.y.k.newQ[0]].size));
            Possible(w.x.m, e) && Step(w.x.m, e).1 == Id(w.y.k.mem.nextTable)
    ensures w.y.k.mem.nextTable !in w.x.code
  {
    hide SysInv, S.Inv, Inv, CpuOk, X.Good, S.Step, Step, FlatStep, FlushOk, Trusted, HasFree;
    Parts(w);
    TrustedOk(w.y);
    SchedReady(w.y, S.Admit);
    IdNotUsed(w.x.m.s);
    var size := w.y.k.pcbs[w.y.k.newQ[0]].size;
    X.AskStage(w.x.m, Create(size));
    CreateReply(w.x.m.s, size);
  }

  lemma CreateReply(s: State, size: nat)
    requires s.c.T > 0 && size <= s.c.K * s.c.T && HasFree(s)
    ensures ServeCreate(s, size).1 == Id(s.nextId)
  {
  }

  lemma AdmitPcb(w: Whole)
    requires WholeInv(w) && S.Enabled(w.y.k, S.Admit) && S.Steady(w.y.k, S.Admit) && w.y.k.susReadyQ == []
    ensures var p := w.y.k.newQ[0];
            var k' := S.Step(w.y.k, S.Admit);
            p in k'.pcbs && k'.pcbs[p].table == w.y.k.mem.nextTable
  {
    hide S.Inv, SysInv, X.Good, CpuOk;
    Parts(w);
    S.AdmissionFindsSlot(w.y.k);
    AdmitMem(w.y.k);
  }

  lemma IdNotUsed(s: State)
    requires Inv(s)
    ensures s.nextId !in s.swap
  {
  }

  /** The programs in memory after an act. */
  lemma CodeAfter(w: Whole, a: Act)
    requires Linked(w) && May(w, a) && Fit(w, a) && !(a == Kernel(S.Admit) && w.y.k.susReadyQ == [])
    ensures MachineAfter(w, a).code
            == if a == Kernel(S.Release) then w.x.code - {w.y.k.pcbs[w.y.k.exitQ[0]].table} else w.x.code
  {
    hide CpuOk, Possible, RightEvent, Step, S.Suspends, S.Elects, FlatStep, P.InTurn, Allows, Ready;
  }

  /** The kernel's step, if the act is one: a table request may wake the running process. */
  function StepOf(a: Act): seq<S.Event> {
    match a
    case Load(size, _) => [S.Arrive(size)]
    case Kernel(e) => [e]
    case Memory(u) => if u.AskTable? then [S.Touch] else []
    case NoOp => []
  }

  lemma KernelSteps(w: Whole, a: Act)
    requires WholeInv(w) && Fit(w, a)
    ensures if StepOf(a) == [] then SystemAfter(w, a).k == w.y.k
            else S.Enabled(w.y.k, StepOf(a)[0]) && S.Steady(w.y.k, StepOf(a)[0])
                 && SystemAfter(w, a).k == S.Step(w.y.k, StepOf(a)[0])
  {
    hide SysInv, X.Good, S.Step, Step, S.Enabled, S.Steady, Effect, CpuOk, Possible, RightEvent, TurnOf, X.Can;
  }

  /** A process that was admitted keeps its program. */
  lemma CodeKept(w: Whole, a: Act, p: nat)
    requires WholeInv(w) && May(w, a) && Fit(w, a) && S.Admitted(w.y.k, p) && p in SystemAfter(w, a).k.pcbs
    requires !(a == Kernel(S.Admit) && w.y.k.susReadyQ == [])
    ensures var t := SystemAfter(w, a).k.pcbs[p].table;
            t in MachineAfter(w, a).code && p in w.programs && MachineAfter(w, a).code[t] == w.programs[p]
  {
    hide SysInv, S.Inv, X.Good, CpuOk, S.Step, S.Steady, S.Enabled, Ready, X.CodeOk, X.Can, Allows;
    Parts(w);
    KernelSteps(w, a);
    CodeAfter(w, a);
    P.PidBelow(w.y.k, p);
    if StepOf(a) != [] {
      TableStays(w.y.k, StepOf(a)[0], p);
    }
    if a == Kernel(S.Release) {
      ReleaseOther(w.y.k, p);
    }
  }

  lemma ReleaseOther(k: S.Kernel, p: nat)
    requires S.Inv(k) && S.Enabled(k, S.Release) && S.Steady(k, S.Release) && S.Admitted(k, p)
    requires p in S.Step(k, S.Release).pcbs
    ensures k.pcbs[p].table != k.pcbs[k.exitQ[0]].table
  {
    hide S.Inv;
    P.AdmittedPlace(k, k.exitQ[0]);
    TablesApart(k, p, k.exitQ[0]);
  }

  /** Every admitted process has its program under its table again. */
  lemma CodeLinked(w: Whole, a: Act, p: nat)
    requires WholeInv(w) && May(w, a) && Fit(w, a) && S.Admitted(SystemAfter(w, a).k, p)
    ensures var t := SystemAfter(w, a).k.pcbs[p].table;
            t in MachineAfter(w, a).code && p in w.programs && MachineAfter(w, a).code[t] == w.programs[p]
  {
    hide SysInv, S.Inv, X.Good, CpuOk, S.Step, S.Steady, S.Enabled, Ready, X.CodeOk, X.Can, Allows;
    Parts(w);
    KernelSteps(w, a);
    if StepOf(a) != [] {
      AdmittedBefore(w.y.k, StepOf(a)[0], p);
    }
    if a == Kernel(S.Admit) && w.y.k.susReadyQ == [] {
      AdmitCode(w);
      if S.Admitted(w.y.k, p) {
        P.PidBelow(w.y.k, p);
        TableStays(w.y.k, S.Admit, p);
      }
    } else {
      CodeKept(w, a, p);
    }
  }

  /** One act keeps everything: kernel, memory, translations, and what every program has done. */
  lemma WholeStep(w: Whole, a: Act)
    requires WholeInv(w) && May(w, a)
    ensures Fit(w, a) && WholeInv(Then(w, a))
  {
    hide SysInv, S.Inv, X.Good, CpuOk, S.Step, S.Steady, S.Enabled, Ready, X.CodeOk, X.Can, Allows;
    ActFits(w, a);
    Parts(w);
    SameMemory(w, a);
    HeldStays(w, a);
    KernelSteps(w, a);
    var w' := Then(w, a);
    forall p | p in w'.y.k.pcbs ensures p in w'.programs {
      if StepOf(a) != [] {
        LiveBefore(w.y.k, StepOf(a)[0], p);
      }
    }
    forall p | S.Admitted(w'.y.k, p)
      ensures w'.y.k.pcbs[p].table in w'.x.code && w'.x.code[w'.y.k.pcbs[p].table] == w'.programs[p]
    {
      CodeLinked(w, a, p);
      NotNew(w, a, p);
    }
  }

  /** A program just arrived is not an admitted one's. */
  lemma NotNew(w: Whole, a: Act, p: nat)
    requires WholeInv(w) && May(w, a) && Fit(w, a) && S.Admitted(SystemAfter(w, a).k, p)
    ensures a.Load? ==> p != w.y.k.nextPid
  {
    hide SysInv, S.Inv, X.Good, CpuOk, S.Step, S.Steady, S.Enabled, Ready, X.CodeOk, X.Can, Allows;
    Parts(w);
    KernelSteps(w, a);
    if a.Load? {
      AdmittedBefore(w.y.k, S.Arrive(a.size), p);
      P.PidBelow(w.y.k, p);
    }
  }

  // ---------------------------------------------------------------- whole runs

  ghost function Advance(w: Whole, a: Act): (w': Whole)
    requires WholeInv(w) && May(w, a)
    ensures WholeInv(w') && Fit(w, a) && w' == Then(w, a) && w'.y.m.s.c == w.y.m.s.c
  {
    WholeStep(w, a);
    ConfigStays(w, a);
    hide *;
    Then(w, a)
  }

  lemma ConfigStays(w: Whole, a: Act)
    requires WholeInv(w) && Fit(w, a)
    ensures SystemAfter(w, a).m.s.c == w.y.m.s.c
  {
    hide S.Inv, CpuOk, SysInv, X.Good, Ready, KernelAfter;
    if ActionOf(a) != [] {
      CpuTrusted(w.y, ActionOf(a)[0]);
    }
    hide CpuAfter;
  }

  /** Every act is one that may come next. */
  ghost predicate Unfolds(w: Whole, acts: seq<Act>)
    requires WholeInv(w)
    decreases |acts|
  {
    hide WholeInv, Then;
    acts == [] || (May(w, acts[0]) && Unfolds(Advance(w, acts[0]), acts[1..]))
  }

  ghost function Ended(w: Whole, acts: seq<Act>): (w': Whole)
    requires WholeInv(w) && Unfolds(w, acts)
    ensures WholeInv(w') && w'.y.m.s.c == w.y.m.s.c
    decreases |acts|
  {
    hide WholeInv, Then, May;
    if acts == [] then w else Ended(Advance(w, acts[0]), acts[1..])
  }

  /** Power-on of everything. */
  ghost function AllOn(u: Setup): (w: Whole)
    requires SetupOk(u)
    ensures WholeInv(w) && w.y.m.s.c == u.c
  {
    X.BootGood(u.c, u.entries, u.policy);
    var y := PowerOn(u);
    hide SysInv, X.Good, Start;
    Whole(y, X.Boot(u.c, u.entries, u.policy), map[])
  }

  /** From power-on, under every schedule the kernel can follow and with the headers it sends,
      memory holds for every admitted process all that its program would have written had it
      run by itself up to where it stands. */
  lemma SystemRunsPrograms(u: Setup, acts: seq<Act>, p: nat)
    requires SetupOk(u) && Unfolds(AllOn(u), acts) && S.Admitted(Ended(AllOn(u), acts).y.k, p)
    ensures var w := Ended(AllOn(u), acts);
            var id := w.y.k.pcbs[p].table;
            && p in w.programs && id in w.x.pc && w.x.pc[id] <= |w.programs[p]| && id in w.y.m.s.swap
            && u.c.T > 0 && u.c.E > 0
            && var b := X.Alone(u.c, w.programs[p][..w.x.pc[id]]);
               forall page, off | (page, off) in b ::
                 && page in ImageOf(w.y.m.s, id) && off < |ImageOf(w.y.m.s, id)[page]|
                 && ImageOf(w.y.m.s, id)[page][off] == b[(page, off)]
  {
    hide SysInv, X.Good, Unfolds, Ended, AllOn, X.Alone, ImageOf;
    var w := Ended(AllOn(u), acts);
    X.BytesKept(w.x, w.y.k.pcbs[p].table);
  }

  /** Process p runs a READ or a COPY, the address in hand is its first or its second operand,
      and the word it fetches there is the one its program by itself would find, byte by byte
      where that has a value. */
  ghost predicate FetchesAsAlone(w: Whole, p: nat) {
    && CpuOk(w.y.m) && Possible(w.y.m, Fetch)
    && p in w.y.k.pcbs && p in w.programs && w.y.k.pcbs[p].table == w.y.m.id
    && w.y.m.id in w.x.pc && w.x.pc[w.y.m.id] < |w.programs[p]| && w.y.m.s.c.T > 0 && w.y.m.s.c.E > 0
    && var c, pc, reply := w.y.m.s.c, w.x.pc[w.y.m.id], Step(w.y.m, Fetch).1;
       var i := w.programs[p][pc];
       var a := if i.kind == C.READ then i.op1 else i.op2;
       && (i.kind == C.READ || i.kind == C.COPY)
       && w.y.m.at.l == Split(c, a) && reply.Value?
       && X.Reads(X.Alone(c, w.programs[p][..pc]), X.PageOf(c, a), X.OffsetOf(c, a), reply.v)
  }

  lemma SystemFetches(u: Setup, acts: seq<Act>)
    requires SetupOk(u) && Unfolds(AllOn(u), acts) && May(Ended(AllOn(u), acts), Memory(Fetch))
    ensures var w := Ended(AllOn(u), acts);
            w.y.k.execQ != [] && FetchesAsAlone(w, w.y.k.execQ[0])
  {
    hide SysInv, X.Good, Unfolds, Ended, AllOn, May;
    FetchIsOwn(Ended(AllOn(u), acts));
  }

  lemma FetchIsOwn(w: Whole)
    requires WholeInv(w) && May(w, Memory(Fetch))
    ensures w.y.k.execQ != [] && FetchesAsAlone(w, w.y.k.execQ[0])
  {
    hide SysInv, X.Good, X.Alone, X.Reads, Step, CpuOk, X.PageOf, X.OffsetOf, S.Inv, Split, X.Fits;
    ActFits(w, Memory(Fetch));
    Parts(w);
    RunningTableOf(w.y, Fetch);
    RunsAdmitted(w);
    X.FetchedFrom(w.x);
  }

  lemma RunsAdmitted(w: Whole)
    requires S.Inv(w.y.k) && w.y.k.execQ != []
    ensures S.Admitted(w.y.k, w.y.k.execQ[0])
  {
    hide S.Inv;
    P.AdmittedPlace(w.y.k, w.y.k.execQ[0]);
  }
}
