/** What the kernel takes the CPU's answers for is what the programs say.

    Over whole runs from power-on, a process is in EXIT only behind its EXIT, and waits for
    I/O only behind an I/O instruction, for as long as that asks.
 */
module Endings {
  import opened VirtualMemory
  import opened MemoryProofs
  import opened FlatMemory
  import opened CpuMemory
  import opened SystemRun
  import opened WholeRun
  import X = ProgramRun
  import C = Codec
  import Q = Queues
  import S = Scheduler
  import P = FlushProtocol
  import B = Estimates
  import O = FirstCome

  /** The instruction process p executed last is this one. */
  ghost predicate LastWas(w: Whole, p: nat, kind: C.Kind, op1: nat) {
    && S.Admitted(w.y.k, p) && p in w.programs
    && w.y.k.pcbs[p].table in w.x.pc
    && var pc := w.x.pc[w.y.k.pcbs[p].table];
       0 < pc <= |w.programs[p]| && w.programs[p][pc - 1].kind == kind
       && (kind == C.IO ==> w.programs[p][pc - 1].op1 == op1)
  }

  predicate Waiting(k: S.Kernel, p: nat) {
    p in k.pcbs && k.pcbs[p].tag in {S.BLOCKED, S.SUSPENDED_BLOCKED}
  }

  /** Every end and every block comes from its instruction. */
  ghost predicate Grounded(w: Whole) {
    && (forall p | p in w.y.k.exitQ :: LastWas(w, p, C.EXIT, 0))
    && (forall p | Waiting(w.y.k, p) :: LastWas(w, p, C.IO, w.y.k.pcbs[p].ioTime))
    && (forall p | p in w.y.k.pcbs && !Waiting(w.y.k, p) :: w.y.k.pcbs[p].ioTime == 0)
    && (w.y.k.flight != [] ==>
          && (w.y.k.answer.Terminated? ==> LastWas(w, w.y.k.flight[0], C.EXIT, 0))
          && (w.y.k.answer.Blocked? ==> LastWas(w, w.y.k.flight[0], C.IO, w.y.k.answer.ioTime)))
  }

  // ---------------------------------------------------------------- counters

  predicate Runs(a: Act) {
    a.Memory? || a.NoOp? || (a.Kernel? && a.e.Answered?)
  }

  lemma TurnPc(x: X.Machine, a: X.Turn, t: nat)
    requires X.Good(x) && X.Can(x, a) && t in x.pc && t in X.After(x, a).pc && !a.Admit?
    ensures X.After(x, a).pc[t] == x.pc[t] || (t == x.m.id && (a.Access? || a.Plain?))
  {
    hide X.Good, CpuOk, Step, Possible, FlatStep;
  }

  /** Only the running process gets on. */
  lemma PcAfter(w: Whole, a: Act, t: nat)
    requires WholeInv(w) && May(w, a) && Fit(w, a) && t in w.x.pc && t in MachineAfter(w, a).pc
    ensures MachineAfter(w, a).pc[t] == w.x.pc[t] || (t == w.x.m.id && Runs(a))
  {
    hide SysInv, X.Good, CpuOk, S.Inv, S.Steady, S.Enabled, X.Can, X.After, Allows, Ready, X.CodeOk;
    Parts(w);
    if a == Kernel(S.Admit) && w.y.k.susReadyQ == [] {
      AdmitPc(w, t);
    } else if TurnOf(w, a) != [] {
      NoAdmission(w, a);
      TurnPc(w.x, TurnOf(w, a)[0], t);
    }
    hide X.Fits;
  }

  lemma NoAdmission(w: Whole, a: Act)
    requires Fit(w, a) && TurnOf(w, a) != [] && !(a == Kernel(S.Admit) && w.y.k.susReadyQ == [])
    ensures var t := TurnOf(w, a)[0];
            !t.Admit? && (t.Access? || t.Plain? ==> Runs(a))
  {
    hide Ready, X.Can, S.Enabled, S.Steady;
  }

  lemma AdmitPc(w: Whole, t: nat)
    requires WholeInv(w) && May(w, Kernel(S.Admit)) && Fit(w, Kernel(S.Admit)) && w.y.k.susReadyQ == []
    requires t in w.x.pc && t in MachineAfter(w, Kernel(S.Admit)).pc
    ensures MachineAfter(w, Kernel(S.Admit)).pc[t] == w.x.pc[t]
  {
    hide SysInv, X.Good, CpuOk, S.Inv, Linked, May, Fit, MachineAfter, SystemAfter;
    Parts(w);
    AdmitCode(w);
  }

  lemma AdmittedStays(k: S.Kernel, e: S.Event, p: nat)
    requires S.Enabled(k, e) && S.Steady(k, e) && S.Admitted(k, p) && p < k.nextPid && p in S.Step(k, e).pcbs
    ensures S.Admitted(S.Step(k, e), p)
  {
    hide S.Step, S.Steady, S.Enabled, O.Leaves;
    O.StepOrder(k, e, O.New);
    var q' := S.Step(k, e).newQ;
    assert forall r | r in q' :: r in O.Leaves(k, e, O.New) + q';
  }

  /** A process that does not run stands where it stood. */
  lemma PcStays(w: Whole, a: Act, p: nat)
    requires WholeInv(w) && May(w, a) && Fit(w, a) && S.Admitted(w.y.k, p) && p in SystemAfter(w, a).k.pcbs
    requires Runs(a) ==> w.y.k.execQ != [] && p != w.y.k.execQ[0]
    ensures S.Admitted(SystemAfter(w, a).k, p) && p in w.programs && p in Then(w, a).programs
    ensures Then(w, a).programs[p] == w.programs[p]
    ensures var t := w.y.k.pcbs[p].table;
            && SystemAfter(w, a).k.pcbs[p].table == t
            && t in w.x.pc && t in MachineAfter(w, a).pc && MachineAfter(w, a).pc[t] == w.x.pc[t]
  {
    hide SysInv, S.Inv, X.Good, CpuOk, S.Step, S.Steady, S.Enabled, Ready, X.CodeOk, X.Can, Allows, TurnOf, Effect;
    Parts(w);
    ActFits(w, a);
    KernelSteps(w, a);
    P.PidBelow(w.y.k, p);
    if StepOf(a) != [] {
      TableStays(w.y.k, StepOf(a)[0], p);
      AdmittedStays(w.y.k, StepOf(a)[0], p);
    }
    CodeLinked(w, a, p);
    PcKeys(w.x);
    PcKeys(MachineAfter(w, a));
    PcAfter(w, a, w.y.k.pcbs[p].table);
    if Runs(a) {
      RunningApart(w, a, p);
    }
  }

  lemma PcKeys(x: X.Machine)
    requires X.Good(x)
    ensures x.pc.Keys == x.code.Keys && forall id | id in x.code :: x.pc[id] <= |x.code[id]|
  {
    hide CpuOk, Represents, X.AllMatch, X.HeldOk;
  }

  /** The running process has a table of its own. */
  lemma RunningApart(w: Whole, a: Act, p: nat)
    requires WholeInv(w) && May(w, a) && Fit(w, a) && Runs(a)
    requires S.Admitted(w.y.k, p) && w.y.k.execQ != [] && p != w.y.k.execQ[0]
    ensures w.y.k.pcbs[p].table != w.x.m.id
  {
    hide S.Inv, X.Good, CpuOk, Pictured, FlushOk, X.Fits, X.Can, Trusted, X.CodeOk;
    Parts(w);
    TrustedOk(w.y);
    assert w.y.k.attend == S.AtCpu by {
      AtTheCpu(w, a);
    }
    hide May, Fit;
    RunningTable(w.y);
    RunsAdmitted(w);
    TablesApart(w.y.k, p, w.y.k.execQ[0]);
  }

  lemma AtTheCpu(w: Whole, a: Act)
    requires May(w, a) && Runs(a)
    ensures w.y.k.attend == S.AtCpu
  {
    hide X.Fits;
  }

  // ---------------------------------------------------------------- what the kernel's steps do

  lemma ExitFrom(k: S.Kernel, e: S.Event, p: nat)
    requires S.Enabled(k, e) && S.Steady(k, e) && p in S.Step(k, e).exitQ
    requires e.Admit? && k.susReadyQ == [] ==> |k.mem.active| < k.slots
    ensures p in k.exitQ || (e.Requeue? && k.answer.Terminated? && k.flight != [] && p == k.flight[0])
  {
    hide Q.Without, S.LetThrough, Q.RemoveAt, S.Elects, S.Charged, S.Retag, S.BurstOf, S.DoFire;
    if e.Fire? {
      O.FireOrder(k, e.i, e.waited, O.Exits);
    }
  }

  lemma WaitingFrom(k: S.Kernel, e: S.Event, p: nat)
    requires S.Inv(k) && S.Enabled(k, e) && S.Steady(k, e) && Waiting(S.Step(k, e), p)
    ensures || (Waiting(k, p) && S.Step(k, e).pcbs[p].ioTime == k.pcbs[p].ioTime)
            || (e.Requeue? && k.answer.Blocked? && k.flight != [] && p == k.flight[0]
                && S.Step(k, e).pcbs[p].ioTime == k.answer.ioTime)
  {
    hide S.Inv, Q.Without, S.LetThrough, Q.RemoveAt, S.Elects, S.BurstOf, S.HandOff, S.FromNew, S.DoFire;
    if e.Fire? {
      FireWaits(k, e.i, e.waited, p);
    } else if e.Admit? {
      AdmitWaits(k, p);
    }
  }

  lemma FireWaits(k: S.Kernel, i: nat, waited: nat, p: nat)
    requires S.Inv(k) && i < |k.timers| && Waiting(S.DoFire(k, i, waited), p)
    ensures Waiting(k, p) && S.DoFire(k, i, waited).pcbs[p].ioTime == k.pcbs[p].ioTime
  {
    hide S.OnePlace, S.Tokens, S.Signals, S.Tables, S.TimersOk, Q.NoDup, Q.Without, S.LetThrough;
    if k.timers[i].pid in k.blockedQ {
      S.BlockedTag(k, k.timers[i].pid);
    }
    hide S.Tagged;
  }

  lemma AdmitWaits(k: S.Kernel, p: nat)
    requires S.Enabled(k, S.Admit) && S.Steady(k, S.Admit) && Waiting(S.Step(k, S.Admit), p)
    ensures Waiting(k, p) && S.Step(k, S.Admit).pcbs[p].ioTime == k.pcbs[p].ioTime
  {
  }

  predicate Idle(k: S.Kernel, p: nat) {
    p in k.pcbs && !Waiting(k, p) ==> k.pcbs[p].ioTime == 0
  }

  lemma SamePcbs(k: S.Kernel, e: S.Event)
    requires S.Enabled(k, e) && S.Steady(k, e) && !e.Arrive? && !e.Admit? && !e.Requeue? && !e.IoDone? && !e.Fire?
    requires !e.Release?
    ensures S.Step(k, e).pcbs == k.pcbs
  {
    hide Q.RemoveAt, S.Elects, S.HandOff, S.FromNew, S.DoArrive, S.DoRequeue, S.DoIoDone, S.DoFire, S.DoRelease;
    hide S.DoTouch;
    if e.Touch? {
      TouchPcbs(k);
    }
  }

  lemma PcbsChange(k: S.Kernel, e: S.Event, p: nat)
    requires S.Enabled(k, e) && S.Steady(k, e) && (e.Arrive? || e.Requeue? || e.IoDone? || e.Release?) && Idle(k, p)
    requires e.Requeue? ==> !Waiting(k, k.flight[0]) && Idle(k, k.flight[0])
    requires e.IoDone? ==> Waiting(k, k.device[0])
    ensures Idle(S.Step(k, e), p)
  {
    hide Q.Without, S.BurstOf;
  }

  /** The time of an I/O is forgotten when it is over. */
  lemma IdleFrom(k: S.Kernel, e: S.Event, p: nat)
    requires S.Inv(k) && S.Enabled(k, e) && S.Steady(k, e)
    requires forall r | r in k.pcbs && !Waiting(k, r) :: k.pcbs[r].ioTime == 0
    ensures Idle(S.Step(k, e), p)
  {
    hide S.Inv;
    Whereabouts(k);
    if e.Fire? {
      FireIdle(k, e.i, e.waited, p);
    } else if e.Admit? {
      AdmitIdle(k, p);
    } else if e.Arrive? || e.Requeue? || e.IoDone? || e.Release? {
      PcbsChange(k, e, p);
    } else {
      SamePcbs(k, e);
    }
    hide S.Step, S.Enabled;
  }

  lemma Whereabouts(k: S.Kernel)
    requires S.Inv(k)
    ensures (k.flight != [] ==> !Waiting(k, k.flight[0])) && (k.device != [] ==> Waiting(k, k.device[0]))
    ensures k.susReadyQ != [] ==> !Waiting(k, k.susReadyQ[0])
  {
    hide S.OnePlace, S.Tokens, S.Signals, S.Tables, S.TimersOk, Q.NoDup;
  }

  lemma FireIdle(k: S.Kernel, i: nat, waited: nat, p: nat)
    requires i < |k.timers| && Idle(k, p)
    ensures Idle(S.DoFire(k, i, waited), p)
  {
    hide Q.Without, S.LetThrough;
  }

  lemma AdmitIdle(k: S.Kernel, p: nat)
    requires S.Enabled(k, S.Admit) && S.Steady(k, S.Admit) && Idle(k, p)
    requires k.susReadyQ != [] ==> !Waiting(k, k.susReadyQ[0])
    ensures Idle(S.Step(k, S.Admit), p)
  {
  }

  lemma FlightFrom(k: S.Kernel, e: S.Event)
    requires S.Inv(k) && S.Enabled(k, e) && S.Steady(k, e) && S.Step(k, e).flight != []
    ensures if e.Answered? then S.Step(k, e).flight == [k.execQ[0]] && S.Step(k, e).answer == e.a
            else k.flight != [] && S.Step(k, e).flight[0] == k.flight[0] && S.Step(k, e).answer == k.answer
                 && !e.Requeue?
  {
    hide S.Inv, S.Step;
    B.FlightLive(k);
    if e.Answered? {
      B.AnsweredBursts(k, e.a, e.ran);
      assert k.flight + [k.execQ[0]] == [k.execQ[0]];
    } else if e.Requeue? {
      RequeueFlies(k);
    } else {
      B.StepBursts(k, e);
    }
  }

  lemma RequeueFlies(k: S.Kernel)
    requires |k.flight| == 1 && S.Enabled(k, S.Requeue) && S.Steady(k, S.Requeue)
    ensures S.Step(k, S.Requeue).flight == []
  {
    B.RequeueBursts(k);
    hide S.DoRequeue;
  }

  // ---------------------------------------------------------------- one act

  lemma LastKept(w: Whole, a: Act, p: nat, kind: C.Kind, op1: nat)
    requires WholeInv(w) && May(w, a) && Fit(w, a) && LastWas(w, p, kind, op1) && p in SystemAfter(w, a).k.pcbs
    requires Runs(a) ==> w.y.k.execQ != [] && p != w.y.k.execQ[0]
    ensures LastWas(Then(w, a), p, kind, op1)
  {
    hide WholeInv, May, Fit, SystemAfter, MachineAfter;
    PcStays(w, a, p);
  }

  /** Whoever waits, is in EXIT or has just answered does not run. */
  lemma Apart(k: S.Kernel, p: nat)
    requires S.Inv(k) && k.execQ != [] && (p in k.exitQ || p in k.flight || Waiting(k, p))
    ensures p != k.execQ[0]
  {
    hide S.Tokens, S.Signals, S.Tables, S.TimersOk, Q.NoDup;
    var r := k.execQ[0];
    S.OnceOnly(k, r);
    hide S.OnePlace;
    assert r in k.execQ && k.pcbs[r].tag in {S.NEW, S.READY};
  }

  /** Whoever waits is admitted. */
  lemma WaitingAdmitted(k: S.Kernel, p: nat)
    requires S.Inv(k) && (p in k.exitQ || p in k.flight || Waiting(k, p))
    ensures S.Admitted(k, p)
  {
    hide S.Tokens, S.Signals, S.Tables, S.TimersOk, Q.NoDup;
    S.OnceOnly(k, p);
    hide S.OnePlace;
  }

  /** The instruction behind which the CPU answers. */
  lemma AnsweredLast(w: Whole, answer: S.Answer, ran: nat)
    requires WholeInv(w) && May(w, Kernel(S.Answered(answer, ran))) && Fit(w, Kernel(S.Answered(answer, ran)))
    ensures w.y.k.execQ != []
    ensures answer.Terminated? ==> LastWas(Then(w, Kernel(S.Answered(answer, ran))), w.y.k.execQ[0], C.EXIT, 0)
    ensures answer.Blocked? ==>
              LastWas(Then(w, Kernel(S.Answered(answer, ran))), w.y.k.execQ[0], C.IO, answer.ioTime)
  {
    hide SysInv, S.Inv, X.Good, CpuOk, X.CodeOk, S.Step, X.Can;
    Parts(w);
    Executing(w, answer, ran);
    AnsweredKernel(w, answer, ran);
    if !answer.Preempted? {
      AnsweredMachine(w, answer, ran);
    }
    PcKeys(w.x);
    hide May, Fit, SystemAfter, MachineAfter;
  }

  lemma Executing(w: Whole, answer: S.Answer, ran: nat)
    requires WholeInv(w) && May(w, Kernel(S.Answered(answer, ran)))
    ensures w.y.k.execQ != [] && S.Admitted(w.y.k, w.y.k.execQ[0])
    ensures w.y.k.pcbs[w.y.k.execQ[0]].table == w.x.m.id
  {
    hide S.Inv, X.Good, CpuOk, Pictured, FlushOk, X.Fits, Trusted, X.CodeOk, Answers;
    Parts(w);
    TrustedOk(w.y);
    RunningTable(w.y);
    RunsAdmitted(w);
  }

  lemma AnsweredKernel(w: Whole, answer: S.Answer, ran: nat)
    requires WholeInv(w) && Fit(w, Kernel(S.Answered(answer, ran)))
    ensures var k' := SystemAfter(w, Kernel(S.Answered(answer, ran))).k;
            k'.pcbs == w.y.k.pcbs && k'.newQ == w.y.k.newQ
  {
    hide WholeInv, Ready, X.Can;
    KernelSteps(w, Kernel(S.Answered(answer, ran)));
    hide SystemAfter;
  }

  lemma AnsweredMachine(w: Whole, answer: S.Answer, ran: nat)
    requires Linked(w) && May(w, Kernel(S.Answered(answer, ran))) && Fit(w, Kernel(S.Answered(answer, ran)))
    requires !answer.Preempted?
    ensures X.Runs(w.x)
    ensures MachineAfter(w, Kernel(S.Answered(answer, ran))).pc == w.x.pc[w.x.m.id := w.x.pc[w.x.m.id] + 1]
    ensures answer.Terminated? ==> X.Current(w.x).kind == C.EXIT
    ensures answer.Blocked? ==> X.Current(w.x).kind == C.IO && X.Current(w.x).op1 == answer.ioTime
  {
    hide Ready, CpuOk, Allows, Linked;
  }

  /** Whoever is in EXIT, waits or is in flight after the act is admitted. */
  lemma AfterAdmitted(w: Whole, a: Act, p: nat)
    requires WholeInv(w) && May(w, a) && Fit(w, a)
    requires var k' := SystemAfter(w, a).k; p in k'.exitQ || p in k'.flight || Waiting(k', p)
    ensures p in SystemAfter(w, a).k.pcbs
  {
    hide WholeInv, May, Fit, SystemAfter;
    ActFits(w, a);
    WholeStep(w, a);
    Parts(Then(w, a));
    WaitingAdmitted(SystemAfter(w, a).k, p);
  }

  lemma ExitGrounded(w: Whole, a: Act, p: nat)
    requires WholeInv(w) && Grounded(w) && May(w, a) && Fit(w, a) && p in SystemAfter(w, a).k.exitQ
    ensures LastWas(Then(w, a), p, C.EXIT, 0)
  {
    hide SysInv, S.Inv, X.Good, CpuOk, S.Step, S.Steady, S.Enabled, X.Can, LastWas, X.CodeOk, Ready, Allows;
    Parts(w);
    KernelSteps(w, a);
    AfterAdmitted(w, a, p);
    if StepOf(a) != [] {
      RoomToAdmit(w, a);
      ExitFrom(w.y.k, StepOf(a)[0], p);
    }
    Runners(w, a, p);
    LastKept(w, a, p, C.EXIT, 0);
  }

  lemma RoomToAdmit(w: Whole, a: Act)
    requires WholeInv(w) && Fit(w, a) && StepOf(a) != []
    ensures StepOf(a)[0].Admit? && w.y.k.susReadyQ == [] ==> |w.y.k.mem.active| < w.y.k.slots
  {
    hide SysInv, X.Good, CpuOk, S.Inv, X.Can, X.CodeOk;
    Parts(w);
    if a == Kernel(S.Admit) {
      S.AdmissionFindsSlot(w.y.k);
    }
  }

  /** Whoever runs is none of them. */
  lemma Runners(w: Whole, a: Act, p: nat)
    requires WholeInv(w) && May(w, a)
    requires p in w.y.k.exitQ || p in w.y.k.flight || Waiting(w.y.k, p)
    ensures Runs(a) ==> w.y.k.execQ != [] && p != w.y.k.execQ[0]
  {
    hide S.Inv, X.Good, CpuOk, Pictured, FlushOk, X.Fits, Trusted, X.CodeOk, Answers, S.Tagged;
    Parts(w);
    TrustedOk(w.y);
    if Runs(a) {
      AtTheCpu(w, a);
      hide May;
      RunningTable(w.y);
      Apart(w.y.k, p);
    }
  }

  lemma WaitGrounded(w: Whole, a: Act, p: nat)
    requires WholeInv(w) && Grounded(w) && May(w, a) && Fit(w, a) && Waiting(SystemAfter(w, a).k, p)
    ensures LastWas(Then(w, a), p, C.IO, SystemAfter(w, a).k.pcbs[p].ioTime)
  {
    hide SysInv, S.Inv, X.Good, CpuOk, S.Step, S.Steady, S.Enabled, X.Can, LastWas, X.CodeOk, Ready, Allows;
    Parts(w);
    KernelSteps(w, a);
    AfterAdmitted(w, a, p);
    if StepOf(a) != [] {
      WaitingFrom(w.y.k, StepOf(a)[0], p);
    }
    Runners(w, a, p);
    LastKept(w, a, p, C.IO, SystemAfter(w, a).k.pcbs[p].ioTime);
  }

  lemma FlightGrounded(w: Whole, a: Act)
    requires WholeInv(w) && Grounded(w) && May(w, a) && Fit(w, a) && SystemAfter(w, a).k.flight != []
    ensures var k' := SystemAfter(w, a).k;
            && (k'.answer.Terminated? ==> LastWas(Then(w, a), k'.flight[0], C.EXIT, 0))
            && (k'.answer.Blocked? ==> LastWas(Then(w, a), k'.flight[0], C.IO, k'.answer.ioTime))
  {
    hide SysInv, S.Inv, X.Good, CpuOk, S.Step, S.Steady, S.Enabled, X.Can, LastWas, X.CodeOk, Ready, Allows, Waiting;
    Parts(w);
    KernelSteps(w, a);
    var k, k' := w.y.k, SystemAfter(w, a).k;
    AfterAdmitted(w, a, k'.flight[0]);
    if StepOf(a) != [] {
      FlightFrom(k, StepOf(a)[0]);
    }
    if a.Kernel? && a.e.Answered? {
      AnsweredLast(w, a.e.a, a.e.ran);
    } else {
      Runners(w, a, k.flight[0]);
      if k.answer.Terminated? {
        LastKept(w, a, k.flight[0], C.EXIT, 0);
      } else if k.answer.Blocked? {
        LastKept(w, a, k.flight[0], C.IO, k.answer.ioTime);
      }
    }
  }

  lemma GroundedStep(w: Whole, a: Act)
    requires WholeInv(w) && Grounded(w) && May(w, a) && Fit(w, a)
    ensures Grounded(Then(w, a))
  {
    hide WholeInv, May, Fit, LastWas, SystemAfter, MachineAfter, Waiting;
    var w' := Then(w, a);
    forall p | p in w'.y.k.exitQ ensures LastWas(w', p, C.EXIT, 0) {
      ExitGrounded(w, a, p);
    }
    forall p | Waiting(w'.y.k, p) ensures p in w'.y.k.pcbs && LastWas(w', p, C.IO, w'.y.k.pcbs[p].ioTime) {
      AfterAdmitted(w, a, p);
      WaitGrounded(w, a, p);
    }
    forall p | p in w'.y.k.pcbs && !Waiting(w'.y.k, p) ensures w'.y.k.pcbs[p].ioTime == 0 {
      IdleGrounded(w, a, p);
    }
    if w'.y.k.flight != [] {
      FlightGrounded(w, a);
    }
  }

  lemma IdleGrounded(w: Whole, a: Act, p: nat)
    requires WholeInv(w) && Grounded(w) && May(w, a) && Fit(w, a)
    requires p in SystemAfter(w, a).k.pcbs && !Waiting(SystemAfter(w, a).k, p)
    ensures SystemAfter(w, a).k.pcbs[p].ioTime == 0
  {
    hide SysInv, S.Inv, X.Good, CpuOk, S.Step, S.Steady, S.Enabled, X.Can, LastWas, X.CodeOk, Ready, Allows, Waiting;
    Parts(w);
    KernelSteps(w, a);
    if StepOf(a) != [] {
      IdleFrom(w.y.k, StepOf(a)[0], p);
    }
  }

  // ---------------------------------------------------------------- whole runs

  lemma {:induction false} GroundedRun(w: Whole, acts: seq<Act>)
    requires WholeInv(w) && Grounded(w) && Unfolds(w, acts)
    ensures Grounded(Ended(w, acts))
    decreases |acts|
  {
    hide WholeInv, Grounded, May, Then, Fit;
    if acts != [] {
      var w' := Advance(w, acts[0]);
      GroundedStep(w, acts[0]);
      GroundedRun(w', acts[1..]);
    }
  }

  /** From power-on, whatever the schedule: a process is in EXIT only behind the EXIT of its
      program, and blocked or suspended only behind an I/O, for the time that asks. */
  lemma EndsAndBlocksAreGrounded(u: Setup, acts: seq<Act>, p: nat)
    requires SetupOk(u) && Unfolds(AllOn(u), acts)
    ensures var w := Ended(AllOn(u), acts);
            && (p in w.y.k.exitQ ==>
                  && p in w.y.k.pcbs && p in w.programs && w.y.k.pcbs[p].table in w.x.pc
                  && var pc := w.x.pc[w.y.k.pcbs[p].table];
                     0 < pc <= |w.programs[p]| && w.programs[p][pc - 1].kind == C.EXIT)
            && (p in w.y.k.pcbs && w.y.k.pcbs[p].tag in {S.BLOCKED, S.SUSPENDED_BLOCKED} ==>
                  && p in w.programs && w.y.k.pcbs[p].table in w.x.pc
                  && var pc := w.x.pc[w.y.k.pcbs[p].table];
                     && 0 < pc <= |w.programs[p]| && w.programs[p][pc - 1].kind == C.IO
                     && w.programs[p][pc - 1].op1 == w.y.k.pcbs[p].ioTime)
            && (p in w.y.k.pcbs && w.y.k.pcbs[p].tag !in {S.BLOCKED, S.SUSPENDED_BLOCKED} ==>
                  w.y.k.pcbs[p].ioTime == 0)
  {
    hide WholeInv, Unfolds, Ended;
    NobodyGrounded(u);
    hide AllOn;
    GroundedRun(AllOn(u), acts);
  }

  lemma NobodyGrounded(u: Setup)
    requires SetupOk(u)
    ensures Grounded(AllOn(u))
  {
    hide Trusted, SysInv;
  }
}
