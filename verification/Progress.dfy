/** Nothing stands still.

    As long as there is a process some thread of the kernel can go on, without new arrivals
    and without waiting for a suspension timer; and a running program whose operands lie
    inside its process always has a next step.
 */
module Progress {
  import opened VirtualMemory
  import opened Addressing
  import opened FlatMemory
  import opened CpuMemory
  import opened SystemRun
  import opened WholeRun
  import X = ProgramRun
  import C = Codec
  import S = Scheduler
  import P = FlushProtocol

  /** With nothing under way in the kernel every token is free. */
  lemma AllTokensFree(k: S.Kernel)
    requires S.Inv(k) && k.readyQ == k.execQ == k.flight == k.exitQ == [] && k.ioQ == k.device == []
    ensures k.grade == k.degree
  {
    forall p | p in k.pcbs ensures k.pcbs[p].tag != S.BLOCKED {
      S.TagTellsPlace(k, p);
    }
    assert S.BlockedSet(k) == {};
    hide S.OnePlace, S.Tagged, S.Signals, S.Tables, S.TimersOk;
  }

  lemma Somewhere(k: S.Kernel)
    requires S.Inv(k) && k.pcbs != map[]
    ensures k.readyQ + k.execQ + k.flight + k.exitQ + k.ioQ + k.device + k.newQ + k.susReadyQ != []
  {
    var p :| p in k.pcbs;
    assert S.Places(k, p) == 1;
  }

  /** The semaphores let somebody through, if anybody is there. */
  lemma SomebodyMoves(k: S.Kernel) returns (e: S.Event)
    requires S.Inv(k) && k.degree > 0 && k.pcbs != map[]
    ensures S.Enabled(k, e) && S.Steady(k, e) && !e.Arrive? && !e.Touch? && !e.Fire? && !e.Interrupt?
  {
    hide S.OnePlace, S.Tagged, S.Tokens, S.Tables, S.TimersOk, S.Elects;
    if k.attend == S.Answering {
      e := S.Requeue;
    } else if k.attend == S.AtCpu {
      e := S.Answered(S.Terminated, 0);
    } else if k.semExec > 0 {
      e := S.Send;
    } else if k.device != [] {
      e := S.IoDone;
    } else if k.semIo > 0 {
      e := S.TakeIo;
    } else if k.semExit > 0 {
      e := S.Release;
    } else if k.short == S.Choosing {
      var i := S.SomebodyElected(k);
      e := S.Pick(i);
    } else if k.short == S.AtDispatch {
      e := S.TakeDispatch;
    } else if k.semReady > 0 {
      e := S.TakeReady;
    } else {
      AllTokensFree(k);
      Somewhere(k);
      e := if k.long == S.AtDegree then S.Admit else S.TakeWork;
    }
    S.NeverEmpty(k, e);
    hide S.Steady;
  }

  // ---------------------------------------------------------------- the running program

  /** The operands lie inside the process, words inside pages. */
  predicate Inside(s: State, id: nat, i: C.Instr)
    requires s.c.T > 0 && s.c.E > 0
  {
    && (i.kind == C.READ || i.kind == C.WRITE || i.kind == C.COPY ==> InProcess(s, id, Split(s.c, i.op1)))
    && (i.kind == C.COPY ==> InProcess(s, id, Split(s.c, i.op2)))
  }

  lemma RunningParts(w: Whole)
    requires WholeInv(w) && w.y.k.attend == S.AtCpu
    ensures w.y.k.execQ != [] && w.y.k.execQ[0] in w.y.k.pcbs && w.y.k.execQ[0] in w.programs
    ensures var p, id := w.y.k.execQ[0], w.y.m.id;
            && w.y.k.pcbs[p].table == id && w.x.m == w.y.m && id in w.x.code && w.x.code[id] == w.programs[p]
            && id in w.x.pc && w.y.m.s.c.T > 0 && w.y.m.s.c.E > 0
    ensures w.x.held != [] ==> X.Runs(w.x) && X.Current(w.x).kind == C.COPY && |w.x.held| == WORD
    ensures X.InHand(w.x)
  {
    hide S.Inv, CpuOk, Pictured, FlushOk, X.AllMatch, X.Alone, Trusted, Represents, X.Fits, X.Target;
    Parts(w);
    TrustedOk(w.y);
    RunningTable(w.y);
    RunsAdmitted(w);
  }

  /** The next step of a program that is not over: the next part of its access to memory, its
      NO_OP, or the answer its I/O or EXIT gives. */
  lemma ProgramGoesOn(w: Whole) returns (a: Act)
    requires WholeInv(w) && w.y.k.attend == S.AtCpu && w.y.k.execQ != [] && w.y.k.execQ[0] in w.programs
    requires w.y.m.id in w.x.pc && w.x.pc[w.y.m.id] < |w.programs[w.y.k.execQ[0]]|
    requires w.y.m.s.c.T > 0 && w.y.m.s.c.E > 0
    requires Inside(w.y.m.s, w.y.m.id, w.programs[w.y.k.execQ[0]][w.x.pc[w.y.m.id]])
    ensures May(w, a)
    ensures var i := w.programs[w.y.k.execQ[0]][w.x.pc[w.y.m.id]];
            match i.kind
            case NO_OP => a == NoOp
            case IO => a == Kernel(S.Answered(S.Blocked(i.op1), 0))
            case EXIT => a == Kernel(S.Answered(S.Terminated, 0))
            case _ => a.Memory?
  {
    hide SysInv, X.Good, S.Inv, Linked, Split, InProcess, C.WordBytes;
    RunningParts(w);
    var i := w.programs[w.y.k.execQ[0]][w.x.pc[w.y.m.id]];
    var operand: nat := if i.kind == C.COPY && w.x.held == [] then i.op2 else i.op1;
    match i.kind
    case NO_OP => a := NoOp;
    case IO => a := Kernel(S.Answered(S.Blocked(i.op1), 0));
    case EXIT => a := Kernel(S.Answered(S.Terminated, 0));
    case _ =>
      a := Memory(match w.y.m.at
                  case Idle => Begin(Split(w.y.m.s.c, operand))
                  case Missed(_) => AskTable
                  case Tabled(_, _) => AskFrame
                  case Located(_, _) =>
                    if i.kind == C.READ || (i.kind == C.COPY && w.x.held == []) then Fetch
                    else Put(if i.kind == C.WRITE then C.WordBytes(i.op2) else w.x.held));
  }
}
