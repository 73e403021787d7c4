/** What the kernel's estimates are made of: over whole runs of the scheduler, the time a
    process has run since its last block and its estimate are those of the answers the CPU
    gave about it, and of nothing else.
 */
module Estimates {
  import Srt
  import opened Queues
  import opened Scheduler

  /** What an answer after so long means for the estimate: a preemption cuts the burst, under
      SRT a block ends it; an EXIT, and a block under FIFO, mean nothing. */
  function PieceOf(srt: bool, a: Answer, ran: nat): seq<Srt.Piece> {
    match a
    case Preempted => [Srt.Cut(ran as real)]
    case Terminated => []
    case Blocked(_) => if srt then [Srt.End(ran as real)] else []
  }

  /** The piece of the answer, if the step is one about p. */
  function PieceAt(k: Kernel, e: Event, p: nat): seq<Srt.Piece>
    requires Steady(k, e)
  {
    if e.Answered? && k.execQ[0] == p then PieceOf(k.srt, e.a, e.ran) else []
  }

  /** The answers the CPU gives about process p over a run. */
  ghost function Pieces(k: Kernel, events: seq<Event>, p: nat): seq<Srt.Piece>
    requires CanRun(k, events)
    decreases |events|
  {
    hide Step, Enabled, Elects;
    if events == [] then []
    else
      var e := events[0];
      PieceAt(k, e, p) + Pieces(Step(k, e), events[1..], p)
  }

  /** The burst of p, with the answer about it that `__atender_pcb` is still dealing with. */
  function Due(k: Kernel, p: nat): Srt.Burst {
    if k.flight == [p] then Srt.ApplyAll(BurstOf(k, p), PieceOf(k.srt, k.answer, k.ran), k.alfa)
    else BurstOf(k, p)
  }

  // ---------------------------------------------------------------- one step

  lemma ApplyNone(b: Srt.Burst, alfa: real)
    ensures Srt.ApplyAll(b, [], alfa) == b
  {
  }

  lemma ApplyOne(b: Srt.Burst, p: Srt.Piece, alfa: real)
    ensures Srt.ApplyAll(b, [p], alfa) == Srt.Apply(b, p, alfa)
  {
    assert [p][..0] == [];
    ApplyNone(b, alfa);
  }

  lemma {:induction false} ApplyThen(b: Srt.Burst, ps: seq<Srt.Piece>, qs: seq<Srt.Piece>, alfa: real)
    ensures Srt.ApplyAll(b, ps + qs, alfa) == Srt.ApplyAll(Srt.ApplyAll(b, ps, alfa), qs, alfa)
    decreases |qs|
  {
    if qs == [] {
      assert ps + qs == ps;
    } else {
      ApplyThen(b, ps, qs[..|qs| - 1], alfa);
      assert (ps + qs)[..|ps + qs| - 1] == ps + qs[..|qs| - 1];
    }
  }

  predicate SameBursts(k: Kernel, k': Kernel) {
    && k'.alfa == k.alfa && k'.srt == k.srt && k'.initial == k.initial
    && k'.answer == k.answer && k'.ran == k.ran && k'.flight == k.flight
    && forall p | p in k.pcbs && p in k'.pcbs :: BurstOf(k', p) == BurstOf(k, p)
  }

  lemma AdmitBursts(k: Kernel)
    requires Enabled(k, Admit) && Steady(k, Admit)
    ensures SameBursts(k, Step(k, Admit))
  {
  }

  lemma IoDoneBursts(k: Kernel)
    requires Enabled(k, IoDone) && Steady(k, IoDone)
    ensures SameBursts(k, Step(k, IoDone))
  {
    hide Without;
  }

  lemma FireBursts(k: Kernel, i: nat, waited: nat)
    requires i < |k.timers|
    ensures SameBursts(k, DoFire(k, i, waited))
  {
    hide Without, LetThrough;
  }

  /** Nobody is charged but by the thread that receives the answers. */
  lemma StepBursts(k: Kernel, e: Event)
    requires Enabled(k, e) && Steady(k, e) && !e.Requeue? && !e.Answered? && k.nextPid !in k.pcbs
    ensures SameBursts(k, Step(k, e))
  {
    hide HandOff, FromNew, DoIoDone, DoFire, RemoveAt, Elects;
    if e.Admit? {
      AdmitBursts(k);
    } else if e.IoDone? {
      IoDoneBursts(k);
    } else if e.Fire? {
      FireBursts(k, e.i, e.waited);
    }
  }

  lemma AnsweredBursts(k: Kernel, a: Answer, ran: nat)
    requires Enabled(k, Answered(a, ran)) && Steady(k, Answered(a, ran))
    ensures var k' := Step(k, Answered(a, ran));
            && k'.pcbs == k.pcbs && k'.alfa == k.alfa && k'.srt == k.srt && k'.initial == k.initial
            && k'.answer == a && k'.ran == ran && k'.flight == k.flight + [k.execQ[0]]
  {
  }

  /** Who has been dealt with has been charged with its answer. */
  lemma RequeueBursts(k: Kernel)
    requires |k.flight| == 1 && k.flight[0] in k.pcbs
    ensures var k' := DoRequeue(k);
            && k'.alfa == k.alfa && k'.srt == k.srt && k'.initial == k.initial && k'.flight == []
            && BurstOf(k', k.flight[0]) == Due(k, k.flight[0])
            && forall p | p != k.flight[0] :: BurstOf(k', p) == BurstOf(k, p)
  {
    var p := k.flight[0];
    assert k.flight == [p];
    var b := BurstOf(k, p);
    ApplyNone(b, k.alfa);
    var ps := PieceOf(k.srt, k.answer, k.ran);
    if ps != [] {
      ApplyOne(b, ps[0], k.alfa);
      hide Srt.ApplyAll;
    }
  }

  lemma FlightLive(k: Kernel)
    requires Inv(k)
    ensures k.nextPid !in k.pcbs && |k.flight| <= 1 && (forall p | p in k.flight :: p in k.pcbs)
    ensures k.attend == AtCpu ==> k.flight == []
    ensures k.execQ != [] ==> k.execQ[0] in k.pcbs
    ensures forall p | p in k.pcbs :: p < k.nextPid
  {
    hide Tokens, Tables, TimersOk, NoDup, Places;
  }

  lemma DueStep(k: Kernel, e: Event, p: nat)
    requires Inv(k) && Enabled(k, e) && Steady(k, e) && p in Step(k, e).pcbs
    requires p in k.pcbs || (e.Arrive? && p == k.nextPid)
    ensures Due(Step(k, e), p) == Srt.ApplyAll(Due(k, p), PieceAt(k, e, p), k.alfa)
    ensures Step(k, e).alfa == k.alfa && Step(k, e).srt == k.srt && Step(k, e).initial == k.initial
  {
    hide Inv, Srt.ApplyAll;
    FlightLive(k);
    ApplyNone(Due(k, p), k.alfa);
    if e.Requeue? {
      assert k.flight == [k.flight[0]];
      RequeueBursts(k);
      hide DoRequeue;
    } else if e.Answered? {
      AnsweredBursts(k, e.a, e.ran);
      assert k.flight == [] && k.flight + [k.execQ[0]] == [k.execQ[0]];
      hide Step, Enabled;
    } else {
      StepBursts(k, e);
      if e.Arrive? && p == k.nextPid {
        assert k.flight != [p];
      } else {
        hide Step, Enabled, Steady;
      }
    }
  }

  // ---------------------------------------------------------------- whole runs

  /** Who is gone, or was never there, does not come under an old number. */
  lemma {:induction false} GoneStaysGone(k: Kernel, events: seq<Event>, p: nat)
    requires Inv(k) && CanRun(k, events) && p < k.nextPid && p !in k.pcbs
    ensures p !in RunOf(k, events).pcbs
    decreases |events|
  {
    hide Inv, Step, Enabled, Steady;
    if events != [] {
      StepInv(k, events[0]);
      PidsGrow(k, events[0]);
      GoneStaysGone(Step(k, events[0]), events[1..], p);
    }
  }

  lemma PidsGrow(k: Kernel, e: Event)
    requires Enabled(k, e) && Steady(k, e)
    ensures k.nextPid <= Step(k, e).nextPid
    ensures forall p | p in Step(k, e).pcbs :: p in k.pcbs || (e.Arrive? && p == k.nextPid)
    ensures e.Arrive? ==> Step(k, e).nextPid == k.nextPid + 1 && Step(k, e).pcbs.Keys == k.pcbs.Keys + {k.nextPid}
  {
    StepFramed(k, e, if e.Arrive? then e.size else 0);
    if !e.Arrive? {
      StepFramed(k, e, 1);
      hide Step;
    }
    hide Steady, Enabled;
  }

  /** Over any run the burst of a process that is there at the end is made of the CPU's
      answers about it, in order. */
  lemma {:induction false} DueIsAnswers(k: Kernel, events: seq<Event>, p: nat)
    requires Inv(k) && CanRun(k, events) && p in RunOf(k, events).pcbs && (p in k.pcbs || k.nextPid <= p)
    ensures Due(RunOf(k, events), p) == Srt.ApplyAll(Due(k, p), Pieces(k, events, p), k.alfa)
    decreases |events|
  {
    hide Inv, Step, Enabled, Steady, Due, Srt.ApplyAll;
    if events == [] {
      ApplyNone(Due(k, p), k.alfa);
    } else {
      var e, rest := events[0], events[1..];
      var k' := Step(k, e);
      StepInv(k, e);
      PidsGrow(k, e);
      if p in k'.pcbs {
        DueStep(k, e, p);
      } else {
        if p < k'.nextPid {
          GoneStaysGone(k', rest, p);
        }
        DueNot(k, e, p);
      }
      DueIsAnswers(k', rest, p);
      ApplyThen(Due(k, p), PieceAt(k, e, p), Pieces(k', rest, p), k.alfa);
    }
  }

  /** Nothing happens to a process still to come. */
  lemma DueNot(k: Kernel, e: Event, p: nat)
    requires Inv(k) && Enabled(k, e) && Steady(k, e) && p !in Step(k, e).pcbs && k.nextPid <= p
    ensures PieceAt(k, e, p) == [] && Due(Step(k, e), p) == Srt.ApplyAll(Due(k, p), PieceAt(k, e, p), k.alfa)
    ensures Step(k, e).alfa == k.alfa
  {
    hide Inv, Step, Enabled;
    FlightLive(k);
    StepInv(k, e);
    FlightLive(Step(k, e));
    StepFramed(k, e, if e.Arrive? then e.size else 0);
    ApplyNone(Due(k, p), k.alfa);
  }

  /** Under SRT, from power-on: whenever no answer about a process is being dealt with, its
      executed time is what it ran since its last block, its estimate the exponential sum of
      the initial one and its finished bursts, and its last real burst the last of these, all
      according to the CPU's answers. */
  lemma EstimatesAreAnswers(degree: nat, slots: nat, limit: nat, alfa: real, initial: real,
                            events: seq<Event>, p: nat)
    requires degree <= slots && CanRun(Init(degree, slots, limit, true, alfa, initial), events)
    requires p in RunOf(Init(degree, slots, limit, true, alfa, initial), events).pcbs
    requires p !in RunOf(Init(degree, slots, limit, true, alfa, initial), events).flight
    ensures var k0 := Init(degree, slots, limit, true, alfa, initial);
            var pcb, ps := RunOf(k0, events).pcbs[p], Pieces(k0, events, p);
            && pcb.executed == Srt.Open(ps)
            && pcb.estimate == Srt.ExponentialSum(alfa, initial, Srt.Bursts(ps))
            && (Srt.Bursts(ps) != [] ==> pcb.previous == Srt.Bursts(ps)[|Srt.Bursts(ps)| - 1])
  {
    var k0 := Init(degree, slots, limit, true, alfa, initial);
    hide Inv, CanRun, RunOf, Pieces, Srt.ApplyAll, Srt.ExponentialSum, Srt.Open, Srt.Bursts;
    InitInv(degree, slots, limit, true, alfa, initial);
    RunInv(k0, events);
    PidPositive(RunOf(k0, events), p);
    DueIsAnswers(k0, events, p);
    Srt.EstimateIsExponentialSum(Due(k0, p), Pieces(k0, events, p), alfa);
    Srt.PreviousIsLastBurst(Due(k0, p), Pieces(k0, events, p), alfa);
  }

  lemma PidPositive(k: Kernel, p: nat)
    requires Inv(k) && p in k.pcbs
    ensures 0 < p
  {
  }
}
