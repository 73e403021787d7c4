/** A write the kernel overtakes.

    One WRITE followed by an I/O longer than the limit of a block: if memory has not served
    the write when the timer fires, the suspension is served first and the write falls into a
    frame that is nobody's.  The kernel's own protocol allows it in every configuration.
 */
module LateWrite {
  import opened Paging
  import opened VirtualMemory
  import opened Addressing
  import opened MemoryProofs
  import opened FlatMemory
  import opened Translation
  import opened CpuMemory
  import opened SystemRun
  import opened StaleTlb
  import opened SystemStale
  import opened InFlight
  import S = Scheduler
  import T = TlbCache

  /** Process 1 writes to its page 0, and is suspended. */
  function LateRun(c: Config, v: seq<Byte>): seq<Event>
    requires c.E > 0
  {
    [Ask(Create(c.K * c.T)), Dispatch(1), Begin(PageAt(c, 0)), AskTable, AskFrame, Put(v), Ask(Suspend(1))]
  }

  lemma SomePages(c: Config)
    requires ConfigOk(c)
    ensures c.K > 0
  {
    assert c.E * c.E > 0;
  }

  /** The whole system can come to that: the process ends its burst with an I/O, and its
      timer fires. */
  lemma SystemOvertakes(u: Setup, v: seq<Byte>) returns (y: System)
    requires Sized(u) && u.degree > 0 && u.c.T >= WORD && |v| == WORD
    ensures Reach(u, y, LateRun(u.c, v))
  {
    hide Reach, CpuOk, Filled, Inv, Step, Right, Possible, T.Holds, CanAccess, InReady, Chosen, Waiting, Parked;
    hide RightEvent;
    var c, l := u.c, PageAt(u.c, 0);
    SomePages(c);
    FilledFacts(c, 0);
    CanRead(Filled(c, 0), c, 0);
    var es := [Ask(Create(c.K * c.T))];
    var y0 := Arrives(u);
    InvOf(y0.m);
    var y1 := Chooses(u, y0, es);
    T.FlushedHolds(y1.m.t);
    var y2 := Sends(u, y1, es);
    es := es + [Dispatch(1)];
    AbsentMisses(y2.m, c, 0, []);
    y := Writes(u, y2, es, l, v);
    es := es + [Begin(l), AskTable, AskFrame, Put(v)];
    y := Blocks(u, y, es, u.limit + 1);
    y := Parks(u, y, es);
    assert es + [Ask(Suspend(1))] == LateRun(c, v);
  }

  /** A write that misses the TLB. */
  lemma Writes(u: Setup, y: System, es: seq<Event>, l: Logical, v: seq<Byte>) returns (y': System)
    requires Reach(u, y, es) && CpuOk(y.m) && OnCpu(y.k) && y.m.at.Idle? && y.m.id != 0 && |v| == WORD
    requires CanAccess(y.m.s, y.m.id, l) && ConfigOk(y.m.s.c) && Right(y.m.s, y.m.t, y.m.id, l)
    requires Looked(y.m, l).at.Missed?
    ensures Reach(u, y', es + [Begin(l), AskTable, AskFrame, Put(v)])
    ensures CpuOk(y'.m) && OnCpu(y'.k) && Same(y.k, y'.k) && y'.running == y.running && y'.m.at.Idle?
    ensures y'.m.s.swap.Keys == y.m.s.swap.Keys
  {
    hide Reach, CpuOk, Step, CanAccess, Right, Possible, OnCpu;
    BeginGoes(y.m, l);
    ObtainGoes(y.m, l);
    var y1 := Uses(u, y, es, Begin(l));
    var y2 := Uses(u, y1, es + [Begin(l)], AskTable);
    var y3 := Uses(u, y2, es + [Begin(l)] + [AskTable], AskFrame);
    AccessGoes(y3.m, Put(v));
    y' := Uses(u, y3, es + [Begin(l)] + [AskTable] + [AskFrame], Put(v));
    UseTables(y.m, Begin(l));
    UseTables(y1.m, AskTable);
    UseTables(y2.m, AskFrame);
    UseTables(y3.m, Put(v));
    assert es + [Begin(l)] + [AskTable] + [AskFrame] + [Put(v)] == es + [Begin(l), AskTable, AskFrame, Put(v)];
  }

  // ---------------------------------------------------------------- with the write on its way

  /** From power-on, CPU and memory having done just this, memory can have got to d. */
  ghost predicate Flown(u: Setup, d: Bus, es: seq<Event>)
    requires SetupOk(u)
  {
    exists moves ::
      && Flows(Powered(u.c, u.entries, u.policy), moves)
      && Arrived(Powered(u.c, u.entries, u.policy), moves) == d && Events(moves) == es
  }

  lemma {:induction false} FlowsAppend(d: Bus, moves: seq<Move>, e: Event)
    requires BusOk(d) && Flows(d, moves) && Can(Arrived(d, moves), Act(e))
    ensures Flows(d, moves + [Act(e)]) && Arrived(d, moves + [Act(e)]) == Moved(Arrived(d, moves), Act(e))
    ensures Events(moves + [Act(e)]) == Events(moves) + [e]
    decreases |moves|
  {
    hide BusOk, Can, InFlight.Next;
    if moves == [] {
      assert moves + [Act(e)] == [Act(e)];
      assert Flows(Moved(d, Act(e)), []);
      assert Events([Act(e)]) == [e] + Events([]);
    } else {
      assert (moves + [Act(e)])[1..] == moves[1..] + [Act(e)] && (moves + [Act(e)])[0] == moves[0];
      FlowsAppend(Moved(d, moves[0]), moves[1..], e);
    }
  }

  lemma FlownStep(u: Setup, d: Bus, es: seq<Event>, e: Event)
    requires SetupOk(u) && Flown(u, d, es) && BusOk(d) && Can(d, Act(e))
    ensures Flown(u, Moved(d, Act(e)), es + [e])
  {
    hide BusOk, Can, InFlight.Next, Powered, Flows, Arrived, Events;
    var moves :|
      && Flows(Powered(u.c, u.entries, u.policy), moves)
      && Arrived(Powered(u.c, u.entries, u.policy), moves) == d && Events(moves) == es;
    FlowsAppend(Powered(u.c, u.entries, u.policy), moves, e);
  }

  /** A move that sends nothing, with nothing sent. */
  lemma FlownOn(u: Setup, m: Cpu, es: seq<Event>, e: Event) returns (m': Cpu)
    requires SetupOk(u) && Flown(u, Bus(m, []), es) && Safe(m) && Possible(m, e) && !e.Put?
    ensures CpuOk(m) && Safe(m') && m' == Step(m, e).0 && Flown(u, Bus(m', []), es + [e])
    ensures RightEvent(m, e)
  {
    hide Safe, Possible, Step, Flown, CpuOk;
    SafeOk(m);
    FlownStep(u, Bus(m, []), es, e);
    m' := Follow(m, e);
    hide RightEvent;
  }

  /** Up to the first dispatch. */
  lemma FlownDispatched(u: Setup) returns (m: Cpu)
    requires SetupOk(u)
    ensures Safe(m) && Flown(u, Bus(m, []), [Ask(Create(u.c.K * u.c.T)), Dispatch(1)])
    ensures m.s == Filled(u.c, 0) && m.id == 1 && m.at.Idle? && T.Holds(m.t, [])
  {
    hide Safe, Flown, Filled, CpuOk, T.Holds, Start;
    var c, m0 := u.c, Start(u.c, u.entries, u.policy);
    StartFlown(u);
    StartOk(u);
    CreatesFilled(c);
    FilledFacts(c, 0);
    SafeOk(m0);
    var m1 := FlownOn(u, m0, [], Ask(Create(c.K * c.T)));
    m := FlownOn(u, m1, [] + [Ask(Create(c.K * c.T))], Dispatch(1));
    T.FlushedHolds(m1.t);
    assert [] + [Ask(Create(c.K * c.T))] + [Dispatch(1)] == [Ask(Create(c.K * c.T)), Dispatch(1)];
  }

  lemma StartFlown(u: Setup)
    requires SetupOk(u)
    ensures Safe(Start(u.c, u.entries, u.policy))
    ensures Flown(u, Bus(Start(u.c, u.entries, u.policy), []), [])
  {
    hide Trusted;
    var d := Powered(u.c, u.entries, u.policy);
    assert Flows(d, []) && Arrived(d, []) == d && Events([]) == [];
  }

  /** Sent, and overtaken by the suspension: memory will put it into nobody's frame. */
  lemma MemoryOvertakes(u: Setup, v: seq<Byte>) returns (d: Bus)
    requires SetupOk(u) && u.c.T >= WORD && |v| == WORD
    ensures BusOk(d) && Flown(u, d, LateRun(u.c, v)) && d.sent != [] && d.sent[0].overtaken && !Can(d, Arrive)
  {
    hide Safe, Flown, Filled, CpuOk, T.Holds, Step, Possible, Right, CanAccess, Inv, RightEvent;
    var c, l := u.c, PageAt(u.c, 0);
    SomePages(c);
    FilledFacts(c, 0);
    CanRead(Filled(c, 0), c, 0);
    var m := FlownDispatched(u);
    var es := [Ask(Create(c.K * c.T)), Dispatch(1)];
    AbsentMisses(m, c, 0, []);
    SafeOk(m);
    BeginGoes(m, l);
    MissGoes(m, l);
    var m1 := FlownOn(u, m, es, Begin(l));
    var m2 := FlownOn(u, m1, es + [Begin(l)], AskTable);
    var m3 := FlownOn(u, m2, es + [Begin(l)] + [AskTable], AskFrame);
    var es3 := es + [Begin(l)] + [AskTable] + [AskFrame];
    SafeOk(m3);
    AccessGoes(m3, Put(v));
    SendsOne(u, m3, es3, v);
    d := Moved(Moved(Bus(m3, []), Act(Put(v))), Act(Ask(Suspend(1))));
    assert es3 + [Put(v)] + [Ask(Suspend(1))] == LateRun(c, v);
  }

  lemma MissGoes(m: Cpu, l: Logical)
    requires CpuOk(m) && m.at.Idle? && m.id != 0 && Possible(m, Begin(l)) && CanAccess(m.s, m.id, l)
    requires ConfigOk(m.s.c) && Right(m.s, m.t, m.id, l) && Looked(m, l).at.Missed?
    ensures var m1 := Step(m, Begin(l)).0;
            && CpuOk(m1) && Possible(m1, AskTable)
            && var m2 := Step(m1, AskTable).0;
               && CpuOk(m2) && Possible(m2, AskFrame)
               && var m3 := Step(m2, AskFrame).0;
                  m3.at.Located? && m3.id == m.id && m3.s.swap.Keys == m.s.swap.Keys
  {
    hide CpuOk, Right, CanAccess, Possible;
    ObtainGoes(m, l);
    var m1 := CpuMemory.Next(m, Begin(l));
    var m2 := CpuMemory.Next(m1, AskTable);
    hide Step;
    UseTables(m, Begin(l));
    UseTables(m1, AskTable);
    UseTables(m2, AskFrame);
  }

  lemma SendsOne(u: Setup, m: Cpu, es: seq<Event>, v: seq<Byte>)
    requires SetupOk(u) && Flown(u, Bus(m, []), es) && Safe(m) && CpuOk(m) && m.at.Located? && m.id == 1
    requires |v| == WORD && 1 in m.s.swap
    ensures Can(Bus(m, []), Act(Put(v)))
    ensures var d := Moved(Bus(m, []), Act(Put(v)));
            && Can(d, Act(Ask(Suspend(1))))
            && var d' := Moved(d, Act(Ask(Suspend(1))));
               && Flown(u, d', es + [Put(v)] + [Ask(Suspend(1))])
               && d'.sent != [] && d'.sent[0].overtaken && !Can(d', Arrive)
  {
    hide Safe, Flown, CpuOk, Step, Inv, Locate;
    LocatedReady(m);
    var d := Moved(Bus(m, []), Act(Put(v)));
    FlownStep(u, Bus(m, []), es, Put(v));
    FlownStep(u, d, es + [Put(v)], Ask(Suspend(1)));
    var d' := Moved(d, Act(Ask(Suspend(1))));
    assert SentOk(d'.m.s, d'.sent[0]);
  }

  /** In every harmless configuration in which something runs, the whole system can come to a
      write that is overtaken. */
  lemma WritesCanMiss(u: Setup, v: seq<Byte>)
    requires SetupOk(u) && u.degree > 0 && u.c.T >= WORD && |v| == WORD
    ensures exists y, d ::
              && Reach(u, y, LateRun(u.c, v)) && Flown(u, d, LateRun(u.c, v))
              && d.sent != [] && d.sent[0].overtaken && !Can(d, Arrive)
  {
    hide Reach, Flown, BusOk, Can;
    var y := SystemOvertakes(u, v);
    var d := MemoryOvertakes(u, v);
  }

  // ---------------------------------------------------------------- otherwise

  lemma {:induction false} CausedRun(y: System, actions: seq<Action>)
    requires SysInv(y) && Gets(y, actions) && Safe(y.m)
    ensures Happens(y.m, Caused(y, actions)) && Reached(y.m, Caused(y, actions)) == GotTo(y, actions).m
    decreases |actions|
  {
    hide SysInv, Allows, CpuOk, Possible, RightEvent, Step, Effect, Safe, KernelAfter, S.Enabled, S.Steady;
    if actions != [] {
      var a, rest := actions[0], actions[1..];
      var y' := SystemRun.After(y, a);
      SysStep(y, a);
      SafeIn(y');
      EffectAtMostOne(y, a);
      CausedRun(y', rest);
      var es := Effect(y, a);
      if es == [] {
        assert Caused(y, actions) == Caused(y', rest);
      } else {
        assert Caused(y, actions)[0] == es[0] && Caused(y, actions)[1..] == Caused(y', rest);
        assert Follow(y.m, es[0]) == y'.m;
      }
    }
  }

  lemma SafeIn(y: System)
    requires SysInv(y)
    ensures Safe(y.m)
  {
  }

  /** Unless a write is overtaken, the whole system with writes on their way is the one with
      writes served at once, seen before the last of them have been served. */
  lemma DelaysInSystem(u: Setup, y: System, es: seq<Event>, moves: seq<Move>)
    requires SetupOk(u) && Reach(u, y, es)
    requires Flows(Powered(u.c, u.entries, u.policy), moves) && Events(moves) == es
    requires NoneOvertaken(Powered(u.c, u.entries, u.policy), moves)
    ensures var d := Arrived(Powered(u.c, u.entries, u.policy), moves);
            OnTime(d.sent) && AtOnce(d) == y.m && (d.sent == [] ==> d.m == y.m)
  {
    hide SysInv, Gets, GotTo, Caused, Flows, Arrived, NoneOvertaken, Safe, AtOnce, Happens, Reached, AllSent, Start;
    var actions :|
      && Gets(Switched(u), actions)
      && GotTo(Switched(u), actions) == y && Caused(Switched(u), actions) == es;
    var y0 := PowerOn(u);
    SafeIn(y0);
    CausedRun(y0, actions);
    var d0 := Powered(u.c, u.entries, u.policy);
    NothingSent(d0);
    RunRefines(d0, moves);
    if Arrived(d0, moves).sent == [] {
      NothingSent(Arrived(d0, moves));
    }
  }
}
