/** What programs ask of memory: over whole runs, whatever the schedule, the accesses made for
    a process are those of the instructions it has executed, in order, each once.
 */
module ProgramTrace {
  import opened VirtualMemory
  import opened Addressing
  import opened MemoryProofs
  import opened FlatMemory
  import opened Translation
  import opened CpuMemory
  import opened ProgramRun
  import Paging
  import C = Codec
  import T = TlbCache

  /** A word asked for, or told, at a logical address. */
  datatype Asked = Got(l: Logical) | Told(l: Logical)

  /** READ gets its word, WRITE tells one, COPY gets the word of its second operand and tells
      it at its first (cpu/src/cpu_kernel_server.c, lines 68-92 and 99-107). */
  function AskedBy(c: Config, i: C.Instr): seq<Asked>
    requires c.T > 0 && c.E > 0
  {
    match i.kind
    case READ => [Got(Split(c, i.op1))]
    case WRITE => [Told(Split(c, i.op1))]
    case COPY => [Got(Split(c, i.op2)), Told(Split(c, i.op1))]
    case _ => []
  }

  /** A program's accesses when it runs by itself. */
  function AskedAlone(c: Config, program: seq<C.Instr>): seq<Asked>
    requires c.T > 0 && c.E > 0
  {
    if program == [] then []
    else AskedAlone(c, program[..|program| - 1]) + AskedBy(c, program[|program| - 1])
  }

  /** The access a turn completes, if it is one of process id. */
  ghost function Made(x: Machine, a: Turn, id: nat): seq<Asked> {
    if x.m.id != id || x.m.at.Idle? then []
    else
      match a
      case Access(Fetch) => [Got(x.m.at.l)]
      case Access(Put(_)) => [Told(x.m.at.l)]
      case _ => []
  }

  ghost function Trace(x: Machine, turns: seq<Turn>, id: nat): seq<Asked>
    requires Plays(x, turns)
    decreases |turns|
  {
    hide Can, After;
    if turns == [] then [] else Made(x, turns[0], id) + Trace(After(x, turns[0]), turns[1..], id)
  }

  /** The accesses of what process id has executed, and the one a COPY under way has made. */
  ghost function Owed(x: Machine, id: nat): seq<Asked>
    requires CodeOk(x) && x.m.s.c.T > 0 && x.m.s.c.E > 0
  {
    if id !in x.code then []
    else
      AskedAlone(x.m.s.c, Done(x, id))
      + if x.m.id == id && x.held != [] && Runs(x) then [Got(Split(x.m.s.c, Current(x).op2))] else []
  }

  lemma AskedNext(c: Config, program: seq<C.Instr>, n: nat)
    requires c.T > 0 && c.E > 0 && n < |program|
    ensures AskedAlone(c, program[..n + 1]) == AskedAlone(c, program[..n]) + AskedBy(c, program[n])
  {
    assert program[..n + 1][..n] == program[..n];
  }

  // ---------------------------------------------------------------- one turn

  lemma PartsOf(x: Machine)
    requires Good(x)
    ensures CodeOk(x) && CpuOk(x.m) && x.m.s.c.T > 0 && x.m.s.c.E > 0 && Inv(x.m.s)
    ensures (x.held != [] ==> Runs(x) && Current(x).kind == C.COPY)
    ensures forall id | id in x.code :: id in x.m.s.swap && 0 < id < x.m.s.nextId
    ensures x.m.id != 0 ==> x.m.id in x.m.s.swap && x.m.id < x.m.s.nextId
  {
    hide Coherent, Represents, AllMatch, Reads, SlotsOk, IdsDistinct, AllSuspendedOk, StageOk;
  }

  /** Lookups and requests of a walk change nothing that is owed. */
  lemma WalkOwes(x: Machine, e: CpuMemory.Event, id: nat)
    requires Good(x) && Can(x, Access(e)) && (e.Begin? || e.AskTable? || e.AskFrame?)
    ensures CodeOk(x) && CodeOk(After(x, Access(e))) && x.m.s.c.T > 0 && x.m.s.c.E > 0
    ensures After(x, Access(e)).m.s.c == x.m.s.c
    ensures Owed(After(x, Access(e)), id) == Owed(x, id) && Made(x, Access(e), id) == []
    ensures After(x, Access(e)).code == x.code
  {
    hide Good, CpuOk, Possible, Step, AskedAlone, Split;
    PartsOf(x);
    WalkStage(x.m, e);
    TurnGood(x, Access(e));
    PartsOf(After(x, Access(e)));
    TurnConfig(x, Access(e));
    assert id in x.code ==> Done(After(x, Access(e)), id) == Done(x, id);
  }

  /** The instruction at hand has been executed: what it asks for has been made. */
  lemma ExecutedOwes(x: Machine, x': Machine, made: seq<Asked>, id: nat)
    requires CodeOk(x) && CodeOk(x') && Runs(x) && x'.m.s.c == x.m.s.c && x'.m.id == x.m.id
    requires x'.code == x.code && x'.pc == x.pc[x.m.id := x.pc[x.m.id] + 1] && x'.held == []
    requires (if x.held != [] then [Got(Split(x.m.s.c, Current(x).op2))] else []) + made
             == AskedBy(x.m.s.c, Current(x))
    ensures Owed(x', id) == Owed(x, id) + if id == x.m.id then made else []
  {
    hide AskedAlone, AskedBy, Split;
    var c := x.m.s.c;
    AskedNext(c, x.code[x.m.id], x.pc[x.m.id]);
    if id == x.m.id {
      assert Done(x', id) == x.code[id][..x.pc[id] + 1];
      var kept := if x.held != [] then [Got(Split(c, Current(x).op2))] else [];
      assert AskedAlone(c, Done(x, id)) + (kept + made) == (AskedAlone(c, Done(x, id)) + kept) + made;
    } else if id in x.code {
      assert Done(x', id) == Done(x, id);
    }
  }

  lemma FetchOwes(x: Machine, id: nat)
    requires Good(x) && Can(x, Access(Fetch))
    ensures CodeOk(x) && CodeOk(After(x, Access(Fetch))) && x.m.s.c.T > 0 && x.m.s.c.E > 0
    ensures After(x, Access(Fetch)).m.s.c == x.m.s.c && After(x, Access(Fetch)).code == x.code
    ensures Owed(After(x, Access(Fetch)), id) == Owed(x, id) + Made(x, Access(Fetch), id)
  {
    hide Good, Can, After, AskedAlone, AskedBy, Owed, Made, CodeOk, Split;
    var x' := After(x, Access(Fetch));
    PartsOf(x);
    TurnGood(x, Access(Fetch));
    PartsOf(x');
    TurnConfig(x, Access(Fetch));
    FetchCounts(x);
    if Current(x).kind == C.READ {
      ReadOwes(x, x', id);
    } else {
      HeldOwes(x, x', id);
    }
  }

  lemma ReadOwes(x: Machine, x': Machine, id: nat)
    requires CodeOk(x) && CodeOk(x') && x'.m.s.c == x.m.s.c && x.m.s.c.T > 0 && x.m.s.c.E > 0
    requires Runs(x) && x.held == [] && x'.held == [] && x'.m.id == x.m.id && x'.code == x.code
    requires x'.pc == x.pc[x.m.id := x.pc[x.m.id] + 1] && Current(x).kind == C.READ
    requires !x.m.at.Idle? && x.m.at.l == Split(x.m.s.c, Current(x).op1)
    ensures Owed(x', id) == Owed(x, id) + Made(x, Access(Fetch), id)
  {
    hide AskedAlone, Owed, CodeOk, Split;
    assert [] + [Got(x.m.at.l)] == AskedBy(x.m.s.c, Current(x));
    ExecutedOwes(x, x', [Got(x.m.at.l)], id);
  }

  /** A READ is over with its word; a COPY holds it. */
  lemma FetchCounts(x: Machine)
    requires Good(x) && Can(x, Access(Fetch))
    ensures Runs(x) && !x.m.at.Idle? && x.held == [] && x.m.s.c.T > 0 && x.m.s.c.E > 0
    ensures var i, x', l := Current(x), After(x, Access(Fetch)), x.m.at.l;
            && x'.code == x.code && x'.m.id == x.m.id
            && (i.kind == C.READ ==>
                  l == Split(x.m.s.c, i.op1) && x'.pc == x.pc[x.m.id := x.pc[x.m.id] + 1] && x'.held == [])
            && (i.kind != C.READ ==>
                  i.kind == C.COPY && l == Split(x.m.s.c, i.op2) && x'.pc == x.pc && x'.held != [])
  {
    hide Good, CpuOk, Possible, Step, Split, Alone, Reads, FlatStep;
    PartsOf(x);
    ServedStage(x.m, Fetch);
    FetchedFrom(x);
    WordRead(x);
  }

  lemma HeldOwes(x: Machine, x': Machine, id: nat)
    requires CodeOk(x) && CodeOk(x') && x'.m.s.c == x.m.s.c && x.m.s.c.T > 0 && x.m.s.c.E > 0
    requires Runs(x) && x.held == [] && x'.held != [] && x'.m.id == x.m.id && x'.code == x.code && x'.pc == x.pc
    requires !x.m.at.Idle? && x.m.at.l == Split(x.m.s.c, Current(x).op2)
    ensures Owed(x', id) == Owed(x, id) + Made(x, Access(Fetch), id)
  {
    hide AskedAlone, Split;
    assert id in x.code ==> Done(x', id) == Done(x, id);
  }

  /** A word read is not empty. */
  lemma WordRead(x: Machine)
    requires Good(x) && Can(x, Access(Fetch))
    ensures CpuOk(x.m) && Step(x.m, Fetch).1.Value? && Step(x.m, Fetch).1.v != []
  {
    hide Good, CpuOk, Step, Possible, Fits, Alone, PageOf, OffsetOf;
    PartsOf(x);
    Fetched(x);
  }

  lemma PutOwes(x: Machine, v: seq<Paging.Byte>, id: nat)
    requires Good(x) && Can(x, Access(Put(v)))
    ensures CodeOk(x) && CodeOk(After(x, Access(Put(v)))) && x.m.s.c.T > 0 && x.m.s.c.E > 0
    ensures After(x, Access(Put(v))).m.s.c == x.m.s.c && After(x, Access(Put(v))).code == x.code
    ensures Owed(After(x, Access(Put(v))), id) == Owed(x, id) + Made(x, Access(Put(v)), id)
  {
    hide Good, Can, After, AskedAlone, AskedBy, Owed, CodeOk;
    PartsOf(x);
    ServedAt(x, v);
    TurnGood(x, Access(Put(v)));
    PartsOf(After(x, Access(Put(v))));
    TurnConfig(x, Access(Put(v)));
    PutCounts(x, v);
    PutAsked(x, v);
    ExecutedOwes(x, After(x, Access(Put(v))), [Told(x.m.at.l)], id);
  }

  lemma ServedAt(x: Machine, v: seq<Paging.Byte>)
    requires Can(x, Access(Put(v)))
    ensures !x.m.at.Idle? && After(x, Access(Put(v))).m.id == x.m.id
  {
    hide CpuOk, Step, Fits, FlatStep;
    ServedStage(x.m, Put(v));
  }

  lemma PutAsked(x: Machine, v: seq<Paging.Byte>)
    requires Good(x) && Can(x, Access(Put(v)))
    ensures Runs(x) && x.m.s.c.T > 0 && x.m.s.c.E > 0
    ensures (if x.held != [] then [Got(Split(x.m.s.c, Current(x).op2))] else []) + [Told(x.m.at.l)]
            == AskedBy(x.m.s.c, Current(x))
  {
    hide Good, CpuOk, Possible, Split, Alone, Reads, PageOf, OffsetOf, C.WordBytes;
    PartsOf(x);
    PutInto(x, v);
  }

  lemma PlainOwes(x: Machine, id: nat)
    requires Good(x) && Can(x, Plain)
    ensures CodeOk(x) && CodeOk(After(x, Plain)) && x.m.s.c.T > 0 && x.m.s.c.E > 0
    ensures After(x, Plain).m.s.c == x.m.s.c && After(x, Plain).code == x.code
    ensures Owed(After(x, Plain), id) == Owed(x, id) && Made(x, Plain, id) == []
  {
    hide Good, CpuOk, AskedAlone, Split;
    PartsOf(x);
    TurnGood(x, Plain);
    PartsOf(After(x, Plain));
    ExecutedOwes(x, After(x, Plain), [], id);
  }

  /** What is owed to a process whose program has not moved. */
  lemma SameOwes(x: Machine, x': Machine, id: nat)
    requires CodeOk(x) && CodeOk(x') && x'.m.s.c == x.m.s.c && x.m.s.c.T > 0 && x.m.s.c.E > 0
    requires id in x.code && id in x'.code && x'.code[id] == x.code[id] && x'.pc[id] == x.pc[id]
    requires x'.held == x.held && (x'.m.id == x.m.id || x.held == [])
    ensures Owed(x', id) == Owed(x, id)
  {
    hide AskedAlone, Split;
    assert Done(x', id) == Done(x, id);
  }

  lemma NewOwes(x: Machine, id: nat)
    requires CodeOk(x) && x.m.s.c.T > 0 && x.m.s.c.E > 0 && id in x.code && x.pc[id] == 0 && x.m.id != id
    ensures Owed(x, id) == []
  {
    assert Done(x, id) == [];
  }

  /** What the kernel's acts do to the programs there are. */
  lemma KernelMoves(x: Machine, a: Turn, id: nat)
    requires Good(x) && Can(x, a) && !a.Access? && !a.Plain?
    ensures CodeOk(x) && CodeOk(After(x, a))
    ensures var x' := After(x, a);
            && x'.held == x.held && (x'.m.id == x.m.id || x.held == [])
            && (id in x.code && id in x'.code ==> x'.code[id] == x.code[id] && x'.pc[id] == x.pc[id])
            && (id !in x.code && id in x'.code ==> x'.pc[id] == 0 && id == x.m.s.nextId && x'.m.id == x.m.id)
  {
    hide Good, CpuOk, Step, Serve, Inv, FlatStep, Enabled;
    PartsOf(x);
    TurnGood(x, a);
    PartsOf(After(x, a));
    if a.Admit? {
      AdmitMoves(x, a.size, a.program);
    } else if a.Park? {
      AskStage(x.m, Suspend(a.id));
    } else if a.Retire? {
      AskStage(x.m, Finish(a.id));
    }
    hide Possible;
  }

  lemma AdmitMoves(x: Machine, size: nat, program: seq<C.Instr>)
    requires Good(x) && Can(x, Admit(size, program))
    ensures var x', n := After(x, Admit(size, program)), x.m.s.nextId;
            && n !in x.code && x'.m.id == x.m.id && x'.held == x.held
            && ((x'.code == x.code && x'.pc == x.pc) || (x'.code == x.code[n := program] && x'.pc == x.pc[n := 0]))
  {
    hide Good, CpuOk, Step, Inv, FlatStep, Enabled;
    PartsOf(x);
    AskStage(x.m, Create(size));
  }

  /** The kernel's acts make no access, and leave what is owed to a process that stays. */
  lemma KernelOwes(x: Machine, a: Turn, id: nat)
    requires Good(x) && Can(x, a) && !a.Access? && !a.Plain?
    ensures CodeOk(x) && CodeOk(After(x, a)) && x.m.s.c.T > 0 && x.m.s.c.E > 0 && After(x, a).m.s.c == x.m.s.c
    ensures Made(x, a, id) == []
    ensures id in After(x, a).code ==> Owed(After(x, a), id) == Owed(x, id)
  {
    hide Good, Can, After, CodeOk;
    PartsOf(x);
    TurnGood(x, a);
    PartsOf(After(x, a));
    TurnConfig(x, a);
    KernelMoves(x, a, id);
    if id in After(x, a).code {
      if id in x.code {
        SameOwes(x, After(x, a), id);
      } else {
        NewOwes(After(x, a), id);
      }
    }
    hide Owed;
  }

  lemma TurnOwes(x: Machine, a: Turn, id: nat)
    requires Good(x) && Can(x, a)
    ensures CodeOk(x) && CodeOk(After(x, a)) && x.m.s.c.T > 0 && x.m.s.c.E > 0 && After(x, a).m.s.c == x.m.s.c
    ensures id in After(x, a).code ==> Owed(After(x, a), id) == Owed(x, id) + Made(x, a, id)
  {
    hide Good, After, CodeOk, Owed, Made, CpuOk, Possible, Fits;
    match a
    case Access(Begin(l)) => WalkOwes(x, Begin(l), id);
    case Access(AskTable) => WalkOwes(x, AskTable, id);
    case Access(AskFrame) => WalkOwes(x, AskFrame, id);
    case Access(Fetch) => FetchOwes(x, id);
    case Access(Put(v)) => PutOwes(x, v, id);
    case Plain => PlainOwes(x, id);
    case Switch(_) => KernelOwes(x, a, id);
    case Admit(_, _) => KernelOwes(x, a, id);
    case Park(_) => KernelOwes(x, a, id);
    case Retire(_) => KernelOwes(x, a, id);
    case Access(_) => NoOther(x, a);
  }

  lemma NoOther(x: Machine, a: Turn)
    requires Can(x, a) && a.Access?
    ensures a.e.Begin? || a.e.AskTable? || a.e.AskFrame? || a.e.Fetch? || a.e.Put?
  {
    hide CpuOk, Possible;
  }

  // ---------------------------------------------------------------- whole runs

  /** Numbers are given out in order, each to a program. */
  lemma NumbersGrow(x: Machine, a: Turn)
    requires Good(x) && Can(x, a)
    ensures var x', n := After(x, a), x.m.s.nextId;
            || (x'.m.s.nextId == n && x'.code.Keys <= x.code.Keys)
            || (x'.m.s.nextId == n + 1 && x'.code.Keys == x.code.Keys + {n})
  {
    hide Good, CpuOk, Inv, Step, FlatStep, Enabled, SameImages, ImageOf;
    PartsOf(x);
    match a
    case Access(e) => NoOther(x, a); UseTables(x.m, e);
    case Plain =>
    case Switch(id) =>
      hide Step;
      SwitchTables(x.m, id);
    case Admit(size, program) =>
      AskStage(x.m, Create(size));
      CreateStep(x.m.s, size);
    case Park(id) =>
      AskStage(x.m, Suspend(id));
      SuspendNumbers(x.m.s, id);
    case Retire(id) =>
      AskStage(x.m, Finish(id));
      FinishNumbers(x.m.s, id);
  }

  lemma SwitchTables(m: Cpu, id: nat)
    requires CpuOk(m) && Possible(m, Dispatch(id))
    ensures Step(m, Dispatch(id)).0.s == m.s
  {
    hide CpuOk;
  }

  lemma SuspendNumbers(s: State, id: nat)
    requires Inv(s) && Enabled(s, Suspend(id))
    ensures Serve(s, Suspend(id)).0.nextId == s.nextId
  {
    hide Inv;
  }

  lemma FinishNumbers(s: State, id: nat)
    requires Inv(s) && Enabled(s, Finish(id))
    ensures Serve(s, Finish(id)).0.nextId == s.nextId
  {
    hide Inv;
  }

  lemma {:induction false} GoneForGood(x: Machine, turns: seq<Turn>, id: nat)
    requires Good(x) && Plays(x, turns) && id !in x.code && id < x.m.s.nextId
    ensures id !in Played(x, turns).code
    decreases |turns|
  {
    hide Good, Can, After;
    if turns != [] {
      TurnGood(x, turns[0]);
      NumbersGrow(x, turns[0]);
      GoneForGood(After(x, turns[0]), turns[1..], id);
    }
  }

  lemma {:induction false} TraceIsOwed(x: Machine, turns: seq<Turn>, id: nat)
    requires Good(x) && Plays(x, turns) && id in Played(x, turns).code && (id in x.code || x.m.s.nextId <= id)
    ensures CodeOk(x) && CodeOk(Played(x, turns)) && x.m.s.c.T > 0 && x.m.s.c.E > 0
    ensures Played(x, turns).m.s.c == x.m.s.c
    ensures Owed(Played(x, turns), id) == Owed(x, id) + Trace(x, turns, id)
    decreases |turns|
  {
    hide Good, Can, After, CodeOk, Owed, Made, CpuOk, Inv;
    PartsOf(x);
    if turns == [] {
      assert Owed(x, id) + [] == Owed(x, id);
    } else {
      var a, x' := turns[0], After(x, turns[0]);
      TurnGood(x, a);
      NumbersGrow(x, a);
      TurnOwes(x, a, id);
      if id !in x'.code && id < x'.m.s.nextId {
        GoneForGood(x', turns[1..], id);
      }
      TraceIsOwed(x', turns[1..], id);
      if id !in x'.code {
        NothingYetOwed(x, a, x', id);
      }
      var rest := Trace(x', turns[1..], id);
      assert Owed(x, id) + (Made(x, a, id) + rest) == (Owed(x, id) + Made(x, a, id)) + rest;
    }
  }

  lemma NothingYetOwed(x: Machine, a: Turn, x': Machine, id: nat)
    requires Good(x) && CodeOk(x') && id !in x.code && id !in x'.code && x.m.s.nextId <= id
    requires x'.m.s.c.T > 0 && x'.m.s.c.E > 0
    ensures CodeOk(x) && x.m.s.c.T > 0 && x.m.s.c.E > 0
    ensures Owed(x, id) == [] && Owed(x', id) == [] && Made(x, a, id) == []
  {
    hide Good, CodeOk, CpuOk, Inv;
    PartsOf(x);
    NextPositive(x);
  }

  lemma NextPositive(x: Machine)
    requires Inv(x.m.s)
    ensures 0 < x.m.s.nextId
  {
  }

  /** Whatever the schedule, what has been asked of memory for a process is what its program by
      itself asks for up to where it stands, in order and each once; a COPY under way has got
      its word and not told it yet. */
  lemma AccessesAsAlone(c: Config, entries: nat, policy: T.Policy, turns: seq<Turn>, id: nat)
    requires ConfigOk(c) && entries > 0 && Harmless(c, entries)
    requires Plays(Boot(c, entries, policy), turns) && id in Played(Boot(c, entries, policy), turns).code
    ensures var x := Played(Boot(c, entries, policy), turns);
            && id in x.pc && x.pc[id] <= |x.code[id]|
            && var copying := x.m.id == id && x.held != [];
               && (copying ==> x.pc[id] < |x.code[id]| && x.code[id][x.pc[id]].kind == C.COPY)
               && Trace(Boot(c, entries, policy), turns, id)
                  == AskedAlone(c, x.code[id][..x.pc[id]])
                     + if copying then [Got(Split(c, x.code[id][x.pc[id]].op2))] else []
  {
    hide Good, Plays, Played, Boot, AskedAlone, Split;
    var x0 := Boot(c, entries, policy);
    BootGood(c, entries, policy);
    BootEmpty(c, entries, policy);
    PlayedGood(x0, turns);
    PartsOf(Played(x0, turns));
    TraceIsOwed(x0, turns, id);
  }

  lemma BootEmpty(c: Config, entries: nat, policy: T.Policy)
    ensures Boot(c, entries, policy).code == map[] && Boot(c, entries, policy).m.s.nextId == 1
    ensures 0 !in Boot(c, entries, policy).code
  {
  }
}
