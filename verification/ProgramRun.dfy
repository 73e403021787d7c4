/** Programs as the CPU executes them (cpu/src/cpu_kernel_server.c, lines 32-109): READ,
    WRITE and COPY become accesses to memory, one request at a time, while the kernel
    dispatches, suspends, admits and retires processes in any order.

    The reference runs each program by itself, from empty memory.  A COPY of bytes nobody
    has written leaves bytes nobody has written.
 */
module ProgramRun {
  import opened Paging
  import opened VirtualMemory
  import opened Addressing
  import opened MemoryProofs
  import opened FlatMemory
  import opened Translation
  import opened RequestRuns
  import opened CpuMemory
  import C = Codec
  import T = TlbCache

  // ---------------------------------------------------------------- a program by itself

  /** The bytes a process has given a value, by page and offset. */
  type Bytes = map<(nat, nat), Byte>

  function WordAt(page: nat, off: nat): set<(nat, nat)> {
    {(page, off), (page, off + 1), (page, off + 2), (page, off + 3)}
  }

  function Stored(b: Bytes, page: nat, off: nat, v: seq<Byte>): Bytes
    requires |v| == WORD
  {
    map k: (nat, nat) | k in b.Keys + WordAt(page, off) :: if k in WordAt(page, off) then v[k.1 - off] else b[k]
  }

  /** Where the byte k comes from when a word is copied. */
  function Origin(k: (nat, nat), page: nat, off: nat, page': nat, off': nat): (nat, nat) {
    if k in WordAt(page, off) then (page', off' + (k.1 - off)) else k
  }

  function Copied(b: Bytes, page: nat, off: nat, page': nat, off': nat): Bytes {
    map k: (nat, nat) | k in b.Keys + WordAt(page, off) && Origin(k, page, off, page', off') in b ::
      b[Origin(k, page, off, page', off')]
  }

  function PageOf(c: Config, address: nat): nat
    requires c.T > 0 && c.E > 0
  {
    PageNo(c, Split(c, address).e1, Split(c, address).e2)
  }

  function OffsetOf(c: Config, address: nat): nat
    requires c.T > 0 && c.E > 0
  {
    Split(c, address).off
  }

  /** One instruction: WRITE stores a word, COPY copies the word at its second operand to
      its first. */
  function Exec(c: Config, b: Bytes, i: C.Instr): Bytes
    requires c.T > 0 && c.E > 0
  {
    match i.kind
    case WRITE => Stored(b, PageOf(c, i.op1), OffsetOf(c, i.op1), C.WordBytes(i.op2))
    case COPY => Copied(b, PageOf(c, i.op1), OffsetOf(c, i.op1), PageOf(c, i.op2), OffsetOf(c, i.op2))
    case _ => b
  }

  /** A program run by itself. */
  function Alone(c: Config, program: seq<C.Instr>): Bytes
    requires c.T > 0 && c.E > 0
  {
    if program == [] then map[]
    else Exec(c, Alone(c, program[..|program| - 1]), program[|program| - 1])
  }

  // ---------------------------------------------------------------- the machine

  /** CPU and memory with the programs of the live processes, how far each has come, the
      word a COPY has fetched and not yet stored, and what memory has been told so far. */
  datatype Machine = Machine(m: Cpu, code: map<nat, seq<C.Instr>>, pc: map<nat, nat>, held: seq<Byte>, flat: Flat)

  datatype Turn =
    | Access(e: CpuMemory.Event)                  // a step of the access the instruction makes
    | Plain                                       // NO_OP, I/O or EXIT
    | Switch(id: nat)                             // another process, or the same one anew
    | Admit(size: nat, program: seq<C.Instr>)     // the kernel creates a process
    | Park(id: nat) | Retire(id: nat)             // suspends one, ends one

  predicate Runs(x: Machine) {
    && x.m.id in x.code && x.m.id in x.pc && x.pc[x.m.id] < |x.code[x.m.id]|
    && x.m.s.c.T > 0 && x.m.s.c.E > 0
  }

  function Current(x: Machine): C.Instr
    requires Runs(x)
  {
    x.code[x.m.id][x.pc[x.m.id]]
  }

  predicate UsesMemory(i: C.Instr) {
    i.kind == C.READ || i.kind == C.WRITE || i.kind == C.COPY
  }

  /** The address the instruction is about to access: COPY fetches first. */
  function Target(x: Machine): nat
    requires Runs(x)
  {
    if Current(x).kind == C.COPY && x.held == [] then Current(x).op2 else Current(x).op1
  }

  /** The turn is one the running program, or the kernel, takes now.  A process is left only
      between instructions. */
  predicate Fits(x: Machine, a: Turn) {
    match a
    case Access(Begin(l)) => Runs(x) && UsesMemory(Current(x)) && l == Split(x.m.s.c, Target(x))
    case Access(AskTable) => true
    case Access(AskFrame) => true
    case Access(Fetch) => Runs(x) && (Current(x).kind == C.READ || (Current(x).kind == C.COPY && x.held == []))
    case Access(Put(v)) =>
      && Runs(x)
      && (|| (Current(x).kind == C.WRITE && v == C.WordBytes(Current(x).op2))
          || (Current(x).kind == C.COPY && x.held != [] && v == x.held))
    case Access(_) => false
    case Plain => x.m.at.Idle? && x.held == [] && Runs(x) && !UsesMemory(Current(x))
    case Switch(_) => x.held == []
    case Admit(_, _) => true
    case Park(id) => id == x.m.id ==> x.held == []
    case Retire(id) => id == x.m.id ==> x.held == []
  }

  function EventOf(a: Turn): seq<CpuMemory.Event> {
    match a
    case Access(e) => [e]
    case Plain => []
    case Switch(id) => [Dispatch(id)]
    case Admit(size, _) => [Ask(Create(size))]
    case Park(id) => [Ask(Suspend(id))]
    case Retire(id) => [Ask(Finish(id))]
  }

  ghost predicate Can(x: Machine, a: Turn) {
    CpuOk(x.m) && Fits(x, a) && (EventOf(a) != [] ==> Possible(x.m, EventOf(a)[0]))
  }

  function Advanced(x: Machine): Machine
    requires Runs(x)
  {
    x.(pc := x.pc[x.m.id := x.pc[x.m.id] + 1], held := [])
  }

  /** Programs, counters and the word in hand after a turn that memory answered. */
  function Counted(x: Machine, a: Turn, reply: Reply): Machine
    requires Fits(x, a)
  {
    match a
    case Access(Fetch) =>
      if Current(x).kind == C.READ then Advanced(x) else if reply.Value? then x.(held := reply.v) else x
    case Access(Put(_)) => Advanced(x)
    case Plain => Advanced(x)
    case Admit(_, program) =>
      if reply.Id? then x.(code := x.code[reply.id := program], pc := x.pc[reply.id := 0]) else x
    case Retire(id) => x.(code := x.code - {id}, pc := x.pc - {id})
    case _ => x
  }

  ghost function After(x: Machine, a: Turn): Machine
    requires Can(x, a)
  {
    if EventOf(a) == [] then Counted(x, a, Ok)
    else
      var e := EventOf(a)[0];
      Counted(x, a, Step(x.m, e).1).(m := Step(x.m, e).0, flat := FlatStep(x.m, x.flat, e))
  }

  // ---------------------------------------------------------------- invariant

  /** Memory has been told all that the program by itself would have written. */
  ghost predicate Matches(flat: Flat, id: nat, b: Bytes) {
    forall page, off | (page, off) in b :: (id, page, off) in flat && flat[(id, page, off)] == b[(page, off)]
  }

  function Done(x: Machine, id: nat): seq<C.Instr>
    requires id in x.code && id in x.pc && x.pc[id] <= |x.code[id]|
  {
    x.code[id][..x.pc[id]]
  }

  ghost predicate CodeOk(x: Machine) {
    && x.code.Keys == x.pc.Keys && x.code.Keys <= x.m.s.swap.Keys
    && forall id | id in x.code :: x.pc[id] <= |x.code[id]|
  }

  ghost predicate AllMatch(x: Machine)
    requires CodeOk(x) && x.m.s.c.T > 0 && x.m.s.c.E > 0
  {
    forall id | id in x.code :: Matches(x.flat, id, Alone(x.m.s.c, Done(x, id)))
  }

  /** A word read agrees with what the program by itself would find there. */
  ghost predicate Reads(b: Bytes, page: nat, off: nat, v: seq<Byte>) {
    |v| == WORD && forall k | 0 <= k < WORD && (page, off + k) in b :: v[k] == b[(page, off + k)]
  }

  ghost predicate HeldOk(x: Machine)
    requires CodeOk(x)
  {
    x.held != [] ==>
      && Runs(x) && Current(x).kind == C.COPY
      && Reads(Alone(x.m.s.c, Done(x, x.m.id)),
               PageOf(x.m.s.c, Current(x).op2), OffsetOf(x.m.s.c, Current(x).op2), x.held)
  }

  /** The access in hand is the current instruction's. */
  predicate InHand(x: Machine) {
    !x.m.at.Idle? ==> Runs(x) && UsesMemory(Current(x)) && x.m.at.l == Split(x.m.s.c, Target(x))
  }

  ghost predicate CpuGood(x: Machine) {
    Trusted(x.m) && Harmless(x.m.s.c, |x.m.t.slots|) && Represents(x.m.s, x.flat)
  }

  ghost predicate CodeGood(x: Machine) {
    ConfigOk(x.m.s.c) && CodeOk(x) && AllMatch(x) && HeldOk(x) && InHand(x)
  }

  ghost predicate Good(x: Machine) {
    CpuGood(x) && CodeGood(x)
  }

  // ---------------------------------------------------------------- bytes and flat arrays

  lemma WrittenMatches(flat: Flat, id: nat, b: Bytes, page: nat, off: nat, v: seq<Byte>)
    requires |v| == WORD && Matches(flat, id, b)
    ensures Matches(Written(flat, id, page, off, v), id, Stored(b, page, off, v))
  {
    var b', flat' := Stored(b, page, off, v), Written(flat, id, page, off, v);
    forall p, o | (p, o) in b' ensures (id, p, o) in flat' && flat'[(id, p, o)] == b'[(p, o)] {
      if (p, o) in WordAt(page, off) {
        WrittenWord(flat, id, page, off, v, o - off);
      } else {
        assert (p, o) in b;
      }
    }
  }

  lemma CopiedMatches(flat: Flat, id: nat, b: Bytes, page: nat, off: nat, page': nat, off': nat, v: seq<Byte>)
    requires Matches(flat, id, b) && Reads(b, page', off', v)
    ensures Matches(Written(flat, id, page, off, v), id, Copied(b, page, off, page', off'))
  {
    var b', flat' := Copied(b, page, off, page', off'), Written(flat, id, page, off, v);
    forall p, o | (p, o) in b' ensures (id, p, o) in flat' && flat'[(id, p, o)] == b'[(p, o)] {
      if (p, o) in WordAt(page, off) {
        WrittenWord(flat, id, page, off, v, o - off);
        assert b'[(p, o)] == b[(page', off' + (o - off))];
      } else {
        assert (p, o) in b && b'[(p, o)] == b[(p, o)];
      }
    }
  }

  lemma OthersMatch(flat: Flat, id: nat, page: nat, off: nat, v: seq<Byte>, other: nat, b: Bytes)
    requires |v| == WORD && other != id && Matches(flat, other, b)
    ensures Matches(Written(flat, id, page, off, v), other, b) && Matches(Without(flat, id), other, b)
  {
  }

  lemma AgreesReads(flat: Flat, id: nat, b: Bytes, page: nat, off: nat, v: seq<Byte>)
    requires Matches(flat, id, b) && Agrees(flat, id, page, off, v)
    ensures Reads(b, page, off, v)
  {
  }

  lemma AloneNext(c: Config, program: seq<C.Instr>, n: nat)
    requires c.T > 0 && c.E > 0 && n < |program|
    ensures Alone(c, program[..n + 1]) == Exec(c, Alone(c, program[..n]), program[n])
  {
    assert program[..n + 1][..n] == program[..n];
  }

  // ---------------------------------------------------------------- one turn

  /** What CPU and memory keep. */
  lemma TurnCpu(x: Machine, a: Turn)
    requires Good(x) && Can(x, a)
    ensures CpuGood(After(x, a)) && After(x, a).m.s.c == x.m.s.c
  {
    hide CpuOk, Coherent, Step, Represents, FlatStep, Possible, RightEvent, CodeGood, Fits;
    if EventOf(a) != [] {
      var e := EventOf(a)[0];
      StepTrusted(x.m, e);
      StepKeeps(x.m, e);
      StepIsFlat(x.m, x.flat, e);
    }
  }

  lemma ConfigOf(x: Machine)
    requires CpuOk(x.m)
    ensures ConfigOk(x.m.s.c) && Inv(x.m.s)
  {
  }

  /** A lookup or a request of the walk: only the stage of the access changes. */
  lemma WalkStage(m: Cpu, e: CpuMemory.Event)
    requires CpuOk(m) && Possible(m, e) && (e.Begin? || e.AskTable? || e.AskFrame?)
    ensures var m' := Step(m, e).0;
            !m'.at.Idle? && m'.at.l == (if e.Begin? then e.l else m.at.l) && m'.id == m.id
  {
    if e.AskFrame? {
      FramedStage(m);
    }
    hide CpuOk, T.Lookup, Framed;
  }

  /** Nothing that programs are about has changed, but for the stage of the access. */
  lemma SameCode(x: Machine, x': Machine)
    requires CodeGood(x) && x'.m.s.c == x.m.s.c && x'.m.id == x.m.id && x'.m.s.swap.Keys == x.m.s.swap.Keys
    requires x'.code == x.code && x'.pc == x.pc && x'.held == x.held && x'.flat == x.flat
    requires !x'.m.at.Idle? ==> Runs(x) && UsesMemory(Current(x)) && x'.m.at.l == Split(x.m.s.c, Target(x))
    ensures CodeGood(x')
  {
    hide Matches, Alone, Reads, PageOf, OffsetOf, Split;
    assert forall id | id in x.code && id in x.pc && x.pc[id] <= |x.code[id]| :: Done(x', id) == Done(x, id);
    hide Done;
  }

  lemma WalkTurn(x: Machine, e: CpuMemory.Event)
    requires Good(x) && Can(x, Access(e)) && (e.Begin? || e.AskTable? || e.AskFrame?)
    ensures Good(After(x, Access(e)))
  {
    hide CpuOk, Step, RightEvent, CpuGood, CodeGood, Possible, Split;
    TurnCpu(x, Access(e));
    ConfigOf(x);
    WalkStage(x.m, e);
    UseTables(x.m, e);
    WalkGoesOn(x, e);
    SameCode(x, After(x, Access(e)));
  }

  lemma WalkGoesOn(x: Machine, e: CpuMemory.Event)
    requires CodeGood(x) && Can(x, Access(e)) && (e.Begin? || e.AskTable? || e.AskFrame?)
    ensures Runs(x) && UsesMemory(Current(x))
    ensures (if e.Begin? then e.l else x.m.at.l) == Split(x.m.s.c, Target(x))
    ensures e.Begin? || !x.m.at.Idle?
  {
    hide CpuOk, RightEvent, AllMatch, HeldOk, Split, InProcess;
  }

  /** The current instruction has been executed: nothing is in hand. */
  lemma Executed(x: Machine, x': Machine, b: Bytes)
    requires CodeGood(x) && Runs(x) && x'.m.s.c == x.m.s.c && x'.m.at.Idle?
    requires x'.code == x.code && x'.pc == x.pc[x.m.id := x.pc[x.m.id] + 1] && x'.held == []
    requires x'.m.s.swap.Keys == x.m.s.swap.Keys
    requires b == Exec(x.m.s.c, Alone(x.m.s.c, Done(x, x.m.id)), Current(x)) && Matches(x'.flat, x.m.id, b)
    requires forall id | id in x.code && id != x.m.id :: Matches(x'.flat, id, Alone(x.m.s.c, Done(x, id)))
    ensures CodeGood(x')
  {
    hide Matches, Exec, Alone, HeldOk;
    HeldNothing(x');
    AloneNext(x.m.s.c, x.code[x.m.id], x.pc[x.m.id]);
    assert forall id | id in x.code && id != x.m.id :: Done(x', id) == Done(x, id);
  }

  lemma HeldNothing(x: Machine)
    requires x.held == []
    ensures CodeOk(x) ==> HeldOk(x)
  {
  }

  lemma MatchOf(x: Machine)
    requires CodeGood(x)
    ensures CodeOk(x) && x.m.s.c.T > 0 && x.m.s.c.E > 0
    ensures forall id | id in x.code :: Matches(x.flat, id, Alone(x.m.s.c, Done(x, id)))
  {
    hide Matches, Alone, HeldOk, InHand;
  }

  /** What is fetched, for the program by itself. */
  lemma Fetched(x: Machine)
    requires Good(x) && Can(x, Access(Fetch))
    ensures CodeOk(x) && Step(x.m, Fetch).1.Value?
    ensures Reads(Alone(x.m.s.c, Done(x, x.m.id)), PageOf(x.m.s.c, Target(x)), OffsetOf(x.m.s.c, Target(x)),
                  Step(x.m, Fetch).1.v)
  {
    hide CpuOk, Coherent, Represents, Alone, Split, RightEvent, PageNo, Agrees, Step, Matches, Reads, HeldOk;
    StepIsFlat(x.m, x.flat, Fetch);
    MatchOf(x);
    hide AllMatch, InProcess, Done;
    var l := x.m.at.l;
    AgreesReads(x.flat, x.m.id, Alone(x.m.s.c, Done(x, x.m.id)), PageNo(x.m.s.c, l.e1, l.e2), l.off,
                Step(x.m, Fetch).1.v);
  }

  /** Once it is served, the access is over. */
  lemma ServedStage(m: Cpu, e: CpuMemory.Event)
    requires CpuOk(m) && Possible(m, e) && (e.Fetch? || e.Put?)
    ensures Step(m, e).0.at.Idle? && Step(m, e).0.id == m.id
  {
    hide CpuOk, Locate, ServeRead, ServeWrite;
  }

  /** A COPY holds what it has fetched. */
  lemma Holding(x: Machine, x': Machine, v: seq<Byte>)
    requires CodeGood(x) && Runs(x) && Current(x).kind == C.COPY && x.held == []
    requires x'.m.s.c == x.m.s.c && x'.m.id == x.m.id && x'.m.s.swap.Keys == x.m.s.swap.Keys && x'.m.at.Idle?
    requires x'.code == x.code && x'.pc == x.pc && x'.held == v && x'.flat == x.flat
    requires Reads(Alone(x.m.s.c, Done(x, x.m.id)), PageOf(x.m.s.c, Target(x)), OffsetOf(x.m.s.c, Target(x)), v)
    ensures CodeGood(x')
  {
    hide Matches, Alone, Reads, PageOf, OffsetOf;
    assert forall id | id in x.code && id in x.pc && x.pc[id] <= |x.code[id]| :: Done(x', id) == Done(x, id);
    hide Done;
  }

  lemma FetchTurn(x: Machine)
    requires Good(x) && Can(x, Access(Fetch))
    ensures Good(After(x, Access(Fetch)))
  {
    hide CpuOk, CpuGood, CodeGood, Possible, Alone, RightEvent, Exec, Matches, Reads, Step, PageOf, OffsetOf, CodeOk;
    TurnCpu(x, Access(Fetch));
    ConfigOf(x);
    UseTables(x.m, Fetch);
    ServedStage(x.m, Fetch);
    Fetched(x);
    MatchOf(x);
    var x' := After(x, Access(Fetch));
    if Current(x).kind == C.READ {
      ReadDoesNothing(x.m.s.c, Alone(x.m.s.c, Done(x, x.m.id)), Current(x));
      Executed(x, x', Alone(x.m.s.c, Done(x, x.m.id)));
    } else {
      Holding(x, x', Step(x.m, Fetch).1.v);
    }
  }

  lemma ReadDoesNothing(c: Config, b: Bytes, i: C.Instr)
    requires c.T > 0 && c.E > 0 && i.kind != C.WRITE && i.kind != C.COPY
    ensures Exec(c, b, i) == b
  {
  }

  /** What a write tells memory is what the instruction does to the program's bytes. */
  lemma PutMatches(x: Machine, v: seq<Byte>)
    requires Good(x) && Can(x, Access(Put(v)))
    ensures CodeOk(x) && x.m.s.c.T > 0 && x.m.s.c.E > 0 && x.m.at.Located? && |v| == WORD
    ensures FlatStep(x.m, x.flat, Put(v)) == Written(x.flat, x.m.id, PageNo(x.m.s.c, x.m.at.l.e1, x.m.at.l.e2),
                                                     x.m.at.l.off, v)
    ensures Matches(FlatStep(x.m, x.flat, Put(v)), x.m.id,
                    Exec(x.m.s.c, Alone(x.m.s.c, Done(x, x.m.id)), Current(x)))
  {
    hide CpuOk, Coherent, Represents, Alone, Split, RightEvent, PageNo, Matches, Written, Stored, Copied, InProcess;
    MatchOf(x);
    var c, id, l := x.m.s.c, x.m.id, x.m.at.l;
    var b, i := Alone(c, Done(x, id)), Current(x);
    var page, off := PageNo(c, l.e1, l.e2), l.off;
    if i.kind == C.WRITE {
      WrittenMatches(x.flat, id, b, page, off, v);
    } else {
      CopiedMatches(x.flat, id, b, page, off, PageOf(c, i.op2), OffsetOf(c, i.op2), v);
    }
    hide Reads;
  }

  lemma PutTurn(x: Machine, v: seq<Byte>)
    requires Good(x) && Can(x, Access(Put(v)))
    ensures Good(After(x, Access(Put(v))))
  {
    hide CpuOk, CpuGood, CodeGood, Possible, Alone, Exec, Matches, Step, FlatStep, Done, Fits, After;
    TurnCpu(x, Access(Put(v)));
    PutCounts(x, v);
    PutMatches(x, v);
    OthersPut(x, v);
    Executed(x, After(x, Access(Put(v))), Exec(x.m.s.c, Alone(x.m.s.c, Done(x, x.m.id)), Current(x)));
  }

  /** Memory is told, and the instruction is over. */
  lemma PutCounts(x: Machine, v: seq<Byte>)
    requires Good(x) && Can(x, Access(Put(v)))
    ensures Runs(x)
    ensures var x' := After(x, Access(Put(v)));
            && x'.m.at.Idle? && x'.m.s.swap.Keys == x.m.s.swap.Keys
            && x'.code == x.code && x'.pc == x.pc[x.m.id := x.pc[x.m.id] + 1] && x'.held == []
            && x'.flat == FlatStep(x.m, x.flat, Put(v))
  {
    hide CpuOk, CpuGood, CodeGood, Possible, Step, FlatStep;
    UseTables(x.m, Put(v));
    ServedStage(x.m, Put(v));
  }

  /** What it tells memory is nobody else's business. */
  lemma OthersPut(x: Machine, v: seq<Byte>)
    requires Good(x) && Can(x, Access(Put(v)))
    ensures CodeOk(x) && x.m.s.c.T > 0 && x.m.s.c.E > 0
    ensures forall other | other in x.code && other != x.m.id ::
              Matches(FlatStep(x.m, x.flat, Put(v)), other, Alone(x.m.s.c, Done(x, other)))
  {
    hide CpuOk, CpuGood, CodeGood, Possible, Alone, Exec, Matches, Reads, Written, FlatStep, Done, Fits;
    PutMatches(x, v);
    MatchOf(x);
    var c, l := x.m.s.c, x.m.at.l;
    forall other | other in x.code && other != x.m.id
      ensures Matches(FlatStep(x.m, x.flat, Put(v)), other, Alone(c, Done(x, other)))
    {
      OthersMatch(x.flat, x.m.id, PageNo(c, l.e1, l.e2), l.off, v, other, Alone(c, Done(x, other)));
    }
  }

  lemma PlainTurn(x: Machine)
    requires Good(x) && Can(x, Plain)
    ensures Good(After(x, Plain))
  {
    hide CpuOk, CpuGood, CodeGood, Alone, Exec, Matches, CodeOk;
    TurnCpu(x, Plain);
    MatchOf(x);
    ReadDoesNothing(x.m.s.c, Alone(x.m.s.c, Done(x, x.m.id)), Current(x));
    Executed(x, After(x, Plain), Alone(x.m.s.c, Done(x, x.m.id)));
  }

  /** Another process is on the CPU, between instructions. */
  lemma Elsewhere(x: Machine, x': Machine)
    requires CodeGood(x) && x'.m.s.c == x.m.s.c && x'.m.s.swap.Keys == x.m.s.swap.Keys && x'.m.at == x.m.at
    requires x'.code == x.code && x'.pc == x.pc && x'.held == x.held && x'.flat == x.flat
    requires x'.m.id == x.m.id || (x.held == [] && x.m.at.Idle?)
    ensures CodeGood(x')
  {
    hide Matches, Alone, Reads, PageOf, OffsetOf, Split;
    assert forall id | id in x.code && id in x.pc && x.pc[id] <= |x.code[id]| :: Done(x', id) == Done(x, id);
    hide Done;
  }

  lemma SwitchTurn(x: Machine, id: nat)
    requires Good(x) && Can(x, Switch(id))
    ensures Good(After(x, Switch(id)))
  {
    hide CpuOk, CpuGood, CodeGood, RightEvent;
    TurnCpu(x, Switch(id));
    Elsewhere(x, After(x, Switch(id)));
  }

  /** The kernel's requests leave the access in hand, and the word in hand, alone. */
  lemma AskStage(m: Cpu, r: Request)
    requires CpuOk(m) && Possible(m, Ask(r)) && Inv(m.s) && Enabled(m.s, r)
    ensures var m' := Step(m, Ask(r)).0;
            m'.at == m.at && (m'.id == m.id || (Concerns(r, m.id) && m.at.Idle? && m'.id == 0))
    ensures Step(m, Ask(r)).1 == Serve(m.s, r).1 && Step(m, Ask(r)).0.s == Serve(m.s, r).0
  {
    hide CpuOk, Serve;
  }

  /** A process more, with nothing executed yet. */
  lemma OneMore(x: Machine, x': Machine, id: nat, program: seq<C.Instr>)
    requires CodeGood(x) && id !in x.m.s.swap && x'.m.s.c == x.m.s.c && x'.m.at == x.m.at && x'.m.id == x.m.id
    requires x'.m.s.swap.Keys == x.m.s.swap.Keys + {id} && x'.held == x.held && x'.flat == x.flat
    requires x'.code == x.code[id := program] && x'.pc == x.pc[id := 0]
    requires x.m.id != id
    ensures CodeGood(x')
  {
    hide Matches, Reads, PageOf, OffsetOf, Split, Exec;
    NothingYet(x.flat, x.m.s.c, program);
    hide Alone;
    assert forall i | i in x.code && i in x.pc && x.pc[i] <= |x.code[i]| :: Done(x', i) == Done(x, i);
    assert Runs(x) ==> Runs(x') && Current(x') == Current(x);
    assert Done(x', id) == program[..0];
    hide Done;
  }

  lemma AdmitTurn(x: Machine, size: nat, program: seq<C.Instr>)
    requires Good(x) && Can(x, Admit(size, program))
    ensures Good(After(x, Admit(size, program)))
  {
    hide CpuOk, CpuGood, CodeGood, Inv, RightEvent, ServeCreate, Step, SameImages, ImageOf, Enabled;
    TurnCpu(x, Admit(size, program));
    ConfigOf(x);
    RunningLive(x.m);
    AskStage(x.m, Create(size));
    CreateStep(x.m.s, size);
    var reply, x' := Serve(x.m.s, Create(size)).1, After(x, Admit(size, program));
    if reply.Id? {
      LiveNotZero(x'.m.s, reply.id);
      OneMore(x, x', reply.id, program);
    } else {
      Elsewhere(x, x');
    }
  }

  lemma RunningLive(m: Cpu)
    requires CpuOk(m)
    ensures m.id != 0 ==> m.id in m.s.swap
  {
  }

  lemma NothingYet(flat: Flat, c: Config, program: seq<C.Instr>)
    requires c.T > 0 && c.E > 0
    ensures forall id: nat :: Matches(flat, id, Alone(c, program[..0]))
  {
    assert program[..0] == [];
  }

  lemma ParkTurn(x: Machine, id: nat)
    requires Good(x) && Can(x, Park(id))
    ensures Good(After(x, Park(id)))
  {
    hide CpuOk, CpuGood, CodeGood, Inv, RightEvent, ServeSuspend, Step, SameImages, FreesSlot;
    TurnCpu(x, Park(id));
    ConfigOf(x);
    AskStage(x.m, Suspend(id));
    SuspendStep(x.m.s, id);
    Elsewhere(x, After(x, Park(id)));
  }

  /** A process less. */
  lemma OneLess(x: Machine, x': Machine, id: nat)
    requires CodeGood(x) && x'.m.s.c == x.m.s.c && x'.m.at == x.m.at && x'.flat == Without(x.flat, id)
    requires x'.m.s.swap.Keys == x.m.s.swap.Keys - {id} && x'.held == x.held
    requires x'.code == x.code - {id} && x'.pc == x.pc - {id}
    requires (x'.m.id == x.m.id != id) || (x.held == [] && x.m.at.Idle?)
    ensures CodeGood(x')
  {
    hide Matches, Reads, PageOf, OffsetOf, Split, Exec, Alone, Without;
    forall other | other in x'.code ensures Matches(x'.flat, other, Alone(x.m.s.c, Done(x', other))) {
      OthersMatch(x.flat, id, 0, 0, [0, 0, 0, 0], other, Alone(x.m.s.c, Done(x, other)));
      assert Done(x', other) == Done(x, other);
    }
    assert Runs(x) && x'.m.id == x.m.id != id ==>
        Runs(x') && Current(x') == Current(x) && Done(x', x.m.id) == Done(x, x.m.id);
    hide Done;
  }

  lemma RetireTurn(x: Machine, id: nat)
    requires Good(x) && Can(x, Retire(id))
    ensures Good(After(x, Retire(id)))
  {
    hide CpuOk, CpuGood, CodeGood, Inv, RightEvent, ServeFinish, Step, SameImages, FreesSlot;
    TurnCpu(x, Retire(id));
    ConfigOf(x);
    AskStage(x.m, Finish(id));
    FinishStep(x.m.s, id);
    OneLess(x, After(x, Retire(id)), id);
  }

  lemma TurnGood(x: Machine, a: Turn)
    requires Good(x) && Can(x, a)
    ensures Good(After(x, a))
  {
    hide Good, CpuOk, Possible, RightEvent, After;
    match a
    case Access(Begin(l)) => WalkTurn(x, Begin(l));
    case Access(AskTable) => WalkTurn(x, AskTable);
    case Access(AskFrame) => WalkTurn(x, AskFrame);
    case Access(Fetch) => FetchTurn(x);
    case Access(Put(v)) => PutTurn(x, v);
    case Plain => PlainTurn(x);
    case Switch(id) => SwitchTurn(x, id);
    case Admit(size, program) => AdmitTurn(x, size, program);
    case Park(id) => ParkTurn(x, id);
    case Retire(id) => RetireTurn(x, id);
    case Access(_) =>
  }

  // ---------------------------------------------------------------- whole runs

  /** Every turn is one that can be taken when it comes. */
  ghost predicate Plays(x: Machine, turns: seq<Turn>)
    decreases |turns|
  {
    turns == [] || (Can(x, turns[0]) && Plays(After(x, turns[0]), turns[1..]))
  }

  ghost function Played(x: Machine, turns: seq<Turn>): Machine
    requires Plays(x, turns)
    decreases |turns|
  {
    if turns == [] then x else Played(After(x, turns[0]), turns[1..])
  }

  lemma {:induction false} PlayedGood(x: Machine, turns: seq<Turn>)
    requires Good(x) && Plays(x, turns)
    ensures Good(Played(x, turns)) && Played(x, turns).m.s.c == x.m.s.c
    decreases |turns|
  {
    hide Good, Can, After;
    if turns != [] {
      TurnGood(x, turns[0]);
      TurnConfig(x, turns[0]);
      PlayedGood(After(x, turns[0]), turns[1..]);
    }
  }

  lemma TurnConfig(x: Machine, a: Turn)
    requires Good(x) && Can(x, a)
    ensures After(x, a).m.s.c == x.m.s.c
  {
    hide Good, Can;
    TurnCpu(x, a);
    hide After;
  }

  /** Power-on: no process, no program. */
  function Boot(c: Config, entries: nat, policy: T.Policy): Machine {
    Machine(Start(c, entries, policy), map[], map[], [], map[])
  }

  lemma BootGood(c: Config, entries: nat, policy: T.Policy)
    requires ConfigOk(c) && entries > 0 && Harmless(c, entries)
    ensures Good(Boot(c, entries, policy)) && Boot(c, entries, policy).m.s.c == c
  {
    var x := Boot(c, entries, policy);
    assert Represents(x.m.s, map[]);
    assert x.m.at.Idle? by {
      StartIdle(c, entries, policy);
    }
    hide CpuOk, Coherent, Represents, Start;
  }

  lemma StartIdle(c: Config, entries: nat, policy: T.Policy)
    ensures Start(c, entries, policy).at.Idle?
  {
  }

  /** Whatever the schedule, memory holds for every process all that its program would have
      written had it run by itself up to where it stands. */
  lemma ProgramsRunAsAlone(c: Config, entries: nat, policy: T.Policy, turns: seq<Turn>, id: nat)
    requires ConfigOk(c) && entries > 0 && Harmless(c, entries)
    requires Plays(Boot(c, entries, policy), turns) && id in Played(Boot(c, entries, policy), turns).code
    ensures var x := Played(Boot(c, entries, policy), turns);
            && id in x.pc && x.pc[id] <= |x.code[id]| && id in x.m.s.swap
            && forall page, off | (page, off) in Alone(c, Done(x, id)) ::
                 && page in ImageOf(x.m.s, id) && off < |ImageOf(x.m.s, id)[page]|
                 && ImageOf(x.m.s, id)[page][off] == Alone(c, Done(x, id))[(page, off)]
  {
    hide Good, Plays, Played, Boot, Alone, ImageOf, Done;
    BootGood(c, entries, policy);
    PlayedGood(Boot(c, entries, policy), turns);
    BytesKept(Played(Boot(c, entries, policy), turns), id);
  }

  /** Memory holds what the program of a live process would have written by itself. */
  lemma BytesKept(x: Machine, id: nat)
    requires Good(x) && id in x.code
    ensures id in x.pc && x.pc[id] <= |x.code[id]| && id in x.m.s.swap && x.m.s.c.T > 0 && x.m.s.c.E > 0
    ensures var b := Alone(x.m.s.c, Done(x, id));
            forall page, off | (page, off) in b ::
              && page in ImageOf(x.m.s, id) && off < |ImageOf(x.m.s, id)[page]|
              && ImageOf(x.m.s, id)[page][off] == b[(page, off)]
  {
    hide Trusted, Harmless, ImageOf, Alone, HeldOk, InHand;
    var b := Alone(x.m.s.c, Done(x, id));
    forall page, off | (page, off) in b
      ensures page in ImageOf(x.m.s, id) && off < |ImageOf(x.m.s, id)[page]|
              && ImageOf(x.m.s, id)[page][off] == b[(page, off)]
    {
      assert (id, page, off) in x.flat;
    }
  }

  /** The address in hand is the first operand of a READ, and the second of a COPY; the word
      fetched there is the one the program by itself would find. */
  lemma FetchedFrom(x: Machine)
    requires Good(x) && Can(x, Access(Fetch))
    ensures CodeOk(x) && x.m.id in x.code && x.pc[x.m.id] < |x.code[x.m.id]| && x.m.s.c.T > 0 && x.m.s.c.E > 0
    ensures var c, id, reply := x.m.s.c, x.m.id, Step(x.m, Fetch).1;
            var i := x.code[id][x.pc[id]];
            var a := if i.kind == C.READ then i.op1 else i.op2;
            && (i.kind == C.READ || i.kind == C.COPY)
            && x.m.at.Located? && x.m.at.l == Split(c, a) && reply.Value?
            && Reads(Alone(c, x.code[id][..x.pc[id]]), PageOf(c, a), OffsetOf(c, a), reply.v)
  {
    hide CpuGood, Alone, Split, PageNo, Agrees, Step, Matches, Reads, HeldOk, AllMatch, CpuOk;
    Fetched(x);
    GoodParts(x);
    hide InProcess;
  }

  /** And every word a READ or a COPY fetches is the one its program by itself would find
      at its operand, byte by byte where that has a value. */
  lemma FetchesAsAlone(c: Config, entries: nat, policy: T.Policy, turns: seq<Turn>)
    requires ConfigOk(c) && entries > 0 && Harmless(c, entries)
    requires Plays(Boot(c, entries, policy), turns) && Can(Played(Boot(c, entries, policy), turns), Access(Fetch))
    ensures var x := Played(Boot(c, entries, policy), turns);
            var id, reply := x.m.id, Step(x.m, Fetch).1;
            && id in x.code && id in x.pc && x.pc[id] < |x.code[id]|
            && var i := x.code[id][x.pc[id]];
               var a := if i.kind == C.READ then i.op1 else i.op2;
               && (i.kind == C.READ || i.kind == C.COPY)
               && x.m.at.Located? && x.m.at.l == Split(c, a) && reply.Value?
               && Reads(Alone(c, x.code[id][..x.pc[id]]), PageOf(c, a), OffsetOf(c, a), reply.v)
  {
    hide Good, Plays, Played, Boot, Alone, Reads, CpuOk, PageOf, OffsetOf, After, Step, Fits, Possible, Split;
    BootGood(c, entries, policy);
    PlayedGood(Boot(c, entries, policy), turns);
    FetchedFrom(Played(Boot(c, entries, policy), turns));
  }

  /** A WRITE and a COPY write to their first operand: a WRITE the bytes of its second, a COPY
      the word that its program by itself would find at its second. */
  lemma PutsAsAlone(c: Config, entries: nat, policy: T.Policy, turns: seq<Turn>, v: seq<Byte>)
    requires ConfigOk(c) && entries > 0 && Harmless(c, entries)
    requires Plays(Boot(c, entries, policy), turns) && Can(Played(Boot(c, entries, policy), turns), Access(Put(v)))
    ensures var x := Played(Boot(c, entries, policy), turns);
            var id := x.m.id;
            && id in x.code && id in x.pc && x.pc[id] < |x.code[id]|
            && var i := x.code[id][x.pc[id]];
               && (i.kind == C.WRITE || i.kind == C.COPY)
               && x.m.at.Located? && x.m.at.l == Split(c, i.op1)
               && (i.kind == C.WRITE ==> v == C.WordBytes(i.op2))
               && (i.kind == C.COPY ==>
                     Reads(Alone(c, x.code[id][..x.pc[id]]), PageOf(c, i.op2), OffsetOf(c, i.op2), v))
  {
    hide Good, Plays, Played, Boot, Alone, Reads, CpuOk, PageOf, OffsetOf, After, Fits, Possible, Split;
    BootGood(c, entries, policy);
    PlayedGood(Boot(c, entries, policy), turns);
    PutInto(Played(Boot(c, entries, policy), turns), v);
  }

  lemma PutInto(x: Machine, v: seq<Byte>)
    requires Good(x) && Can(x, Access(Put(v)))
    ensures CodeOk(x) && x.m.id in x.code && x.pc[x.m.id] < |x.code[x.m.id]| && x.m.s.c.T > 0 && x.m.s.c.E > 0
    ensures var c, id := x.m.s.c, x.m.id;
            var i := x.code[id][x.pc[id]];
            && (i.kind == C.WRITE || i.kind == C.COPY)
            && x.m.at.Located? && x.m.at.l == Split(c, i.op1)
            && (i.kind == C.WRITE ==> v == C.WordBytes(i.op2))
            && (i.kind == C.COPY ==>
                  Reads(Alone(c, x.code[id][..x.pc[id]]), PageOf(c, i.op2), OffsetOf(c, i.op2), v))
  {
    hide CpuGood, Alone, Split, Matches, Reads, AllMatch, CpuOk, PageOf, OffsetOf, C.WordBytes;
    GoodParts(x);
    hide InProcess;
  }

  lemma GoodParts(x: Machine)
    requires Good(x)
    ensures CodeOk(x) && Represents(x.m.s, x.flat) && CpuOk(x.m)
  {
    hide CpuOk, Coherent, Represents, AllMatch, HeldOk;
  }
}
