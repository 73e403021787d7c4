/** The instruction cycle of the CPU (cpu/src/cpu_kernel_server.c) and what the kernel
    takes back from it (kernel/src/cpu_adapter.c): programs cut into bursts by interrupts
    and I/O.
 */
module CpuCycle {
  import opened Codec
  import S = Scheduler

  /** How a burst ends: the CPU's answer, the program counter sent back, the instructions
      executed, and whether an interrupt is still pending. */
  datatype Burst = Burst(answer: S.Answer, pc: nat, executed: seq<Instr>, pending: bool)

  function Signalled(signals: seq<bool>): bool {
    signals != [] && signals[0]
  }

  function Later(signals: seq<bool>): seq<bool> {
    if signals == [] then [] else signals[1..]
  }

  /** One dispatch: fetch, execute, and look for an interrupt unless the instruction ends
      the burst by itself.  `signals` says during which instructions an interrupt arrives;
      it stays pending until it is served, if need be into the next dispatch. */
  function Cycle(list: seq<Instr>, pc: nat, pending: bool, signals: seq<bool>): Burst
    requires pc < |list| && WellFormed(list)
    decreases |list| - pc
  {
    var i := list[pc];
    var raised := pending || Signalled(signals);
    if i.kind == IO then Burst(S.Blocked(i.op1), pc + 1, [i], raised)
    else if i.kind == EXIT then Burst(S.Terminated, pc + 1, [i], raised)
    else if raised then Burst(S.Preempted, pc + 1, [i], false)
    else
      var rest := Cycle(list, pc + 1, false, Later(signals));
      rest.(executed := [i] + rest.executed)
  }

  /** A burst executes a stretch of the program, at least one instruction, without
      skipping or repeating; it ends at the first I/O or EXIT or is preempted, and the
      process has terminated exactly when the stretch reaches the end. */
  lemma {:induction false} BurstIsStretch(list: seq<Instr>, pc: nat, pending: bool, signals: seq<bool>)
    requires pc < |list| && WellFormed(list)
    ensures var b := Cycle(list, pc, pending, signals);
            && pc < b.pc <= |list| && b.executed == list[pc..b.pc]
            && (forall x | pc <= x < b.pc - 1 :: list[x].kind != IO && list[x].kind != EXIT)
            && (b.answer.Terminated? <==> b.pc == |list|)
            && (b.answer.Blocked? <==> list[b.pc - 1].kind == IO)
            && (b.answer.Blocked? ==> b.answer.ioTime == list[b.pc - 1].op1)
            && (b.answer.Preempted? <==> list[b.pc - 1].kind != IO && list[b.pc - 1].kind != EXIT)
    decreases |list| - pc
  {
    var i := list[pc];
    if i.kind != IO && i.kind != EXIT && !(pending || Signalled(signals)) {
      BurstIsStretch(list, pc + 1, false, Later(signals));
      hide WellFormed;
      FirstOff(list, pc, Cycle(list, pc + 1, false, Later(signals)).pc);
    }
  }

  lemma FirstOff(list: seq<Instr>, pc: nat, end: nat)
    requires pc < end <= |list|
    ensures list[pc..end] == [list[pc]] + list[pc + 1..end]
  {
  }

  /** During the instruction x after the first an interrupt is there: it was pending from
      before, or arrives. */
  predicate Raised(pending: bool, signals: seq<bool>, x: nat) {
    (pending && x == 0) || (x < |signals| && signals[x])
  }

  /** Every interrupt cuts: a burst is preempted behind the first instruction during which an
      interrupt is there, unless that is the I/O or EXIT it ends with anyway; then the
      interrupt stays pending, and otherwise none does. */
  lemma {:induction false} InterruptEndsBurst(list: seq<Instr>, pc: nat, pending: bool, signals: seq<bool>)
    requires pc < |list| && WellFormed(list)
    ensures var b := Cycle(list, pc, pending, signals);
            && pc < b.pc
            && (forall x | 0 <= x < b.pc - 1 - pc :: !Raised(pending, signals, x))
            && (b.answer.Preempted? ==> Raised(pending, signals, b.pc - 1 - pc) && !b.pending)
            && (!b.answer.Preempted? ==> b.pending == Raised(pending, signals, b.pc - 1 - pc))
    decreases |list| - pc
  {
    var i := list[pc];
    if i.kind != IO && i.kind != EXIT && !(pending || Signalled(signals)) {
      InterruptEndsBurst(list, pc + 1, false, Later(signals));
      var b := Cycle(list, pc + 1, false, Later(signals));
      forall x: nat ensures Raised(pending, signals, x + 1) == Raised(false, Later(signals), x) {
      }
      forall x | 0 <= x < b.pc - 1 - pc ensures !Raised(pending, signals, x) {
        if x > 0 {
          assert !Raised(false, Later(signals), x - 1);
        }
      }
    }
  }

  /** One turn of the cycle. */
  lemma CycleTurn(list: seq<Instr>, pc: nat, pending: bool, signals: seq<bool>, before: seq<Instr>)
    requires pc < |list| && WellFormed(list)
    ensures var i := list[pc];
            var raised := pending || Signalled(signals);
            var b := Cycle(list, pc, pending, signals);
            var all := b.(executed := before + b.executed);
            && (i.kind == IO ==> all == Burst(S.Blocked(i.op1), pc + 1, before + [i], raised))
            && (i.kind == EXIT ==> all == Burst(S.Terminated, pc + 1, before + [i], raised))
            && (i.kind != IO && i.kind != EXIT && raised ==> all == Burst(S.Preempted, pc + 1, before + [i], false))
            && (i.kind != IO && i.kind != EXIT && !raised ==>
                  && pc + 1 < |list|
                  && var rest := Cycle(list, pc + 1, false, Later(signals));
                     all == rest.(executed := (before + [i]) + rest.executed))
  {
    var i := list[pc];
    if i.kind != IO && i.kind != EXIT && !(pending || Signalled(signals)) {
      var rest := Cycle(list, pc + 1, false, Later(signals));
      assert before + ([i] + rest.executed) == (before + [i]) + rest.executed;
    }
  }

  /** The cycle as the loop it is, with `hayInterrupcion` as a field. */
  class Cpu {
    var interrupted: bool

    constructor ()
      ensures !interrupted
    {
      interrupted := false;
    }

    /** `__cpu_atender_interrupcion`. */
    method ServeInterrupt() returns (stop: bool)
      modifies this
      ensures stop == old(interrupted) && !interrupted
    {
      stop := interrupted;
      interrupted := false;
    }

    /** Lines 151-169, from the decoded list to the answer. */
    method Execute(list: seq<Instr>, from: nat, signals: seq<bool>)
      returns (answer: S.Answer, pc: nat, ghost executed: seq<Instr>)
      requires from < |list| && WellFormed(list)
      modifies this
      ensures Burst(answer, pc, executed, interrupted) == Cycle(list, from, old(interrupted), signals)
    {
      hide Cycle, WellFormed;
      pc := from;
      executed := [];
      answer := S.Terminated;
      var stop := false;
      var left := signals;
      ghost var whole := Cycle(list, from, interrupted, signals);
      while !stop
        invariant stop ==> Burst(answer, pc, executed, interrupted) == whole
        invariant !stop ==> pc < |list|
        invariant !stop ==>
                    var b := Cycle(list, pc, interrupted, left);
                    b.(executed := executed + b.executed) == whole
        decreases !stop, |list| - pc
      {
        CycleTurn(list, pc, interrupted, left, executed);
        var i := list[pc];
        pc := pc + 1;
        executed := executed + [i];
        interrupted := interrupted || Signalled(left);
        left := Later(left);
        if i.kind == IO {
          answer, stop := S.Blocked(i.op1), true;
        } else if i.kind == EXIT {
          answer, stop := S.Terminated, true;
        } else {
          stop := ServeInterrupt();
          if stop {
            answer := S.Preempted;
          }
        }
      }
    }
  }

  // ---------------------------------------------------------------- the kernel's side

  /** The PCB fields that travel. */
  datatype Pcb = Pcb(pid: nat, pc: nat, table: nat, ioTime: nat)

  /** `cpu_adapter_recibir_pcb_actualizado_de_cpu`: program counter and table always, the
      time of I/O only with a block. */
  function Updated(pcb: Pcb, answer: S.Answer, pc: nat, table: nat): Pcb {
    var p := pcb.(pc := pc, table := table);
    if answer.Blocked? then p.(ioTime := answer.ioTime) else p
  }

  /** One dispatch as the kernel sees it. */
  function Dispatched(list: seq<Instr>, pcb: Pcb, pending: bool, signals: seq<bool>): Pcb
    requires pcb.pc < |list| && WellFormed(list)
  {
    var b := Cycle(list, pcb.pc, pending, signals);
    Updated(pcb, b.answer, b.pc, pcb.table)
  }

  /** Every dispatch leaves strictly less of the program to do, by the instructions executed,
      and keeps the process and its page table; the time of I/O is that of the instruction
      the burst ended with, if that is one. */
  lemma DispatchProgress(list: seq<Instr>, pcb: Pcb, pending: bool, signals: seq<bool>)
    requires pcb.pc < |list| && WellFormed(list)
    ensures var p := Dispatched(list, pcb, pending, signals);
            && p.pid == pcb.pid && p.table == pcb.table
            && |list| - p.pc < |list| - pcb.pc && p.pc <= |list|
            && p.pc == pcb.pc + |Cycle(list, pcb.pc, pending, signals).executed|
            && p.ioTime == if list[p.pc - 1].kind == IO then list[p.pc - 1].op1 else pcb.ioTime
  {
    BurstIsStretch(list, pcb.pc, pending, signals);
  }

  /** What interrupts the process meets in each of its dispatches: one may be pending from
      before, others arrive. */
  datatype Weather = Weather(pending: bool, signals: seq<bool>)

  /** The process dispatched again and again until it terminates: what it executes in all,
      and the program counter. */
  function Dispatches(list: seq<Instr>, pc: nat, ws: seq<Weather>): (r: (seq<Instr>, nat))
    requires pc <= |list| && WellFormed(list)
    ensures pc <= r.1 <= |list|
    decreases |ws|
  {
    if ws == [] || pc == |list| then ([], pc)
    else
      BurstIsStretch(list, pc, ws[0].pending, ws[0].signals);
      var b := Cycle(list, pc, ws[0].pending, ws[0].signals);
      var (rest, end) := Dispatches(list, b.pc, ws[1..]);
      (b.executed + rest, end)
  }

  /** Preemption is invisible: over any pattern of interrupts, I/O and redispatches the
      instructions executed are the program from where it stood, in order, each once; and
      as many dispatches as instructions are enough to reach the EXIT. */
  lemma {:induction false} PreemptionInvisible(list: seq<Instr>, pc: nat, ws: seq<Weather>)
    requires pc <= |list| && WellFormed(list)
    ensures var (executed, end) := Dispatches(list, pc, ws);
            && executed == list[pc..end]
            && (|ws| >= |list| - pc ==> end == |list|)
    decreases |ws|
  {
    if ws != [] && pc < |list| {
      BurstIsStretch(list, pc, ws[0].pending, ws[0].signals);
      var b := Cycle(list, pc, ws[0].pending, ws[0].signals);
      PreemptionInvisible(list, b.pc, ws[1..]);
      var end := Dispatches(list, b.pc, ws[1..]).1;
      hide Cycle, WellFormed;
      assert list[pc..end] == list[pc..b.pc] + list[b.pc..end];
    }
  }

  /** Any meaning given to instructions, one after the other. */
  function Meaning<T>(f: (T, Instr) -> T, state: T, trace: seq<Instr>): T {
    if trace == [] then state else Meaning(f, f(state, trace[0]), trace[1..])
  }

  /** A program run to its end under any schedule means what it means run alone. */
  lemma SameMeaning<T>(f: (T, Instr) -> T, state: T, list: seq<Instr>, ws: seq<Weather>)
    requires WellFormed(list) && Dispatches(list, 0, ws).1 == |list|
    ensures Meaning(f, state, Dispatches(list, 0, ws).0) == Meaning(f, state, list)
  {
    PreemptionInvisible(list, 0, ws);
    assert list[0..|list|] == list;
  }
}
