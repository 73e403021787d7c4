/** The kernel's schedulers, I/O device, suspension timers and exit thread
    (kernel/src/scheduler.c) as a transition system.

    One step is what a thread does between two waits or sleeps.  The hand-off from
    SUSREADY, `__atender_bloqueo` together with the start of its timer, and a timer's
    removal and retagging are single steps.  Of memory the machine keeps only which page
    tables are active and which are suspended; module SystemRun puts the real one in.
 */
module Scheduler {
  import Arith
  import Srt
  import opened Queues

  /** `t_nombre_estado`, as stored in `estadoActual`; EXEC is never stored. */
  datatype Tag = NEW | READY | BLOCKED | SUSPENDED_BLOCKED | SUSPENDED_READY | EXIT

  /** The PCB fields scheduling depends on; `table` is 0 until admission. */
  datatype Pcb = Pcb(size: nat, tag: Tag, table: nat, blocks: nat, ioTime: nat,
                     estimate: real, previous: real, executed: real)

  /** `__iniciar_contador_blocked_a_suspended_blocked` asleep: process and block number. */
  datatype Timer = Timer(pid: nat, block: nat)

  datatype Mem = Mem(active: set<nat>, suspended: set<nat>, nextTable: nat)

  datatype LongTerm = AtWork | AtDegree
  datatype ShortTerm = AtReady | AtDispatch | Choosing
  datatype Attend = AtExec | AtCpu | Answering

  datatype Kernel = Kernel(
    // configuration: degree, slots of memory, limit of a block in milliseconds, algorithm,
    // smoothing factor and initial estimate
    degree: nat, slots: nat, limit: nat, srt: bool, alfa: real, initial: real,
    pcbs: map<nat, Pcb>, nextPid: nat,
    // queues
    newQ: seq<nat>, readyQ: seq<nat>, execQ: seq<nat>, exitQ: seq<nat>,
    blockedQ: seq<nat>, susBlockedQ: seq<nat>, susReadyQ: seq<nat>, ioQ: seq<nat>,
    // held by a thread: answered by the CPU and not yet queued, with the time it ran; in
    // the device
    flight: seq<nat>, device: seq<nat>, answer: Answer, ran: nat,
    // semaphores
    work: nat, grade: nat, semReady: nat, dispatch: nat, semExec: nat, semIo: nat, semExit: nat,
    // where the threads stand
    long: LongTerm, short: ShortTerm, attend: Attend,
    timers: seq<Timer>, lastSuspended: int,
    // hayQueDesalojar, interrupts on their way to the CPU, and its hayInterrupcion
    preempt: bool, asked: nat, interrupt: bool,
    mem: Mem)

  /** What the CPU answers with. */
  datatype Answer = Preempted | Terminated | Blocked(ioTime: nat)

  datatype Event =
    | Arrive(size: nat)              // encolar_en_new_a_nuevo_pcb_entrante
    | TakeWork | Admit               // __planificador_largo_plazo, with the hand-off
    | TakeReady | TakeDispatch | Pick(i: nat)   // __planificador_corto_plazo
    | Send | Answered(a: Answer, ran: nat) | Requeue   // __atender_pcb
    | Interrupt                      // the CPU receives one of the interrupts sent
    | Touch                          // the running process uses memory
    | TakeIo | IoDone                // __iniciar_dispositivo_io
    | Fire(i: nat, waited: nat)      // a suspension timer wakes up
    | Release                        // __hilo_que_libera_pcbs_en_exit

  function Init(degree: nat, slots: nat, limit: nat, srt: bool, alfa: real, initial: real): Kernel {
    Kernel(degree, slots, limit, srt, alfa, initial, map[], 1, [], [], [], [], [], [], [], [], [], [],
           Terminated, 0, 0, degree, 0, 1, 0, 0, 0, AtWork, AtReady, AtExec, [], -1, false, 0, false, Mem({}, {}, 1))
  }

  /** What SRT knows of process p. */
  function BurstOf(k: Kernel, p: nat): Srt.Burst {
    if p in k.pcbs then Srt.Burst(p, k.pcbs[p].estimate, k.pcbs[p].previous, k.pcbs[p].executed)
    else Srt.Burst(p, k.initial, 0.0, 0.0)
  }

  function ReadyBursts(k: Kernel): (q: seq<Srt.Burst>)
    ensures |q| == |k.readyQ|
  {
    seq(|k.readyQ|, j requires 0 <= j < |k.readyQ| => BurstOf(k, k.readyQ[j]))
  }

  /** `elegir_pcb`: the first of READY under FIFO, the earliest of least remaining estimate
      under SRT. */
  predicate Elects(k: Kernel, i: nat) {
    k.readyQ != [] ==> if k.srt then Srt.FirstLeast(ReadyBursts(k), i) else i == 0
  }

  /** The waits and sleeps that can be over, and what the CPU can do meanwhile; it gives
      a process back as preempted only on an interrupt. */
  predicate Enabled(k: Kernel, e: Event) {
    match e
    case Arrive(_) => true
    case TakeWork => k.long == AtWork && k.work > 0
    case Admit => k.long == AtDegree && k.grade > 0
    case TakeReady => k.short == AtReady && k.semReady > 0
    case TakeDispatch => k.short == AtDispatch && k.dispatch > 0
    case Pick(i) => k.short == Choosing && (k.readyQ != [] ==> i < |k.readyQ|) && Elects(k, i)
    case Send => k.attend == AtExec && k.semExec > 0
    case Answered(a, _) => k.attend == AtCpu && (a.Preempted? ==> k.interrupt)
    case Requeue => k.attend == Answering
    case Interrupt => k.asked > 0
    case Touch => k.attend == AtCpu
    case TakeIo => k.device == [] && k.semIo > 0
    case IoDone => k.device != []
    case Fire(i, _) => i < |k.timers|
    case Release => k.semExit > 0
  }

  // ---------------------------------------------------------------- steps

  function Retag(k: Kernel, p: nat, tag: Tag): map<nat, Pcb>
    requires p in k.pcbs
  {
    k.pcbs[p := k.pcbs[p].(tag := tag)]
  }

  function DoArrive(k: Kernel, size: nat): Kernel {
    k.(pcbs := k.pcbs[k.nextPid := Pcb(size, NEW, 0, 0, 0, k.initial, 0.0, 0.0)], nextPid := k.nextPid + 1,
       newQ := k.newQ + [k.nextPid], work := k.work + 1)
  }

  /** Lines 227-228 with 252-262. */
  function HandOff(k: Kernel): Kernel
    requires k.susReadyQ != [] && k.susReadyQ[0] in k.pcbs && k.grade > 0
  {
    var p := k.susReadyQ[0];
    k.(susReadyQ := k.susReadyQ[1..], pcbs := Retag(k, p, READY), readyQ := k.readyQ + [p],
       preempt := true, semReady := k.semReady + 1, grade := k.grade - 1, long := AtWork)
  }

  /** Lines 230-246; the table is refused when memory has no slot, and the process then
      goes to EXIT without a signal to the exit thread. */
  function FromNew(k: Kernel): Kernel
    requires k.newQ != [] && k.newQ[0] in k.pcbs && k.grade > 0
  {
    var p := k.newQ[0];
    if |k.mem.active| < k.slots then
      k.(newQ := k.newQ[1..], pcbs := k.pcbs[p := k.pcbs[p].(table := k.mem.nextTable)], readyQ := k.readyQ + [p],
         preempt := true, semReady := k.semReady + 1, grade := k.grade - 1, long := AtWork,
         mem := k.mem.(active := k.mem.active + {k.mem.nextTable}, nextTable := k.mem.nextTable + 1))
    else
      k.(newQ := k.newQ[1..], exitQ := k.exitQ + [p], grade := k.grade - 1, long := AtWork)
  }

  function DoPick(k: Kernel, i: nat): Kernel
    requires i < |k.readyQ|
  {
    k.(readyQ := RemoveAt(k.readyQ, i), execQ := k.execQ + [k.readyQ[i]],
       semExec := k.semExec + 1, short := AtReady)
  }

  /** Lines 321-331; the CPU clears the interrupt it has served. */
  function DoAnswered(k: Kernel, a: Answer, ran: nat): Kernel
    requires k.execQ != []
  {
    k.(flight := k.flight + [k.execQ[0]], execQ := k.execQ[1..], attend := Answering, answer := a, ran := ran,
       interrupt := k.interrupt && !a.Preempted?)
  }

  /** `actualizar_pcb_por_desalojo`, and `actualizar_pcb_por_bloqueo` of the algorithm. */
  function Charged(k: Kernel, p: nat): (pcb: Pcb)
    requires p in k.pcbs
    ensures pcb == k.pcbs[p].(estimate := pcb.estimate, previous := pcb.previous, executed := pcb.executed)
  {
    var b := match k.answer
      case Preempted => Srt.Preempted(BurstOf(k, p), k.ran as real)
      case Terminated => BurstOf(k, p)
      case Blocked(_) => if k.srt then Srt.Blocked(BurstOf(k, p), k.ran as real, k.alfa) else BurstOf(k, p);
    k.pcbs[p].(estimate := b.estimate, previous := b.previous, executed := b.executed)
  }

  /** Lines 337-358. */
  function DoRequeue(k: Kernel): Kernel
    requires |k.flight| > 0 && k.flight[0] in k.pcbs
  {
    var p := k.flight[0];
    var back := k.(flight := k.flight[1..], dispatch := k.dispatch + 1, attend := AtExec);
    match k.answer
    case Preempted =>
      back.(pcbs := k.pcbs[p := Charged(k, p).(tag := READY)], readyQ := k.readyQ + [p], semReady := k.semReady + 1)
    case Terminated => back.(pcbs := Retag(k, p, EXIT), exitQ := k.exitQ + [p], semExit := k.semExit + 1)
    case Blocked(ioTime) =>
      // __atender_bloqueo and the first lines of the timer thread
      var n := k.pcbs[p].blocks + 1;
      back.(pcbs := k.pcbs[p := Charged(k, p).(tag := BLOCKED, blocks := n, ioTime := ioTime)],
            ioQ := k.ioQ + [p], semIo := k.semIo + 1, blockedQ := k.blockedQ + [p],
            timers := k.timers + [Timer(p, n)])
  }

  /** The running process reaches its page table; a suspended one is woken. */
  function DoTouch(k: Kernel): Kernel
    requires k.execQ != [] && k.execQ[0] in k.pcbs
  {
    var t := k.pcbs[k.execQ[0]].table;
    if t in k.mem.suspended
    then k.(mem := k.mem.(active := k.mem.active + {t}, suspended := k.mem.suspended - {t}))
    else k
  }

  function DoTakeIo(k: Kernel): Kernel
    requires k.ioQ != [] && k.semIo > 0
  {
    k.(ioQ := k.ioQ[1..], device := [k.ioQ[0]], semIo := k.semIo - 1)
  }

  /** Lines 182-204. */
  function DoIoDone(k: Kernel): Kernel
    requires |k.device| > 0 && k.device[0] in k.pcbs
  {
    var p := k.device[0];
    var idle := k.(device := k.device[1..]);
    if k.pcbs[p].tag == BLOCKED then
      idle.(blockedQ := Without(k.blockedQ, p), pcbs := k.pcbs[p := k.pcbs[p].(tag := READY, ioTime := 0)],
            readyQ := k.readyQ + [p], preempt := true, semReady := k.semReady + 1)
    else if k.pcbs[p].tag == SUSPENDED_BLOCKED then
      idle.(susBlockedQ := Without(k.susBlockedQ, p),
            pcbs := k.pcbs[p := k.pcbs[p].(tag := SUSPENDED_READY, ioTime := 0)],
            susReadyQ := k.susReadyQ + [p], work := k.work + 1)
    else idle
  }

  /** Lines 149-153: the block is short enough to be let through. */
  predicate LetThrough(k: Kernel, p: nat, waited: nat)
    requires p in k.pcbs
  {
    k.pcbs[p].ioTime <= k.limit && k.pcbs[p].ioTime + 1000 * waited <= k.limit
  }

  /** Lines 145-167: nothing unless the process is in BLOCKED and this is its block.  A
      block let through leaves the process off the queue with its tag. */
  function DoFire(k: Kernel, i: nat, waited: nat): Kernel
    requires i < |k.timers|
  {
    var t := k.timers[i];
    var woken := k.(timers := k.timers[..i] + k.timers[i + 1..]);
    if t.pid in k.blockedQ && t.pid in k.pcbs && k.pcbs[t.pid].blocks == t.block then
      var off := woken.(blockedQ := Without(k.blockedQ, t.pid));
      if LetThrough(k, t.pid, waited) then off
      else
        off.(pcbs := Retag(k, t.pid, SUSPENDED_BLOCKED), susBlockedQ := k.susBlockedQ + [t.pid],
             lastSuspended := t.pid, grade := k.grade + 1,
             mem := k.mem.(active := k.mem.active - {k.pcbs[t.pid].table},
                           suspended := k.mem.suspended + {k.pcbs[t.pid].table}))
    else woken
  }

  /** Lines 210-216. */
  function DoRelease(k: Kernel): Kernel
    requires k.exitQ != [] && k.exitQ[0] in k.pcbs && k.semExit > 0
  {
    var p := k.exitQ[0];
    var t := k.pcbs[p].table;
    k.(exitQ := k.exitQ[1..], pcbs := k.pcbs - {p}, semExit := k.semExit - 1, grade := k.grade + 1,
       mem := k.mem.(active := k.mem.active - {t}, suspended := k.mem.suspended - {t}))
  }

  predicate Interrupts(k: Kernel) {
    k.srt && k.preempt && |k.execQ| == 1
  }

  /** Line 373 and `evaluar_desalojo`: under SRT a process that became ready since the
      last time has whoever executes interrupted.  The CPU may receive the interrupt late, and
      then it is for whoever executes by then. */
  function DoTakeReady(k: Kernel): Kernel
    requires k.semReady > 0
  {
    k.(semReady := k.semReady - 1, short := AtDispatch, preempt := k.preempt && !k.srt,
       asked := k.asked + if Interrupts(k) then 1 else 0)
  }

  /** Every queue a step takes from has what it takes, and queued processes are live. */
  ghost predicate Steady(k: Kernel, e: Event) {
    match e
    case Admit =>
      if k.susReadyQ != [] then k.susReadyQ[0] in k.pcbs else k.newQ != [] && k.newQ[0] in k.pcbs
    case Pick(_) => k.readyQ != []
    case Send => k.execQ != [] && k.execQ[0] in k.pcbs
    case Answered(_, _) => k.execQ != []
    case Requeue => k.flight != [] && k.flight[0] in k.pcbs
    case Touch => k.execQ != [] && k.execQ[0] in k.pcbs
    case TakeIo => k.ioQ != []
    case IoDone => k.device != [] && k.device[0] in k.pcbs
    case Release => k.exitQ != [] && k.exitQ[0] in k.pcbs
    case _ => true
  }

  function Step(k: Kernel, e: Event): Kernel
    requires Enabled(k, e) && Steady(k, e)
  {
    match e
    case Arrive(size) => DoArrive(k, size)
    case TakeWork => k.(work := k.work - 1, long := AtDegree)
    case Admit => if k.susReadyQ != [] then HandOff(k) else FromNew(k)
    case TakeReady => DoTakeReady(k)
    case TakeDispatch => k.(dispatch := k.dispatch - 1, short := Choosing)
    case Pick(i) => DoPick(k, i)
    case Send => k.(semExec := k.semExec - 1, attend := AtCpu)
    case Answered(a, ran) => DoAnswered(k, a, ran)
    case Interrupt => k.(asked := k.asked - 1, interrupt := true)
    case Requeue => DoRequeue(k)
    case Touch => DoTouch(k)
    case TakeIo => DoTakeIo(k)
    case IoDone => DoIoDone(k)
    case Fire(i, waited) => DoFire(k, i, waited)
    case Release => DoRelease(k)
  }

  // ---------------------------------------------------------------- invariants

  /** How many scheduling places p has; a blocked process is in the I/O queue or the
      device. */
  function Places(k: Kernel, p: nat): nat {
    Times(k.newQ, p) + Times(k.readyQ, p) + Times(k.execQ, p) + Times(k.flight, p)
    + Times(k.ioQ, p) + Times(k.device, p) + Times(k.susReadyQ, p) + Times(k.exitQ, p)
  }

  /** Every live process has exactly one place, and nobody else has any. */
  ghost predicate OnePlace(k: Kernel) {
    && 0 < k.nextPid
    && (forall p | p in k.pcbs :: 0 < p < k.nextPid)
    && forall p: nat :: Places(k, p) == if p in k.pcbs then 1 else 0
  }

  predicate AllTagged(pcbs: map<nat, Pcb>, q: seq<nat>, tags: set<Tag>) {
    forall p | p in q :: p in pcbs && pcbs[p].tag in tags
  }

  /** Tag and place agree; BLOCKED and SUSBLOCKED list waiting processes once, the
      latter exactly those so tagged. */
  ghost predicate Tagged(k: Kernel) {
    && AllTagged(k.pcbs, k.newQ, {NEW})
    && AllTagged(k.pcbs, k.readyQ, {NEW, READY})
    && AllTagged(k.pcbs, k.execQ, {NEW, READY})
    && AllTagged(k.pcbs, k.flight, {NEW, READY})
    && AllTagged(k.pcbs, k.ioQ, {BLOCKED, SUSPENDED_BLOCKED})
    && AllTagged(k.pcbs, k.device, {BLOCKED, SUSPENDED_BLOCKED})
    && AllTagged(k.pcbs, k.susReadyQ, {SUSPENDED_READY})
    && AllTagged(k.pcbs, k.exitQ, {EXIT})
    && AllTagged(k.pcbs, k.blockedQ, {BLOCKED})
    && AllTagged(k.pcbs, k.susBlockedQ, {SUSPENDED_BLOCKED})
    && NoDup(k.blockedQ) && NoDup(k.susBlockedQ)
    && forall p | p in k.pcbs && k.pcbs[p].tag == SUSPENDED_BLOCKED :: p in k.susBlockedQ
  }

  ghost function BlockedSet(k: Kernel): set<nat> {
    set p | p in k.pcbs && k.pcbs[p].tag == BLOCKED
  }

  /** Tokens are conserved. */
  ghost predicate Tokens(k: Kernel) {
    k.grade + |k.readyQ| + |k.execQ| + |k.flight| + |k.exitQ| + |BlockedSet(k)| == k.degree
  }

  /** Every semaphore counts its queue, less the unit a thread is holding. */
  ghost predicate Signals(k: Kernel) {
    && k.work + (if k.long == AtDegree then 1 else 0) == |k.newQ| + |k.susReadyQ|
    && k.semReady + (if k.short == AtReady then 0 else 1) == |k.readyQ|
    && k.dispatch + |k.execQ| + |k.flight| + (if k.short == Choosing then 1 else 0) == 1
    && k.semExec == (if k.attend == AtExec then |k.execQ| else 0)
    && (k.attend == AtCpu ==> |k.execQ| == 1)
    && |k.flight| == (if k.attend == Answering then 1 else 0)
    && k.semIo == |k.ioQ| && |k.device| <= 1
    && k.semExit == |k.exitQ|
  }

  predicate Admitted(k: Kernel, p: nat) {
    p in k.pcbs && p !in k.newQ
  }

  /** Page tables and admitted processes correspond; a suspended process has a suspended
      table. */
  ghost predicate Tables(k: Kernel) {
    && (forall p | Admitted(k, p) ::
          k.pcbs[p].table in k.mem.active + k.mem.suspended && k.pcbs[p].table < k.mem.nextTable)
    && (forall p, r | Admitted(k, p) && Admitted(k, r) && p != r :: k.pcbs[p].table != k.pcbs[r].table)
    && (forall t | t in k.mem.active + k.mem.suspended :: exists p :: Admitted(k, p) && k.pcbs[p].table == t)
    && k.mem.active !! k.mem.suspended
    && (forall p | Admitted(k, p) && k.pcbs[p].tag in {SUSPENDED_BLOCKED, SUSPENDED_READY} ::
          k.pcbs[p].table in k.mem.suspended)
  }

  /** Timers of a process carry rising block numbers, none beyond its current one. */
  ghost predicate TimersOk(k: Kernel) {
    && (forall t | t in k.timers :: 0 < t.pid < k.nextPid)
    && (forall t | t in k.timers && t.pid in k.pcbs :: t.block <= k.pcbs[t.pid].blocks)
    && (forall i, j | 0 <= i < j < |k.timers| && k.timers[i].pid == k.timers[j].pid ::
          k.timers[i].block < k.timers[j].block)
  }

  ghost predicate Inv(k: Kernel) {
    k.degree <= k.slots && OnePlace(k) && Tagged(k) && Tokens(k) && Signals(k) && Tables(k) && TimersOk(k)
  }

  lemma InitInv(degree: nat, slots: nat, limit: nat, srt: bool, alfa: real, initial: real)
    requires degree <= slots
    ensures Inv(Init(degree, slots, limit, srt, alfa, initial))
  {
  }

  // ---------------------------------------------------------------- no empty queue

  /** No thread takes from an empty queue, and what it takes is live. */
  lemma NeverEmpty(k: Kernel, e: Event)
    requires Inv(k) && Enabled(k, e)
    ensures Steady(k, e)
  {
    hide OnePlace, Tokens, Tables, TimersOk, NoDup;
  }

  // ---------------------------------------------------------------- places

  lemma ArrivePlaces(k: Kernel, size: nat)
    requires OnePlace(k)
    ensures OnePlace(DoArrive(k, size))
  {
    hide Times;
    forall p: nat ensures Places(DoArrive(k, size), p) == if p in DoArrive(k, size).pcbs then 1 else 0 {
      TimesPushed(k.newQ, k.nextPid, p);
      assert Places(k, p) == if p in k.pcbs then 1 else 0;
    }
  }

  lemma HandOffPlaces(k: Kernel)
    requires OnePlace(k) && k.susReadyQ != [] && k.susReadyQ[0] in k.pcbs && k.grade > 0
    ensures OnePlace(HandOff(k))
  {
    hide Times;
    forall p: nat ensures Places(HandOff(k), p) == Places(k, p) {
      TimesPopped(k.susReadyQ, p);
      TimesPushed(k.readyQ, k.susReadyQ[0], p);
    }
  }

  lemma FromNewPlaces(k: Kernel)
    requires OnePlace(k) && k.newQ != [] && k.newQ[0] in k.pcbs && k.grade > 0
    ensures OnePlace(FromNew(k))
  {
    hide Times;
    forall p: nat ensures Places(FromNew(k), p) == Places(k, p) {
      TimesPopped(k.newQ, p);
      TimesPushed(k.readyQ, k.newQ[0], p);
      TimesPushed(k.exitQ, k.newQ[0], p);
    }
  }

  lemma PickPlaces(k: Kernel, i: nat)
    requires OnePlace(k) && i < |k.readyQ|
    ensures OnePlace(DoPick(k, i))
  {
    hide Times;
    forall p: nat ensures Places(DoPick(k, i), p) == Places(k, p) {
      TimesRemoved(k.readyQ, i, p);
      TimesPushed(k.execQ, k.readyQ[i], p);
    }
  }

  lemma AnsweredPlaces(k: Kernel, a: Answer, ran: nat)
    requires OnePlace(k) && k.execQ != []
    ensures OnePlace(DoAnswered(k, a, ran))
  {
    hide Times;
    forall p: nat ensures Places(DoAnswered(k, a, ran), p) == Places(k, p) {
      TimesPopped(k.execQ, p);
      TimesPushed(k.flight, k.execQ[0], p);
    }
  }

  lemma RequeuePlaces(k: Kernel)
    requires OnePlace(k) && k.flight != [] && k.flight[0] in k.pcbs
    ensures OnePlace(DoRequeue(k))
  {
    forall p: nat ensures Places(DoRequeue(k), p) == Places(k, p) {
      RequeuePlace(k, p);
    }
    hide Places, RemoveAt;
    RequeueKeys(k);
    hide DoRequeue;
  }

  lemma RequeueKeys(k: Kernel)
    requires k.flight != [] && k.flight[0] in k.pcbs
    ensures DoRequeue(k).pcbs.Keys == k.pcbs.Keys && DoRequeue(k).nextPid == k.nextPid
  {
  }

  lemma RequeuePlace(k: Kernel, p: nat)
    requires k.flight != [] && k.flight[0] in k.pcbs
    ensures Places(DoRequeue(k), p) == Places(k, p)
  {
    hide Times;
    TimesPopped(k.flight, p);
    TimesPushed(k.readyQ, k.flight[0], p);
    TimesPushed(k.exitQ, k.flight[0], p);
    TimesPushed(k.ioQ, k.flight[0], p);
  }

  lemma TakeIoPlaces(k: Kernel)
    requires OnePlace(k) && k.ioQ != [] && k.semIo > 0 && k.device == []
    ensures OnePlace(DoTakeIo(k))
  {
    forall p: nat ensures Places(DoTakeIo(k), p) == Places(k, p) {
      TimesPopped(k.ioQ, p);
    }
  }

  lemma IoDonePlaces(k: Kernel)
    requires OnePlace(k) && k.device != [] && k.device[0] in k.pcbs
    requires k.pcbs[k.device[0]].tag in {BLOCKED, SUSPENDED_BLOCKED}
    ensures OnePlace(DoIoDone(k))
  {
    hide Times, Without;
    forall p: nat ensures Places(DoIoDone(k), p) == Places(k, p) {
      TimesPopped(k.device, p);
      TimesPushed(k.readyQ, k.device[0], p);
      TimesPushed(k.susReadyQ, k.device[0], p);
    }
  }

  lemma ReleasePlaces(k: Kernel)
    requires OnePlace(k) && k.exitQ != [] && k.exitQ[0] in k.pcbs && k.semExit > 0
    ensures OnePlace(DoRelease(k))
  {
    hide Times;
    forall p: nat ensures Places(DoRelease(k), p) == if p in DoRelease(k).pcbs then 1 else 0 {
      TimesPopped(k.exitQ, p);
      assert Places(k, p) == if p in k.pcbs then 1 else 0;
    }
  }

  /** The steps that move no process. */
  lemma StillPlaces(k: Kernel, k': Kernel)
    requires OnePlace(k) && k'.pcbs.Keys == k.pcbs.Keys && k'.nextPid == k.nextPid
    requires k'.newQ == k.newQ && k'.readyQ == k.readyQ && k'.execQ == k.execQ && k'.flight == k.flight
    requires k'.ioQ == k.ioQ && k'.device == k.device && k'.susReadyQ == k.susReadyQ && k'.exitQ == k.exitQ
    ensures OnePlace(k')
  {
    hide Times;
    forall p: nat ensures Places(k', p) == Places(k, p) {
    }
  }

  /** Every live process keeps exactly one place. */
  lemma StepPlaces(k: Kernel, e: Event)
    requires OnePlace(k) && Tagged(k) && Enabled(k, e) && Steady(k, e)
    ensures OnePlace(Step(k, e))
  {
    hide OnePlace, DoArrive, HandOff, FromNew, DoPick, DoAnswered, DoRequeue, DoTakeIo, DoIoDone, DoRelease;
    hide NoDup, DoFire;
    match e
    case Arrive(size) => ArrivePlaces(k, size);
    case Admit => if k.susReadyQ != [] { HandOffPlaces(k); } else { FromNewPlaces(k); }
    case Pick(i) => PickPlaces(k, i);
    case Answered(a, ran) => AnsweredPlaces(k, a, ran);
    case Requeue => RequeuePlaces(k);
    case TakeIo => TakeIoPlaces(k);
    case IoDone => IoDonePlaces(k);
    case Release => ReleasePlaces(k);
    case Fire(i, waited) => FirePlaces(k, i, waited);
    case _ => StillPlaces(k, Step(k, e));
  }

  lemma FirePlaces(k: Kernel, i: nat, waited: nat)
    requires OnePlace(k) && i < |k.timers|
    ensures OnePlace(DoFire(k, i, waited))
  {
    hide OnePlace, LetThrough, Without;
    StillPlaces(k, DoFire(k, i, waited));
  }

  // ---------------------------------------------------------------- tags

  function In(q: seq<nat>, p: nat): nat {
    if p in q then 1 else 0
  }

  /** Nobody is in two places. */
  lemma OnceOnly(k: Kernel, p: nat)
    requires OnePlace(k)
    ensures In(k.newQ, p) + In(k.readyQ, p) + In(k.execQ, p) + In(k.flight, p)
            + In(k.ioQ, p) + In(k.device, p) + In(k.susReadyQ, p) + In(k.exitQ, p) <= 1
    ensures k.newQ != [] && k.newQ[0] == p ==> p !in k.newQ[1..]
    ensures k.flight != [] && k.flight[0] == p ==> p !in k.flight[1..]
    ensures k.device != [] && k.device[0] == p ==> p !in k.device[1..]
    ensures k.susReadyQ != [] && k.susReadyQ[0] == p ==> p !in k.susReadyQ[1..]
    ensures k.exitQ != [] && k.exitQ[0] == p ==> p !in k.exitQ[1..]
  {
    assert Places(k, p) <= 1;
    TimesIn(k.newQ, p);
    TimesIn(k.readyQ, p);
    TimesIn(k.execQ, p);
    TimesIn(k.flight, p);
    TimesIn(k.ioQ, p);
    TimesIn(k.device, p);
    TimesIn(k.susReadyQ, p);
    TimesIn(k.exitQ, p);
    hide OnePlace, Times;
    FrontOnce(k.newQ, p);
    FrontOnce(k.flight, p);
    FrontOnce(k.device, p);
    FrontOnce(k.susReadyQ, p);
    FrontOnce(k.exitQ, p);
  }

  lemma FrontOnce(q: seq<nat>, p: nat)
    ensures q != [] && q[0] == p && Times(q, p) <= 1 ==> p !in q[1..]
  {
    if q != [] && q[0] == p && Times(q, p) <= 1 {
      TimesPopped(q, p);
      TimesIn(q[1..], p);
    }
  }

  lemma ArriveTagged(k: Kernel, size: nat)
    requires OnePlace(k) && Tagged(k)
    ensures Tagged(DoArrive(k, size))
  {
    assert k.nextPid !in k.pcbs;
    hide OnePlace;
  }

  lemma HandOffTagged(k: Kernel)
    requires OnePlace(k) && Tagged(k) && k.susReadyQ != [] && k.susReadyQ[0] in k.pcbs && k.grade > 0
    ensures Tagged(HandOff(k))
  {
    OnceOnly(k, k.susReadyQ[0]);
    hide OnePlace, NoDup;
  }

  lemma FromNewTagged(k: Kernel)
    requires OnePlace(k) && Tagged(k) && k.newQ != [] && k.newQ[0] in k.pcbs && k.grade > 0
    requires |k.mem.active| < k.slots
    ensures Tagged(FromNew(k))
  {
    hide OnePlace, NoDup;
  }

  lemma PickTagged(k: Kernel, i: nat)
    requires Tagged(k) && i < |k.readyQ|
    ensures Tagged(DoPick(k, i))
  {
    RemoveAtIs(k.readyQ, i);
    hide NoDup, RemoveAt;
  }

  /** A process off a queue can change without the queue noticing. */
  lemma OffQueue(pcbs: map<nat, Pcb>, p: nat, pcb: Pcb, q: seq<nat>, tags: set<Tag>)
    requires AllTagged(pcbs, q, tags)
    ensures p !in q ==> AllTagged(pcbs[p := pcb], q, tags)
    ensures p in pcbs && p in q ==> pcbs[p].tag in tags
    ensures pcb.tag in tags ==> AllTagged(pcbs[p := pcb], q + [p], tags)
    ensures q != [] ==> AllTagged(pcbs, q[1..], tags)
    ensures q != [] && p !in q[1..] ==> AllTagged(pcbs[p := pcb], q[1..], tags)
  {
  }

  lemma ShorterQueue(pcbs: map<nat, Pcb>, q: seq<nat>, r: seq<nat>, tags: set<Tag>)
    requires AllTagged(pcbs, q, tags) && forall x | x in r :: x in q
    ensures AllTagged(pcbs, r, tags)
  {
  }

  lemma OffQueues(k: Kernel, p: nat, pcb: Pcb)
    requires Tagged(k)
    ensures p !in k.newQ ==> AllTagged(k.pcbs[p := pcb], k.newQ, {NEW})
    ensures p !in k.readyQ ==> AllTagged(k.pcbs[p := pcb], k.readyQ, {NEW, READY})
    ensures p !in k.execQ ==> AllTagged(k.pcbs[p := pcb], k.execQ, {NEW, READY})
    ensures p !in k.flight ==> AllTagged(k.pcbs[p := pcb], k.flight, {NEW, READY})
    ensures p !in k.ioQ ==> AllTagged(k.pcbs[p := pcb], k.ioQ, {BLOCKED, SUSPENDED_BLOCKED})
    ensures p !in k.device ==> AllTagged(k.pcbs[p := pcb], k.device, {BLOCKED, SUSPENDED_BLOCKED})
    ensures p !in k.susReadyQ ==> AllTagged(k.pcbs[p := pcb], k.susReadyQ, {SUSPENDED_READY})
    ensures p !in k.exitQ ==> AllTagged(k.pcbs[p := pcb], k.exitQ, {EXIT})
    ensures p !in k.blockedQ ==> AllTagged(k.pcbs[p := pcb], k.blockedQ, {BLOCKED})
    ensures p !in k.susBlockedQ ==> AllTagged(k.pcbs[p := pcb], k.susBlockedQ, {SUSPENDED_BLOCKED})
  {
    hide AllTagged, NoDup;
    OffQueue(k.pcbs, p, pcb, k.newQ, {NEW});
    OffQueue(k.pcbs, p, pcb, k.readyQ, {NEW, READY});
    OffQueue(k.pcbs, p, pcb, k.execQ, {NEW, READY});
    OffQueue(k.pcbs, p, pcb, k.flight, {NEW, READY});
    OffQueue(k.pcbs, p, pcb, k.ioQ, {BLOCKED, SUSPENDED_BLOCKED});
    OffQueue(k.pcbs, p, pcb, k.device, {BLOCKED, SUSPENDED_BLOCKED});
    OffQueue(k.pcbs, p, pcb, k.susReadyQ, {SUSPENDED_READY});
    OffQueue(k.pcbs, p, pcb, k.exitQ, {EXIT});
    OffQueue(k.pcbs, p, pcb, k.blockedQ, {BLOCKED});
    OffQueue(k.pcbs, p, pcb, k.susBlockedQ, {SUSPENDED_BLOCKED});
  }

  /** The list a process waits on is the one of its tag. */
  lemma WaitingByTag(k: Kernel, p: nat)
    requires Tagged(k) && p in k.pcbs
    ensures k.pcbs[p].tag != BLOCKED ==> p !in k.blockedQ
    ensures k.pcbs[p].tag == SUSPENDED_BLOCKED <==> p in k.susBlockedQ
    ensures p in k.flight ==> k.pcbs[p].tag in {NEW, READY}
    ensures p in k.device ==> k.pcbs[p].tag in {BLOCKED, SUSPENDED_BLOCKED}
    ensures p in k.exitQ ==> k.pcbs[p].tag == EXIT
    ensures p in k.susReadyQ ==> k.pcbs[p].tag == SUSPENDED_READY
  {
    hide NoDup;
  }

  lemma RequeueTagged(k: Kernel)
    requires OnePlace(k) && Tagged(k) && k.flight != [] && k.flight[0] in k.pcbs
    ensures Tagged(DoRequeue(k))
  {
    hide OnePlace, Tagged, DoRequeue;
    var p := k.flight[0];
    match k.answer {
      case Preempted => RequeueReady(k, Charged(k, p).(tag := READY));
      case Terminated => RequeueExit(k, k.pcbs[p].(tag := EXIT));
      case Blocked(ioTime) =>
        RequeueBlocked(k, Charged(k, p).(tag := BLOCKED, blocks := k.pcbs[p].blocks + 1, ioTime := ioTime));
    }
  }

  /** The process in flight is on none of the other queues. */
  lemma FlightOnly(k: Kernel, pcb: Pcb)
    requires OnePlace(k) && Tagged(k) && k.flight != [] && k.flight[0] in k.pcbs
    ensures var p := k.flight[0];
            && var pcbs := k.pcbs[p := pcb];
            && AllTagged(pcbs, k.newQ, {NEW}) && AllTagged(pcbs, k.readyQ, {NEW, READY})
            && AllTagged(pcbs, k.execQ, {NEW, READY}) && AllTagged(pcbs, k.flight[1..], {NEW, READY})
            && AllTagged(pcbs, k.ioQ, {BLOCKED, SUSPENDED_BLOCKED})
            && AllTagged(pcbs, k.device, {BLOCKED, SUSPENDED_BLOCKED})
            && AllTagged(pcbs, k.susReadyQ, {SUSPENDED_READY}) && AllTagged(pcbs, k.exitQ, {EXIT})
            && AllTagged(pcbs, k.blockedQ, {BLOCKED}) && AllTagged(pcbs, k.susBlockedQ, {SUSPENDED_BLOCKED})
            && p !in k.blockedQ && k.pcbs[p].tag in {NEW, READY}
  {
    hide OnePlace, AllTagged, NoDup;
    var p := k.flight[0];
    OnceOnly(k, p);
    WaitingByTag(k, p);
    OffQueues(k, p, pcb);
    OffQueue(k.pcbs, p, pcb, k.flight, {NEW, READY});
    hide Tagged;
  }

  lemma Joins(pcbs: map<nat, Pcb>, p: nat, q: seq<nat>, tags: set<Tag>)
    requires AllTagged(pcbs, q, tags) && p in pcbs && pcbs[p].tag in tags
    ensures AllTagged(pcbs, q + [p], tags)
  {
  }

  lemma RequeueReady(k: Kernel, pcb: Pcb)
    requires OnePlace(k) && Tagged(k) && k.flight != [] && k.flight[0] in k.pcbs && k.answer.Preempted?
    requires pcb == Charged(k, k.flight[0]).(tag := READY)
    ensures Tagged(DoRequeue(k))
  {
    hide OnePlace, AllTagged, NoDup;
    FlightOnly(k, pcb);
    Joins(k.pcbs[k.flight[0] := pcb], k.flight[0], k.readyQ, {NEW, READY});
  }

  lemma RequeueExit(k: Kernel, pcb: Pcb)
    requires OnePlace(k) && Tagged(k) && k.flight != [] && k.flight[0] in k.pcbs && k.answer.Terminated?
    requires pcb == k.pcbs[k.flight[0]].(tag := EXIT)
    ensures Tagged(DoRequeue(k))
  {
    hide OnePlace, AllTagged, NoDup;
    FlightOnly(k, pcb);
    Joins(k.pcbs[k.flight[0] := pcb], k.flight[0], k.exitQ, {EXIT});
  }

  lemma RequeueBlocked(k: Kernel, pcb: Pcb)
    requires OnePlace(k) && Tagged(k) && k.flight != [] && k.flight[0] in k.pcbs && k.answer.Blocked?
    requires pcb == Charged(k, k.flight[0]).(tag := BLOCKED, blocks := k.pcbs[k.flight[0]].blocks + 1,
                                             ioTime := k.answer.ioTime)
    ensures Tagged(DoRequeue(k))
  {
    hide OnePlace, AllTagged, NoDup;
    var p := k.flight[0];
    FlightOnly(k, pcb);
    Joins(k.pcbs[p := pcb], p, k.ioQ, {BLOCKED, SUSPENDED_BLOCKED});
    Joins(k.pcbs[p := pcb], p, k.blockedQ, {BLOCKED});
    PushedOnce(k.blockedQ, p);
  }

  lemma IoDoneTagged(k: Kernel)
    requires OnePlace(k) && Tagged(k) && k.device != [] && k.device[0] in k.pcbs
    ensures Tagged(DoIoDone(k))
  {
    hide OnePlace, AllTagged, NoDup, Without;
    var p := k.device[0];
    var pcb := DoIoDone(k).pcbs[p];
    OnceOnly(k, p);
    WaitingByTag(k, p);
    OffQueues(k, p, pcb);
    WithoutIs(k.blockedQ, p);
    WithoutIs(k.susBlockedQ, p);
    ShorterQueue(k.pcbs, k.blockedQ, Without(k.blockedQ, p), {BLOCKED});
    ShorterQueue(k.pcbs, k.susBlockedQ, Without(k.susBlockedQ, p), {SUSPENDED_BLOCKED});
    OffQueue(k.pcbs, p, pcb, k.device, {BLOCKED, SUSPENDED_BLOCKED});
    OffQueue(k.pcbs, p, pcb, k.readyQ, {NEW, READY});
    OffQueue(k.pcbs, p, pcb, k.susReadyQ, {SUSPENDED_READY});
    OffQueue(k.pcbs, p, pcb, Without(k.blockedQ, p), {BLOCKED});
    OffQueue(k.pcbs, p, pcb, Without(k.susBlockedQ, p), {SUSPENDED_BLOCKED});
  }

  lemma FireTagged(k: Kernel, i: nat, waited: nat)
    requires OnePlace(k) && Tagged(k) && i < |k.timers|
    ensures Tagged(DoFire(k, i, waited))
  {
    hide OnePlace, AllTagged, NoDup, Without, LetThrough;
    var p := k.timers[i].pid;
    if p in k.blockedQ && p in k.pcbs {
      OffTagged(k, p);
      SuspendTagged(k, p);
    }
  }

  lemma OffTagged(k: Kernel, p: nat)
    requires Tagged(k)
    ensures Tagged(k.(blockedQ := Without(k.blockedQ, p)))
  {
    hide AllTagged, NoDup, Without;
    WithoutIs(k.blockedQ, p);
    ShorterQueue(k.pcbs, k.blockedQ, Without(k.blockedQ, p), {BLOCKED});
  }

  lemma SuspendTagged(k: Kernel, p: nat)
    requires OnePlace(k) && Tagged(k) && p in k.blockedQ && p in k.pcbs
    ensures Tagged(k.(blockedQ := Without(k.blockedQ, p), pcbs := Retag(k, p, SUSPENDED_BLOCKED),
                      susBlockedQ := k.susBlockedQ + [p]))
  {
    hide OnePlace, AllTagged, NoDup, Without;
    var pcb := k.pcbs[p].(tag := SUSPENDED_BLOCKED);
    WaitingByTag(k, p);
    BlockedWaits(k, p);
    OffQueues(k, p, pcb);
    WithoutIs(k.blockedQ, p);
    ShorterQueue(k.pcbs, k.blockedQ, Without(k.blockedQ, p), {BLOCKED});
    OffQueue(k.pcbs, p, pcb, Without(k.blockedQ, p), {BLOCKED});
    OffQueue(k.pcbs, p, pcb, k.susBlockedQ, {SUSPENDED_BLOCKED});
    PushedOnce(k.susBlockedQ, p);
  }

  /** A process with the tag BLOCKED is in the I/O queue or the device, and nowhere else. */
  lemma BlockedWaits(k: Kernel, p: nat)
    requires OnePlace(k) && Tagged(k) && p in k.pcbs && k.pcbs[p].tag == BLOCKED
    ensures p in k.ioQ || p in k.device
    ensures p !in k.newQ && p !in k.readyQ && p !in k.execQ && p !in k.flight && p !in k.susReadyQ && p !in k.exitQ
    ensures forall pcb: Pcb :: pcb.tag in {BLOCKED, SUSPENDED_BLOCKED} ==>
              && AllTagged(k.pcbs[p := pcb], k.ioQ, {BLOCKED, SUSPENDED_BLOCKED})
              && AllTagged(k.pcbs[p := pcb], k.device, {BLOCKED, SUSPENDED_BLOCKED})
  {
    hide NoDup;
    SomewhereOnce(k, p);
    hide OnePlace;
  }

  lemma SomewhereOnce(k: Kernel, p: nat)
    requires OnePlace(k) && p in k.pcbs
    ensures In(k.newQ, p) + In(k.readyQ, p) + In(k.execQ, p) + In(k.flight, p)
            + In(k.ioQ, p) + In(k.device, p) + In(k.susReadyQ, p) + In(k.exitQ, p) == 1
  {
    assert Places(k, p) == 1;
    TimesIn(k.newQ, p);
    TimesIn(k.readyQ, p);
    TimesIn(k.execQ, p);
    TimesIn(k.flight, p);
    TimesIn(k.ioQ, p);
    TimesIn(k.device, p);
    TimesIn(k.susReadyQ, p);
    TimesIn(k.exitQ, p);
    hide OnePlace, Times;
  }

  lemma ReleaseTagged(k: Kernel)
    requires OnePlace(k) && Tagged(k) && k.exitQ != [] && k.exitQ[0] in k.pcbs && k.semExit > 0
    ensures Tagged(DoRelease(k))
  {
    var p := k.exitQ[0];
    OnceOnly(k, p);
    assert k.pcbs[p].tag == EXIT;
    hide OnePlace, NoDup;
  }

  /** The tag agrees with the place after every step; admission must find a slot. */
  lemma StepTagged(k: Kernel, e: Event)
    requires OnePlace(k) && Tagged(k) && Enabled(k, e) && Steady(k, e)
    requires e == Admit && k.susReadyQ == [] ==> |k.mem.active| < k.slots
    ensures Tagged(Step(k, e))
  {
    hide OnePlace, DoArrive, HandOff, FromNew, DoPick, DoRequeue, DoIoDone, DoRelease, DoFire, NoDup, Without;
    match e
    case Arrive(size) => ArriveTagged(k, size);
    case Admit => if k.susReadyQ != [] { HandOffTagged(k); } else { FromNewTagged(k); }
    case Pick(i) => PickTagged(k, i);
    case Requeue => RequeueTagged(k);
    case IoDone => IoDoneTagged(k);
    case Fire(i, waited) => FireTagged(k, i, waited);
    case Release => ReleaseTagged(k);
    case _ =>
  }

  // ---------------------------------------------------------------- semaphores

  lemma AdmitSignals(k: Kernel)
    requires Signals(k) && Enabled(k, Admit) && Steady(k, Admit)
    requires k.susReadyQ == [] ==> |k.mem.active| < k.slots
    ensures Signals(Step(k, Admit))
  {
  }

  lemma RequeueSignals(k: Kernel)
    requires Signals(k) && k.attend == Answering && k.flight != [] && k.flight[0] in k.pcbs
    ensures Signals(DoRequeue(k))
  {
    hide Retag;
    var k' := DoRequeue(k);
    assert |k'.flight| == 0 && k'.execQ == k.execQ && k'.attend == AtExec && k'.dispatch == k.dispatch + 1;
    if k.answer.Preempted? {
      assert |k'.readyQ| == |k.readyQ| + 1;
    }
  }

  lemma IoSignals(k: Kernel)
    requires Signals(k) && k.device != [] && k.device[0] in k.pcbs
    requires k.pcbs[k.device[0]].tag in {BLOCKED, SUSPENDED_BLOCKED}
    ensures Signals(DoIoDone(k))
  {
    hide Without;
  }

  lemma PickSignals(k: Kernel, i: nat)
    requires Signals(k) && k.short == Choosing && i < |k.readyQ|
    ensures Signals(DoPick(k, i))
  {
  }

  /** What semaphores and queues do not depend on. */
  lemma SignalsSame(k: Kernel, k': Kernel)
    requires Signals(k) && k'.work == k.work && k'.semReady == k.semReady && k'.dispatch == k.dispatch
    requires k'.semExec == k.semExec && k'.semIo == k.semIo && k'.semExit == k.semExit
    requires k'.long == k.long && k'.short == k.short && k'.attend == k.attend
    requires k'.newQ == k.newQ && k'.susReadyQ == k.susReadyQ && k'.readyQ == k.readyQ && k'.execQ == k.execQ
    requires k'.flight == k.flight && k'.ioQ == k.ioQ && k'.device == k.device && k'.exitQ == k.exitQ
    ensures Signals(k')
  {
  }

  lemma FireSignals(k: Kernel, i: nat, waited: nat)
    requires Signals(k) && i < |k.timers|
    ensures Signals(DoFire(k, i, waited))
  {
    hide Signals, Without, LetThrough;
    SignalsSame(k, DoFire(k, i, waited));
  }

  /** Every semaphore keeps counting its queue, and the dispatch permit, the process in
      EXEC and the one in flight stay one together. */
  lemma StepSignals(k: Kernel, e: Event)
    requires Signals(k) && Tagged(k) && Enabled(k, e) && Steady(k, e)
    requires e == Admit && k.susReadyQ == [] ==> |k.mem.active| < k.slots
    ensures Signals(Step(k, e))
  {
    hide Signals, DoRequeue, DoIoDone, DoPick, DoFire, HandOff, FromNew, AllTagged, NoDup;
    match e
    case Admit => AdmitSignals(k);
    case Requeue => RequeueSignals(k);
    case IoDone => DeviceTag(k); IoSignals(k);
    case Pick(i) => PickSignals(k, i);
    case Fire(i, waited) => FireSignals(k, i, waited);
    case _ => SmallSignals(k, e);
  }

  lemma DeviceTag(k: Kernel)
    requires Tagged(k) && k.device != []
    ensures k.device[0] in k.pcbs && k.pcbs[k.device[0]].tag in {BLOCKED, SUSPENDED_BLOCKED}
  {
    hide NoDup;
  }

  lemma SmallSignals(k: Kernel, e: Event)
    requires Signals(k) && Enabled(k, e) && Steady(k, e)
    requires !e.Admit? && !e.Requeue? && !e.IoDone? && !e.Pick? && !e.Fire?
    ensures Signals(Step(k, e))
  {
  }

  // ---------------------------------------------------------------- tokens

  lemma BlockedGains(k: Kernel, k': Kernel, p: nat)
    requires p in k.pcbs && k.pcbs[p].tag != BLOCKED
    requires k'.pcbs.Keys == k.pcbs.Keys && k'.pcbs[p].tag == BLOCKED
    requires forall x | x in k.pcbs && x != p :: k'.pcbs[x].tag == k.pcbs[x].tag
    ensures |BlockedSet(k')| == |BlockedSet(k)| + 1
  {
    assert BlockedSet(k') == BlockedSet(k) + {p};
  }

  lemma BlockedLoses(k: Kernel, k': Kernel, p: nat)
    requires p in k.pcbs && k.pcbs[p].tag == BLOCKED
    requires p in k'.pcbs && k'.pcbs.Keys == k.pcbs.Keys && k'.pcbs[p].tag != BLOCKED
    requires forall x | x in k.pcbs && x != p :: k'.pcbs[x].tag == k.pcbs[x].tag
    ensures |BlockedSet(k')| == |BlockedSet(k)| - 1
  {
    assert BlockedSet(k) == BlockedSet(k') + {p};
  }

  lemma BlockedSame(k: Kernel, k': Kernel)
    requires forall x | x in k.pcbs && k.pcbs[x].tag == BLOCKED :: x in k'.pcbs && k'.pcbs[x].tag == BLOCKED
    requires forall x | x in k'.pcbs && k'.pcbs[x].tag == BLOCKED :: x in k.pcbs && k.pcbs[x].tag == BLOCKED
    ensures BlockedSet(k') == BlockedSet(k)
  {
  }

  lemma ArriveTokens(k: Kernel, size: nat)
    requires OnePlace(k) && Tokens(k)
    ensures Tokens(DoArrive(k, size))
  {
    FreshPid(k);
    hide OnePlace;
    BlockedSame(k, DoArrive(k, size));
  }

  lemma RequeueTokens(k: Kernel)
    requires Tagged(k) && Tokens(k) && k.flight != [] && k.flight[0] in k.pcbs
    ensures Tokens(DoRequeue(k))
  {
    hide BlockedSet;
    WaitingByTag(k, k.flight[0]);
    hide Tagged;
    if k.answer.Blocked? {
      BlockedGains(k, DoRequeue(k), k.flight[0]);
    } else {
      BlockedSame(k, DoRequeue(k));
    }
  }

  lemma IoDoneTokens(k: Kernel)
    requires Tagged(k) && Tokens(k) && k.device != [] && k.device[0] in k.pcbs
    ensures Tokens(DoIoDone(k))
  {
    hide BlockedSet, Without;
    DeviceTag(k);
    hide Tagged;
    if k.pcbs[k.device[0]].tag == BLOCKED {
      BlockedLoses(k, DoIoDone(k), k.device[0]);
    } else {
      BlockedSame(k, DoIoDone(k));
    }
  }

  lemma BlockedTag(k: Kernel, p: nat)
    requires Tagged(k) && p in k.blockedQ
    ensures p in k.pcbs && k.pcbs[p].tag == BLOCKED
  {
    hide NoDup;
  }

  /** The timer suspends its process. */
  predicate Suspends(k: Kernel, i: nat, waited: nat) {
    i < |k.timers| &&
    var t := k.timers[i];
    t.pid in k.blockedQ && t.pid in k.pcbs && k.pcbs[t.pid].blocks == t.block && !LetThrough(k, t.pid, waited)
  }

  lemma FireTokens(k: Kernel, i: nat, waited: nat)
    requires Tagged(k) && Tokens(k) && i < |k.timers|
    ensures Tokens(DoFire(k, i, waited))
  {
    hide BlockedSet, Without, Tagged, LetThrough;
    var p := k.timers[i].pid;
    if Suspends(k, i, waited) {
      BlockedTag(k, p);
      BlockedLoses(k, DoFire(k, i, waited), p);
    } else {
      BlockedSame(k, DoFire(k, i, waited));
    }
  }

  lemma ReleaseTokens(k: Kernel)
    requires Tagged(k) && Tokens(k) && k.exitQ != [] && k.exitQ[0] in k.pcbs && k.semExit > 0
    ensures Tokens(DoRelease(k))
  {
    hide BlockedSet;
    WaitingByTag(k, k.exitQ[0]);
    hide Tagged;
    BlockedSame(k, DoRelease(k));
  }

  lemma AdmitTokens(k: Kernel)
    requires Tagged(k) && Tokens(k) && Steady(k, Admit) && Enabled(k, Admit)
    ensures Tokens(Step(k, Admit))
  {
    hide BlockedSet;
    if k.susReadyQ != [] {
      WaitingByTag(k, k.susReadyQ[0]);
    }
    hide Tagged;
    BlockedSame(k, Step(k, Admit));
  }

  lemma StillTokens(k: Kernel, e: Event)
    requires Tokens(k) && Enabled(k, e) && Steady(k, e)
    requires || e.TakeWork? || e.TakeReady? || e.TakeDispatch? || e.Pick?
             || e.Send? || e.Answered? || e.Interrupt? || e.Touch? || e.TakeIo?
    ensures Tokens(Step(k, e))
  {
    hide BlockedSet;
    if e.Pick? {
      RemoveAtIs(k.readyQ, e.i);
    }
    hide RemoveAt;
    BlockedSame(k, Step(k, e));
  }

  /** Free tokens plus processes in READY, EXEC, BLOCKED (by tag) and EXIT stay the
      degree of multiprogramming. */
  lemma StepTokens(k: Kernel, e: Event)
    requires OnePlace(k) && Tagged(k) && Tokens(k) && Enabled(k, e) && Steady(k, e)
    ensures Tokens(Step(k, e))
  {
    hide OnePlace, Tagged, Tokens, DoArrive, DoRequeue, DoIoDone, DoFire, DoRelease;
    match e
    case Arrive(size) => ArriveTokens(k, size);
    case Admit => AdmitTokens(k);
    case Requeue => RequeueTokens(k);
    case IoDone => IoDoneTokens(k);
    case Fire(i, waited) => FireTokens(k, i, waited);
    case Release => ReleaseTokens(k);
    case _ => StillTokens(k, e);
  }

  lemma FreshPid(k: Kernel)
    requires OnePlace(k)
    ensures k.nextPid !in k.pcbs
  {
  }

  // ---------------------------------------------------------------- page tables

  /** Steps that neither admit, nor end, nor touch a page table. */
  lemma TablesKept(k: Kernel, k': Kernel)
    requires Tables(k) && k'.mem == k.mem
    requires forall p :: Admitted(k', p) <==> Admitted(k, p)
    requires forall p | Admitted(k, p) :: p in k'.pcbs && k'.pcbs[p].table == k.pcbs[p].table
    requires forall p | Admitted(k, p) && p in k'.pcbs && k'.pcbs[p].tag in {SUSPENDED_BLOCKED, SUSPENDED_READY} ::
               k.pcbs[p].tag in {SUSPENDED_BLOCKED, SUSPENDED_READY}
    ensures Tables(k')
  {
    forall t | t in k'.mem.active + k'.mem.suspended ensures exists p :: Admitted(k', p) && k'.pcbs[p].table == t {
      var p :| Admitted(k, p) && k.pcbs[p].table == t;
      assert Admitted(k', p);
    }
  }

  lemma ArriveTables(k: Kernel, size: nat)
    requires OnePlace(k) && Tagged(k) && Tables(k)
    ensures Tables(DoArrive(k, size))
  {
    FreshPid(k);
    hide OnePlace, NoDup;
    var k' := DoArrive(k, size);
    assert forall p :: p in k'.newQ <==> p in k.newQ || p == k.nextPid;
    TablesKept(k, k');
  }

  lemma FrontIn(q: seq<nat>)
    requires q != []
    ensures forall p :: p in q <==> p == q[0] || p in q[1..]
  {
    assert q == [q[0]] + q[1..];
  }

  lemma FromNewTables(k: Kernel)
    requires OnePlace(k) && Tables(k) && k.newQ != [] && k.newQ[0] in k.pcbs && k.grade > 0
    requires |k.mem.active| < k.slots && k.pcbs[k.newQ[0]].tag == NEW
    ensures Tables(FromNew(k))
  {
    var n := k.newQ[0];
    OnceOnly(k, n);
    FrontIn(k.newQ);
    hide OnePlace;
    var k' := FromNew(k);
    assert forall p :: Admitted(k', p) <==> Admitted(k, p) || p == n;
    AdmittedOne(k, k', n);
  }

  /** Process n is admitted with a new table. */
  lemma AdmittedOne(k: Kernel, k': Kernel, n: nat)
    requires Tables(k) && n in k.pcbs && !Admitted(k, n) && k.pcbs[n].tag == NEW
    requires forall p :: Admitted(k', p) <==> Admitted(k, p) || p == n
    requires k'.pcbs == k.pcbs[n := k.pcbs[n].(table := k.mem.nextTable)]
    requires k'.mem == k.mem.(active := k.mem.active + {k.mem.nextTable}, nextTable := k.mem.nextTable + 1)
    ensures Tables(k')
  {
    assert forall p | Admitted(k, p) :: p in k.pcbs && p != n && k.pcbs[p].table < k.mem.nextTable;
    assert forall p | Admitted(k', p) :: p in k'.pcbs;
    hide Admitted;
    forall t | t in k.mem.active + k.mem.suspended
      ensures t != k.mem.nextTable && exists p :: Admitted(k', p) && k'.pcbs[p].table == t
    {
      var p :| Admitted(k, p) && k.pcbs[p].table == t;
      assert Admitted(k', p) && k'.pcbs[p].table == t;
    }
    assert Admitted(k', n) && k'.pcbs[n].table == k.mem.nextTable;
  }

  /** A process moves its table between active and suspended, and changes its tag. */
  lemma MovedTables(k: Kernel, k': Kernel, p: nat)
    requires Tables(k) && Admitted(k, p) && k'.newQ == k.newQ && k'.pcbs.Keys == k.pcbs.Keys
    requires k'.mem.nextTable == k.mem.nextTable && k'.mem.active !! k'.mem.suspended
    requires k'.mem.active + k'.mem.suspended == k.mem.active + k.mem.suspended
    requires k'.mem.suspended + {k.pcbs[p].table} == k.mem.suspended + {k.pcbs[p].table}
    requires forall x | x in k.pcbs :: k'.pcbs[x].table == k.pcbs[x].table
    requires forall x | x in k.pcbs && x != p :: k'.pcbs[x].tag == k.pcbs[x].tag
    requires k'.pcbs[p].tag in {SUSPENDED_BLOCKED, SUSPENDED_READY} ==> k.pcbs[p].table in k'.mem.suspended
    ensures Tables(k')
  {
    assert forall x :: Admitted(k', x) <==> Admitted(k, x);
    forall t | t in k'.mem.active + k'.mem.suspended ensures exists x :: Admitted(k', x) && k'.pcbs[x].table == t {
      var x :| Admitted(k, x) && k.pcbs[x].table == t;
      assert Admitted(k', x);
    }
    forall x | Admitted(k', x) && k'.pcbs[x].tag in {SUSPENDED_BLOCKED, SUSPENDED_READY}
      ensures k'.pcbs[x].table in k'.mem.suspended
    {
      if x != p {
        assert k.pcbs[x].table in k.mem.suspended + {k.pcbs[p].table};
      }
    }
  }

  lemma TouchTables(k: Kernel)
    requires OnePlace(k) && Tagged(k) && Tables(k) && k.execQ != [] && k.execQ[0] in k.pcbs
    ensures Tables(DoTouch(k))
  {
    var p := k.execQ[0];
    OnceOnly(k, p);
    assert k.pcbs[p].tag in {NEW, READY};
    hide OnePlace, Tagged;
    var t := k.pcbs[p].table;
    if t in k.mem.suspended {
      MovedTables(k, DoTouch(k), p);
    }
  }

  lemma FireTables(k: Kernel, i: nat, waited: nat)
    requires OnePlace(k) && Tagged(k) && Tables(k) && i < |k.timers|
    ensures Tables(DoFire(k, i, waited))
  {
    hide Tagged, OnePlace, Without, LetThrough, Tables;
    var p := k.timers[i].pid;
    var k' := DoFire(k, i, waited);
    if Suspends(k, i, waited) {
      BlockedTag(k, p);
      BlockedWaits(k, p);
      AdmittedTable(k, p);
      MovedTables(k, k', p);
    } else {
      TablesKept(k, k');
    }
  }

  lemma AdmittedTable(k: Kernel, p: nat)
    requires Tables(k) && Admitted(k, p)
    ensures k.pcbs[p].table in k.mem.active + k.mem.suspended && k.mem.active !! k.mem.suspended
  {
  }

  lemma ReleaseTables(k: Kernel)
    requires OnePlace(k) && Tables(k) && k.exitQ != [] && k.exitQ[0] in k.pcbs && k.semExit > 0
    ensures Tables(DoRelease(k))
  {
    var n := k.exitQ[0];
    OnceOnly(k, n);
    hide OnePlace, Tables;
    RemovedOne(k, DoRelease(k), n);
  }

  /** Process n goes, and its table with it. */
  lemma RemovedOne(k: Kernel, k': Kernel, n: nat)
    requires Tables(k) && Admitted(k, n) && k'.newQ == k.newQ && k'.pcbs == k.pcbs - {n}
    requires k'.mem.active == k.mem.active - {k.pcbs[n].table} && k'.mem.nextTable == k.mem.nextTable
    requires k'.mem.suspended == k.mem.suspended - {k.pcbs[n].table}
    ensures Tables(k')
  {
    assert forall p :: Admitted(k', p) <==> Admitted(k, p) && p != n;
    assert forall p | Admitted(k, p) :: p in k.pcbs;
    hide Admitted;
    forall t | t in k'.mem.active + k'.mem.suspended ensures exists p :: Admitted(k', p) && k'.pcbs[p].table == t {
      var p :| Admitted(k, p) && k.pcbs[p].table == t;
      assert Admitted(k', p);
    }
  }

  lemma RequeueTables(k: Kernel)
    requires Tables(k) && k.flight != [] && k.flight[0] in k.pcbs
    ensures Tables(DoRequeue(k))
  {
    hide Tables;
    TablesKept(k, DoRequeue(k));
  }

  lemma IoDoneTables(k: Kernel)
    requires Tables(k) && k.device != [] && k.device[0] in k.pcbs
    ensures Tables(DoIoDone(k))
  {
    hide Without, Tables;
    TablesKept(k, DoIoDone(k));
  }

  lemma HandOffTables(k: Kernel)
    requires Tables(k) && k.susReadyQ != [] && k.susReadyQ[0] in k.pcbs && k.grade > 0
    ensures Tables(HandOff(k))
  {
    hide Tables;
    TablesKept(k, HandOff(k));
  }

  lemma StillTables(k: Kernel, k': Kernel)
    requires Tables(k) && k'.mem == k.mem && k'.pcbs == k.pcbs && k'.newQ == k.newQ
    ensures Tables(k')
  {
    TablesKept(k, k');
  }

  lemma NewTag(k: Kernel)
    requires Tagged(k) && k.newQ != []
    ensures k.newQ[0] in k.pcbs && k.pcbs[k.newQ[0]].tag == NEW
  {
    hide NoDup;
  }

  /** Page tables stay in correspondence with admitted processes. */
  lemma StepTables(k: Kernel, e: Event)
    requires OnePlace(k) && Tagged(k) && Tables(k) && Enabled(k, e) && Steady(k, e)
    requires e == Admit && k.susReadyQ == [] ==> |k.mem.active| < k.slots
    ensures Tables(Step(k, e))
  {
    hide OnePlace, Tagged, Tables, DoArrive, HandOff, FromNew, DoRequeue, DoIoDone, DoFire, DoRelease, DoTouch;
    match e
    case Arrive(size) => ArriveTables(k, size);
    case Admit => if k.susReadyQ != [] { HandOffTables(k); } else { NewTag(k); FromNewTables(k); }
    case Requeue => RequeueTables(k);
    case Touch => TouchTables(k);
    case IoDone => IoDoneTables(k);
    case Fire(i, waited) => FireTables(k, i, waited);
    case Release => ReleaseTables(k);
    case _ => StillTables(k, Step(k, e));
  }

  // ---------------------------------------------------------------- timers

  lemma TimersKept(k: Kernel, k': Kernel)
    requires TimersOk(k) && k'.timers == k.timers && k'.nextPid >= k.nextPid
    requires forall p | p in k'.pcbs && p < k.nextPid :: p in k.pcbs && k'.pcbs[p].blocks == k.pcbs[p].blocks
    ensures TimersOk(k')
  {
  }

  lemma BlockTimers(k: Kernel)
    requires OnePlace(k) && TimersOk(k) && k.flight != [] && k.flight[0] in k.pcbs && k.answer.Blocked?
    ensures TimersOk(DoRequeue(k))
  {
  }

  lemma FireTimers(k: Kernel, i: nat, waited: nat)
    requires TimersOk(k) && i < |k.timers|
    ensures TimersOk(DoFire(k, i, waited))
  {
    hide Without, LetThrough, TimersOk;
    FewerTimers(k, DoFire(k, i, waited), i);
  }

  lemma FewerTimers(k: Kernel, k': Kernel, i: nat)
    requires TimersOk(k) && i < |k.timers| && k'.timers == k.timers[..i] + k.timers[i + 1..]
    requires k'.nextPid == k.nextPid
    requires forall p | p in k'.pcbs :: p in k.pcbs && k'.pcbs[p].blocks == k.pcbs[p].blocks
    ensures TimersOk(k')
  {
    assert forall x | 0 <= x < |k'.timers| :: k'.timers[x] == k.timers[if x < i then x else x + 1];
  }

  lemma RequeueTimers(k: Kernel)
    requires TimersOk(k) && k.flight != [] && k.flight[0] in k.pcbs && !k.answer.Blocked?
    ensures TimersOk(DoRequeue(k))
  {
    hide TimersOk;
    TimersKept(k, DoRequeue(k));
  }

  lemma IoDoneTimers(k: Kernel)
    requires TimersOk(k) && k.device != [] && k.device[0] in k.pcbs
    ensures TimersOk(DoIoDone(k))
  {
    hide TimersOk, Without;
    TimersKept(k, DoIoDone(k));
  }

  lemma AdmitTimers(k: Kernel)
    requires TimersOk(k) && Enabled(k, Admit) && Steady(k, Admit)
    ensures TimersOk(Step(k, Admit))
  {
    hide TimersOk;
    TimersKept(k, Step(k, Admit));
  }

  lemma StepTimers(k: Kernel, e: Event)
    requires OnePlace(k) && TimersOk(k) && Enabled(k, e) && Steady(k, e)
    ensures TimersOk(Step(k, e))
  {
    hide OnePlace, TimersOk, HandOff, FromNew, DoRequeue, DoIoDone, DoFire, RemoveAt;
    match e
    case Admit => AdmitTimers(k);
    case Requeue => if k.answer.Blocked? { BlockTimers(k); } else { RequeueTimers(k); }
    case IoDone => IoDoneTimers(k);
    case Fire(i, waited) => FireTimers(k, i, waited);
    case _ => TimersKept(k, Step(k, e));
  }

  // ---------------------------------------------------------------- tokens bound memory

  function Elems(q: seq<nat>): set<nat> {
    set x | x in q
  }

  lemma {:induction false} ElemsSize(q: seq<nat>)
    ensures |Elems(q)| <= |q|
  {
    if q != [] {
      ElemsSize(q[1..]);
      assert Elems(q) == Elems(q[1..]) + {q[0]};
    }
  }

  /** The admitted processes that hold a token: all but the suspended ones. */
  ghost function Holders(k: Kernel): set<nat> {
    set p | p in k.pcbs && p !in k.newQ && k.pcbs[p].tag !in {SUSPENDED_BLOCKED, SUSPENDED_READY}
  }

  lemma HolderPlace(k: Kernel, p: nat)
    requires OnePlace(k) && Tagged(k) && p in Holders(k)
    ensures p in k.readyQ || p in k.execQ || p in k.flight || p in k.exitQ || p in BlockedSet(k)
  {
    SomewhereOnce(k, p);
    hide OnePlace, NoDup;
  }

  /** No more token holders than tokens given out. */
  lemma HoldersSize(k: Kernel)
    requires OnePlace(k) && Tagged(k) && Tokens(k)
    ensures |Holders(k)| + k.grade <= k.degree
  {
    var a, b := Elems(k.readyQ) + Elems(k.execQ), Elems(k.flight) + Elems(k.exitQ);
    assert Holders(k) <= a + b + BlockedSet(k) by {
      hide OnePlace, Tagged, Holders, BlockedSet;
      forall p | p in Holders(k) ensures p in a + b + BlockedSet(k) {
        HolderPlace(k, p);
      }
    }
    ElemsSize(k.readyQ);
    ElemsSize(k.execQ);
    ElemsSize(k.flight);
    ElemsSize(k.exitQ);
    hide OnePlace, Tagged, Elems, Holders, BlockedSet;
    Arith.Subsets(Holders(k), a + b + BlockedSet(k));
  }

  function Image(pcbs: map<nat, Pcb>, ps: set<nat>): set<nat>
    requires ps <= pcbs.Keys
  {
    set p | p in ps :: pcbs[p].table
  }

  lemma {:induction false} ImageSize(pcbs: map<nat, Pcb>, ps: set<nat>)
    requires ps <= pcbs.Keys
    ensures |Image(pcbs, ps)| <= |ps|
    decreases ps
  {
    if ps != {} {
      var p :| p in ps;
      ImageSize(pcbs, ps - {p});
      assert Image(pcbs, ps) == Image(pcbs, ps - {p}) + {pcbs[p].table};
    }
  }

  /** Every active table is that of a token holder. */
  lemma ActiveHeld(k: Kernel, t: nat)
    requires Tables(k) && t in k.mem.active
    ensures exists p :: p in Holders(k) && k.pcbs[p].table == t
  {
    var p :| Admitted(k, p) && k.pcbs[p].table == t;
    assert p in Holders(k);
  }

  /** Active slots of memory never exceed the tokens given out; and while a process whose
      table is suspended holds a token, they are fewer. */
  lemma ActiveBelowTokens(k: Kernel)
    requires OnePlace(k) && Tagged(k) && Tokens(k) && Tables(k)
    ensures |k.mem.active| + k.grade <= k.degree
    ensures forall p | p in Holders(k) && k.pcbs[p].table in k.mem.suspended :: |k.mem.active| + k.grade < k.degree
  {
    hide OnePlace, Tagged, Tokens, Tables;
    HoldersSize(k);
    var h := Holders(k);
    assert h <= k.pcbs.Keys;
    hide Holders;
    ActiveWithin(k, h);
    forall p | p in h && k.pcbs[p].table in k.mem.suspended ensures |k.mem.active| + k.grade < k.degree {
      NotActive(k, p);
      ActiveWithin(k, h - {p});
    }
  }

  lemma NotActive(k: Kernel, p: nat)
    requires Tables(k) && p in k.pcbs && k.pcbs[p].table in k.mem.suspended
    ensures k.pcbs[p].table !in k.mem.active
  {
  }

  /** Every active table is that of a process of `ps`, so there are no more of them. */
  lemma ActiveWithin(k: Kernel, ps: set<nat>)
    requires Tables(k) && Holders(k) <= k.pcbs.Keys && ps <= Holders(k)
    requires forall p | p in Holders(k) && p !in ps :: k.pcbs[p].table !in k.mem.active
    ensures |k.mem.active| <= |ps|
  {
    hide Holders, Tables;
    forall t | t in k.mem.active ensures t in Image(k.pcbs, ps) {
      ActiveHeld(k, t);
    }
    ImageSize(k.pcbs, ps);
    Arith.Subsets(k.mem.active, Image(k.pcbs, ps));
  }

  /** With the degree at most the slots of memory, whoever passes the token finds a slot:
      admission is never refused for want of one. */
  lemma AdmissionFindsSlot(k: Kernel)
    requires Inv(k) && Enabled(k, Admit)
    ensures |k.mem.active| < k.slots
  {
    hide OnePlace, Tagged, Tokens, Tables;
    ActiveBelowTokens(k);
  }

  lemma ExecHolds(k: Kernel)
    requires OnePlace(k) && Tagged(k) && k.execQ != []
    ensures k.execQ[0] in k.pcbs && k.execQ[0] in Holders(k)
  {
    OnceOnly(k, k.execQ[0]);
    hide OnePlace, NoDup;
    assert k.pcbs[k.execQ[0]].tag in {NEW, READY};
  }

  /** And a suspended process that uses memory finds a slot to wake up in. */
  lemma WakeFindsSlot(k: Kernel)
    requires Inv(k) && Enabled(k, Touch)
    ensures k.execQ != [] && k.execQ[0] in k.pcbs
    ensures k.pcbs[k.execQ[0]].table in k.mem.suspended ==> |k.mem.active| < k.slots
  {
    hide OnePlace, Tagged, Tokens, Signals, Tables, TimersOk, Holders;
    NeverEmpty(k, Touch);
    ExecHolds(k);
    ActiveBelowTokens(k);
  }

  // ---------------------------------------------------------------- every step, every run

  lemma StepInv(k: Kernel, e: Event)
    requires Inv(k) && Enabled(k, e)
    ensures Steady(k, e) && Inv(Step(k, e))
  {
    hide OnePlace, Tagged, Tokens, Signals, Tables, TimersOk, Enabled;
    NeverEmpty(k, e);
    if e == Admit {
      AdmissionFindsSlot(k);
    }
    StepPlaces(k, e);
    StepTagged(k, e);
    StepTokens(k, e);
    StepSignals(k, e);
    StepTables(k, e);
    StepTimers(k, e);
    StepFramed(k, e, if e.Arrive? then e.size else 0);
  }

  /** No step changes the configuration, and only an arrival brings a process in. */
  predicate Framed(k: Kernel, k': Kernel, size: nat) {
    && k'.degree == k.degree && k'.slots == k.slots && k'.limit == k.limit && k'.srt == k.srt
    && k'.alfa == k.alfa && k'.initial == k.initial
    && k'.nextPid >= k.nextPid
    && forall p | p in k'.pcbs ::
         || (p in k.pcbs && k'.pcbs[p].size == k.pcbs[p].size)
         || (p == k.nextPid && k'.pcbs[p].size == size)
  }

  lemma HandOffFramed(k: Kernel, size: nat)
    requires k.susReadyQ != [] && k.susReadyQ[0] in k.pcbs && k.grade > 0
    ensures Framed(k, HandOff(k), size)
  {
  }

  lemma FromNewFramed(k: Kernel, size: nat)
    requires k.newQ != [] && k.newQ[0] in k.pcbs && k.grade > 0
    ensures Framed(k, FromNew(k), size)
  {
  }

  lemma RequeueFramed(k: Kernel, size: nat)
    requires k.flight != [] && k.flight[0] in k.pcbs
    ensures Framed(k, DoRequeue(k), size)
  {
  }

  lemma IoDoneFramed(k: Kernel, size: nat)
    requires k.device != [] && k.device[0] in k.pcbs
    ensures Framed(k, DoIoDone(k), size)
  {
    hide Without;
  }

  lemma FireFramed(k: Kernel, i: nat, waited: nat, size: nat)
    requires i < |k.timers|
    ensures Framed(k, DoFire(k, i, waited), size)
  {
    hide Without, LetThrough;
  }

  lemma StepFramed(k: Kernel, e: Event, size: nat)
    requires Enabled(k, e) && Steady(k, e) && (e.Arrive? ==> size == e.size)
    ensures Framed(k, Step(k, e), size)
  {
    hide HandOff, FromNew, DoRequeue, DoIoDone, DoFire, RemoveAt;
    match e
    case Admit => if k.susReadyQ != [] { HandOffFramed(k, size); } else { FromNewFramed(k, size); }
    case Requeue => RequeueFramed(k, size);
    case IoDone => IoDoneFramed(k, size);
    case Fire(i, waited) => FireFramed(k, i, waited, size);
    case _ =>
  }

  lemma StepSizes(k: Kernel, e: Event, max: nat)
    requires Enabled(k, e) && Steady(k, e) && (forall p | p in k.pcbs :: k.pcbs[p].size <= max)
    requires e.Arrive? ==> e.size <= max
    ensures forall p | p in Step(k, e).pcbs :: Step(k, e).pcbs[p].size <= max
  {
    hide Step;
    StepFramed(k, e, if e.Arrive? then e.size else 0);
  }

  ghost predicate CanRun(k: Kernel, events: seq<Event>)
    decreases |events|
  {
    events == [] || (Enabled(k, events[0]) && Steady(k, events[0]) && CanRun(Step(k, events[0]), events[1..]))
  }

  ghost function RunOf(k: Kernel, events: seq<Event>): Kernel
    requires CanRun(k, events)
    decreases |events|
  {
    if events == [] then k else RunOf(Step(k, events[0]), events[1..])
  }

  /** All of the above in every reachable state, from any degree that memory has slots
      for and under any interleaving of the threads. */
  lemma {:induction false} RunInv(k: Kernel, events: seq<Event>)
    requires Inv(k) && CanRun(k, events)
    ensures Inv(RunOf(k, events))
    decreases |events|
  {
    hide Inv, Step, Enabled, Steady;
    if events != [] {
      StepInv(k, events[0]);
      RunInv(Step(k, events[0]), events[1..]);
    }
  }

  /** The tag of a live process says where it is: waiting for I/O exactly while blocked or
      suspended-blocked, even after a timer has taken it off BLOCKED and let it be. */
  lemma TagTellsPlace(k: Kernel, p: nat)
    requires Inv(k) && p in k.pcbs
    ensures k.pcbs[p].tag in {BLOCKED, SUSPENDED_BLOCKED} <==> p in k.ioQ || p in k.device
    ensures k.pcbs[p].tag == SUSPENDED_READY <==> p in k.susReadyQ
    ensures k.pcbs[p].tag == EXIT <==> p in k.exitQ
    ensures k.pcbs[p].tag == SUSPENDED_BLOCKED <==> p in k.susBlockedQ
    ensures p in k.blockedQ ==> k.pcbs[p].tag == BLOCKED
    ensures Places(k, p) == 1
  {
    hide Tokens, Signals, Tables, TimersOk, NoDup;
    SomewhereOnce(k, p);
    hide Places;
  }

  /** A timer suspends a process only in the block it was started for: the fired timer is
      the last one started for the process, and the process is still in BLOCKED. */
  lemma TimerOfThisBlock(k: Kernel, i: nat, waited: nat)
    requires Inv(k) && i < |k.timers|
    requires DoFire(k, i, waited).lastSuspended != k.lastSuspended || DoFire(k, i, waited).grade != k.grade
    ensures var t := k.timers[i];
            && t.pid in k.pcbs && t.block == k.pcbs[t.pid].blocks && k.pcbs[t.pid].tag == BLOCKED
            && (forall j | 0 <= j < |k.timers| && j != i && k.timers[j].pid == t.pid :: k.timers[j].block < t.block)
  {
    hide OnePlace, Tokens, Signals, Tables, Without, LetThrough, NoDup;
    var t := k.timers[i];
    BlockedTag(k, t.pid);
    hide Tagged;
    forall j | 0 <= j < |k.timers| && j != i && k.timers[j].pid == t.pid ensures k.timers[j].block < t.block {
      assert k.timers[j] in k.timers;
    }
  }

  /** When it suspends it: in that block, if the I/O alone is longer than the limit, or with
      the seconds it has waited for the device.  It then gives token and page table back.
      Otherwise BLOCKED loses it and nothing else happens; a timer of an earlier block does
      nothing at all. */
  lemma TimerSuspendsIff(k: Kernel, i: nat, waited: nat)
    requires Inv(k) && i < |k.timers|
    ensures var t, k' := k.timers[i], Step(k, Fire(i, waited));
            && k'.timers == k.timers[..i] + k.timers[i + 1..]
            && (t.pid in k.blockedQ ==> t.pid in k.pcbs)
            && (if t.pid in k.blockedQ && k.pcbs[t.pid].blocks == t.block then
                  var pcb := k.pcbs[t.pid];
                  if pcb.ioTime > k.limit || pcb.ioTime + 1000 * waited > k.limit then
                    && k'.pcbs == k.pcbs[t.pid := pcb.(tag := SUSPENDED_BLOCKED)]
                    && k'.blockedQ == Without(k.blockedQ, t.pid) && k'.susBlockedQ == k.susBlockedQ + [t.pid]
                    && k'.lastSuspended == t.pid && k'.grade == k.grade + 1
                    && pcb.table in k'.mem.suspended && pcb.table !in k'.mem.active
                  else
                    k' == k.(timers := k'.timers, blockedQ := Without(k.blockedQ, t.pid))
                else
                  k' == k.(timers := k'.timers))
  {
    hide OnePlace, Tokens, Signals, Tables, TimersOk, NoDup, Without;
    if k.timers[i].pid in k.blockedQ {
      BlockedTag(k, k.timers[i].pid);
    }
    hide Tagged;
  }

  /** A refusal, which takes a degree above the number of slots: the process is put into EXIT,
      its token stays taken, and the exit thread is told nothing, so that EXIT holds more than
      its semaphore counts. */
  lemma RefusedIsNotSignalled(k: Kernel)
    requires Enabled(k, Admit) && Steady(k, Admit) && k.susReadyQ == [] && |k.mem.active| >= k.slots
    ensures var k' := Step(k, Admit);
            && k'.exitQ == k.exitQ + [k.newQ[0]] && k'.semExit == k.semExit && k'.grade == k.grade - 1
            && k'.pcbs == k.pcbs && k'.readyQ == k.readyQ && k'.mem == k.mem && k'.preempt == k.preempt
            && (k.semExit == |k.exitQ| ==> k'.semExit < |k'.exitQ|)
  {
  }

  /** Interrupts sent and not yet served. */
  function Unserved(k: Kernel): nat {
    k.asked + if k.interrupt then 1 else 0
  }

  predicate SameInterrupts(k: Kernel, k': Kernel) {
    k'.srt == k.srt && k'.asked == k.asked && k'.interrupt == k.interrupt
  }

  lemma AdmitInterrupts(k: Kernel)
    requires Enabled(k, Admit) && Steady(k, Admit)
    ensures SameInterrupts(k, Step(k, Admit))
  {
    hide Retag;
  }

  lemma QueuesInterrupts(k: Kernel, e: Event)
    requires Enabled(k, e) && Steady(k, e) && (e.Requeue? || e.IoDone? || e.Fire?)
    ensures SameInterrupts(k, Step(k, e))
  {
    hide Without, LetThrough, Charged, Retag;
  }

  /** Only the steps of the short-term scheduler and of the CPU deal in interrupts. */
  lemma StillInterrupts(k: Kernel, e: Event)
    requires Enabled(k, e) && Steady(k, e) && !e.TakeReady? && !e.Answered? && !e.Interrupt?
    ensures SameInterrupts(k, Step(k, e))
  {
    hide HandOff, FromNew, DoRequeue, DoIoDone, DoFire, RemoveAt, Elects;
    if e.Admit? {
      AdmitInterrupts(k);
    } else if e.Requeue? || e.IoDone? || e.Fire? {
      QueuesInterrupts(k, e);
    }
  }

  lemma StepUnserved(k: Kernel, e: Event)
    requires Enabled(k, e) && Steady(k, e)
    ensures Step(k, e).srt == k.srt
    ensures Unserved(Step(k, e)) + (if e.Answered? && e.a.Preempted? then 1 else 0)
            <= Unserved(k) + if e.TakeReady? && Interrupts(k) then 1 else 0
  {
    if !e.TakeReady? && !e.Answered? && !e.Interrupt? {
      StillInterrupts(k, e);
      hide Step, Enabled, Steady;
    }
    hide DoArrive, HandOff, FromNew, DoPick, DoRequeue, DoTouch, DoTakeIo, DoIoDone, DoFire, DoRelease, Elects;
  }

  /** An interrupt is sent by a look under SRT that finds a request and somebody in EXEC; once
      received it stays until a preemption serves it, whoever runs meanwhile; several received
      before that are one. */
  lemma InterruptStep(k: Kernel, e: Event)
    requires Inv(k) && Enabled(k, e) && Steady(k, e)
    ensures Step(k, e).interrupt <==> (k.interrupt || e.Interrupt?) && !(e.Answered? && e.a.Preempted?)
    ensures Step(k, e).asked == k.asked + (if e.TakeReady? && k.srt && k.preempt && k.execQ != [] then 1 else 0)
                                - if e.Interrupt? then 1 else 0
  {
    ExecAtMostOne(k);
    hide Inv;
    if !e.TakeReady? && !e.Answered? && !e.Interrupt? {
      StillInterrupts(k, e);
      hide Step, Enabled, Steady;
    }
    hide DoArrive, HandOff, FromNew, DoPick, DoRequeue, DoTouch, DoTakeIo, DoIoDone, DoFire, DoRelease, Elects;
  }

  lemma ExecAtMostOne(k: Kernel)
    requires Inv(k)
    ensures |k.execQ| <= 1
  {
    hide OnePlace, Tagged, Tokens, Tables, TimersOk;
  }

  /** So a process on the CPU with an interrupt on its way can come back to READY at once. */
  lemma InterruptPreempts(k: Kernel, ran: nat)
    requires Inv(k) && k.attend == AtCpu && k.asked > 0
    ensures Enabled(k, Interrupt) && Enabled(Step(k, Interrupt), Answered(Preempted, ran)) && k.execQ != []
    ensures var k1 := Step(k, Interrupt);
            var k2 := Step(k1, Answered(Preempted, ran));
            && Enabled(k2, Requeue) && Steady(k2, Requeue)
            && Step(k2, Requeue).readyQ == k.readyQ + [k.execQ[0]] && Step(k2, Requeue).execQ == k.execQ[1..]
  {
    hide Inv, Charged, Elects, BurstOf;
    hide DoArrive, HandOff, FromNew, DoPick, DoTouch, DoTakeIo, DoIoDone, DoFire, DoRelease, DoTakeReady;
    NeverEmpty(k, Touch);
    AttendsAlone(k);
    var k2 := DoAnswered(k.(asked := k.asked - 1, interrupt := true), Preempted, ran);
    assert k2.flight == [k.execQ[0]];
  }

  lemma AttendsAlone(k: Kernel)
    requires Inv(k) && k.attend == AtCpu
    ensures k.flight == []
  {
    hide OnePlace, Tagged, Tokens, Tables, TimersOk;
  }

  function Preemptions(events: seq<Event>): nat {
    if events == [] then 0
    else (if events[0].Answered? && events[0].a.Preempted? then 1 else 0) + Preemptions(events[1..])
  }

  /** How often the run asks the CPU to stop. */
  ghost function Requests(k: Kernel, events: seq<Event>): nat
    requires CanRun(k, events)
    decreases |events|
  {
    hide Step, Enabled, Steady;
    if events == [] then 0
    else (if events[0].TakeReady? && Interrupts(k) then 1 else 0) + Requests(Step(k, events[0]), events[1..])
  }

  /** Every preemption serves a request of its own: interrupts may arrive late or two at
      once, but none is served twice. */
  lemma {:induction false} PreemptionsAreAsked(k: Kernel, events: seq<Event>)
    requires CanRun(k, events)
    ensures Preemptions(events) + Unserved(RunOf(k, events)) <= Unserved(k) + Requests(k, events)
    decreases |events|
  {
    hide Step, Enabled, Steady, Unserved, Interrupts;
    if events != [] {
      StepUnserved(k, events[0]);
      PreemptionsAreAsked(Step(k, events[0]), events[1..]);
    }
  }

  /** Under FIFO nobody is ever asked to stop, so nobody is preempted. */
  lemma {:induction false} FifoNeverPreempts(k: Kernel, events: seq<Event>)
    requires CanRun(k, events) && !k.srt && Unserved(k) == 0
    ensures Unserved(RunOf(k, events)) == 0
    ensures forall e | e in events && e.Answered? :: !e.a.Preempted?
    decreases |events|
  {
    hide Step, Enabled, Steady;
    if events != [] {
      StepUnserved(k, events[0]);
      assert events == [events[0]] + events[1..];
      FifoNeverPreempts(Step(k, events[0]), events[1..]);
    }
  }

  // ---------------------------------------------------------------- what steps leave alone

  /** Memory changes only where the kernel asks it to. */
  lemma StepMem(k: Kernel, e: Event)
    requires Enabled(k, e) && Steady(k, e) && !e.Touch? && !e.Release?
    requires e.Admit? ==> k.susReadyQ != []
    requires e.Fire? ==> !Suspends(k, e.i, e.waited)
    ensures Step(k, e).mem == k.mem && Step(k, e).lastSuspended == k.lastSuspended
  {
    hide Without, LetThrough, RemoveAt, Elects, Charged, Retag, BurstOf, FromNew, DoRelease, DoTouch;
  }

  // ---------------------------------------------------------------- preemption under SRT

  lemma FireKeepsReady(k: Kernel, i: nat, waited: nat)
    requires i < |k.timers|
    ensures DoFire(k, i, waited).readyQ == k.readyQ && DoFire(k, i, waited).preempt == k.preempt
  {
    hide Without, LetThrough;
  }

  lemma RequeueKeepsPreempt(k: Kernel)
    requires |k.flight| > 0 && k.flight[0] in k.pcbs
    ensures DoRequeue(k).preempt == k.preempt
  {
    hide Charged, Retag;
  }

  /** Whoever becomes ready other than by being preempted asks for a preemption, and nothing
      else does; only a look of the short-term scheduler under SRT settles it. */
  lemma NewcomerAsks(k: Kernel, e: Event)
    requires Enabled(k, e) && Steady(k, e)
    ensures !e.TakeReady? ==>
              Step(k, e).preempt == (k.preempt || (Step(k, e).readyQ != k.readyQ && !e.Requeue? && !e.Pick?))
    ensures e.TakeReady? ==> Step(k, e).preempt == (k.preempt && !k.srt)
  {
    hide Without, LetThrough, RemoveAt, Elects, Charged, Retag, BurstOf, ReadyBursts, DoRequeue, DoFire;
    if e.Fire? {
      FireKeepsReady(k, e.i, e.waited);
    } else if e.Requeue? {
      RequeueKeepsPreempt(k);
    }
  }

  /** And the next time the short-term scheduler looks, whoever executes is sent an
      interrupt: under SRT the request to look never outlives the look. */
  lemma RequestInterrupts(k: Kernel)
    requires Inv(k) && Enabled(k, TakeReady) && k.srt
    ensures var k' := Step(k, TakeReady);
            && !k'.preempt && k'.interrupt == k.interrupt
            && (k.preempt && k.execQ != [] ==> k'.asked == k.asked + 1)
            && (!k.preempt || k.execQ == [] ==> k'.asked == k.asked)
  {
    hide OnePlace, Tagged, Tokens, Tables, TimersOk;
  }

  // ---------------------------------------------------------------- the choice

  lemma OnceDistinct(q: seq<nat>)
    requires forall p: nat :: Times(q, p) <= 1
    ensures NoDup(q)
  {
    forall i, j | 0 <= i < j < |q| ensures q[i] != q[j] {
      TimesRemoved(q, i, q[j]);
      assert RemoveAt(q, i)[j - 1] == q[j];
      TimesIn(RemoveAt(q, i), q[j]);
    }
  }

  lemma ReadyDistinct(k: Kernel)
    requires Inv(k)
    ensures NoDup(k.readyQ) && Srt.DistinctPids(ReadyBursts(k))
  {
    hide Tagged, Tokens, Signals, Tables, TimersOk;
    forall p: nat ensures Times(k.readyQ, p) <= 1 {
      assert Places(k, p) <= 1;
    }
    hide OnePlace, Times;
    OnceDistinct(k.readyQ);
  }

  /** What is left of the estimate of the process at position j of READY. */
  lemma ReadyLeft(k: Kernel, j: nat)
    requires Inv(k) && j < |k.readyQ|
    ensures k.readyQ[j] in k.pcbs
    ensures var b, pcb := ReadyBursts(k)[j], k.pcbs[k.readyQ[j]];
            b.estimate - b.executed == pcb.estimate - pcb.executed
  {
    hide OnePlace, Tokens, Signals, Tables, TimersOk, NoDup;
  }

  /** Under SRT the scheduler's step takes the earliest of READY whose estimate less the time
      executed is least; that is exactly the process `elegir_pcb_segun_srt` takes out of READY,
      and it leaves exactly what that leaves. */
  lemma ElectedIsChosen(k: Kernel, i: nat)
    requires Inv(k) && k.srt && i < |k.readyQ|
    ensures forall j | 0 <= j < |k.readyQ| :: k.readyQ[j] in k.pcbs
    ensures Elects(k, i) <==>
            var pcb := k.pcbs[k.readyQ[i]];
            && (forall j | 0 <= j < |k.readyQ| ::
                  pcb.estimate - pcb.executed <= k.pcbs[k.readyQ[j]].estimate - k.pcbs[k.readyQ[j]].executed)
            && (forall j | 0 <= j < i ::
                  pcb.estimate - pcb.executed < k.pcbs[k.readyQ[j]].estimate - k.pcbs[k.readyQ[j]].executed)
    ensures Elects(k, i) <==>
            Srt.Choose(ReadyBursts(k)) == Srt.Chosen(BurstOf(k, k.readyQ[i]), ReadyBursts(DoPick(k, i)))
  {
    hide Inv, Srt.Choose;
    ReadyDistinct(k);
    var q, k' := ReadyBursts(k), DoPick(k, i);
    Srt.ChooseTakesFirstLeast(q, i);
    assert ReadyBursts(k') == q[..i] + q[i + 1..];
    forall j | 0 <= j < |k.readyQ|
      ensures k.readyQ[j] in k.pcbs
      ensures q[j].estimate - q[j].executed == k.pcbs[k.readyQ[j]].estimate - k.pcbs[k.readyQ[j]].executed
    {
      ReadyLeft(k, j);
    }
  }

  /** And somebody is always taken. */
  lemma SomebodyElected(k: Kernel) returns (i: nat)
    requires k.readyQ != []
    ensures i < |k.readyQ| && Elects(k, i)
  {
    if k.srt {
      var q := ReadyBursts(k);
      i := Srt.MinimumIsFirstLeast(q, |q|);
      assert q[..|q|] == q;
    } else {
      i := 0;
    }
  }
}
