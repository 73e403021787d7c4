/** First come, first served.

    Every queue of the kernel hands processes on in the order in which they joined it, over
    whole runs and whatever the threads do in between; READY does so under FIFO, and under SRT
    keeps the order of those it has not given away.
 */
module FirstCome {
  import opened Queues
  import opened Scheduler

  datatype Queue = New | Ready | SusReady | Io | Exits

  function QueueOf(k: Kernel, q: Queue): seq<nat> {
    match q
    case New => k.newQ
    case Ready => k.readyQ
    case SusReady => k.susReadyQ
    case Io => k.ioQ
    case Exits => k.exitQ
  }

  /** Who joins the queue in a step: arrivals, NEW; the admitted, the preempted and those back
      from I/O in time, READY; those back from it suspended, SUSREADY; the blocked, the device;
      the terminated, and those memory refuses, EXIT. */
  function Joins(k: Kernel, e: Event, q: Queue): seq<nat>
    requires Enabled(k, e) && Steady(k, e)
  {
    match e
    case Arrive(_) => if q.New? then [k.nextPid] else []
    case Admit =>
      if k.susReadyQ != [] then (if q.Ready? then [k.susReadyQ[0]] else [])
      else if |k.mem.active| < k.slots then (if q.Ready? then [k.newQ[0]] else [])
      else if q.Exits? then [k.newQ[0]] else []
    case Requeue =>
      (match k.answer
       case Preempted => if q.Ready? then [k.flight[0]] else []
       case Terminated => if q.Exits? then [k.flight[0]] else []
       case Blocked(_) => if q.Io? then [k.flight[0]] else [])
    case IoDone =>
      var tag := k.pcbs[k.device[0]].tag;
      if (q.Ready? && tag == BLOCKED) || (q.SusReady? && tag == SUSPENDED_BLOCKED) then [k.device[0]] else []
    case _ => []
  }

  /** Who leaves it: the first, but for READY, which gives away whom it elects. */
  function Leaves(k: Kernel, e: Event, q: Queue): seq<nat>
    requires Enabled(k, e) && Steady(k, e)
  {
    match e
    case Admit =>
      if k.susReadyQ != [] then (if q.SusReady? then [k.susReadyQ[0]] else [])
      else if q.New? then [k.newQ[0]] else []
    case Pick(i) => if q.Ready? then [k.readyQ[i]] else []
    case TakeIo => if q.Io? then [k.ioQ[0]] else []
    case Release => if q.Exits? then [k.exitQ[0]] else []
    case _ => []
  }

  // ---------------------------------------------------------------- one step

  lemma AdmitOrder(k: Kernel, q: Queue)
    requires Enabled(k, Admit) && Steady(k, Admit)
    ensures QueueOf(k, q) + Joins(k, Admit, q) == Leaves(k, Admit, q) + QueueOf(Step(k, Admit), q)
  {
    hide Retag;
    if k.susReadyQ != [] {
      assert k.susReadyQ == [k.susReadyQ[0]] + k.susReadyQ[1..];
    } else {
      assert k.newQ == [k.newQ[0]] + k.newQ[1..];
    }
  }

  lemma RequeueOrder(k: Kernel, q: Queue)
    requires Enabled(k, Requeue) && Steady(k, Requeue)
    ensures QueueOf(k, q) + Joins(k, Requeue, q) == Leaves(k, Requeue, q) + QueueOf(Step(k, Requeue), q)
  {
    hide Retag, Charged;
  }

  lemma IoDoneOrder(k: Kernel, q: Queue)
    requires Enabled(k, IoDone) && Steady(k, IoDone)
    ensures QueueOf(k, q) + Joins(k, IoDone, q) == Leaves(k, IoDone, q) + QueueOf(Step(k, IoDone), q)
  {
    hide Without;
  }

  lemma FireOrder(k: Kernel, i: nat, waited: nat, q: Queue)
    requires i < |k.timers|
    ensures QueueOf(DoFire(k, i, waited), q) == QueueOf(k, q)
  {
    hide Without, LetThrough;
  }

  /** A step appends whoever joins and takes away the first, or under SRT the one elected, and
      nobody else changes place. */
  lemma StepOrder(k: Kernel, e: Event, q: Queue)
    requires Enabled(k, e) && Steady(k, e)
    ensures !e.Pick? || !q.Ready? || !k.srt ==>
              QueueOf(k, q) + Joins(k, e, q) == Leaves(k, e, q) + QueueOf(Step(k, e), q)
    ensures e.Pick? && q.Ready? ==> Step(k, e).readyQ == k.readyQ[..e.i] + k.readyQ[e.i + 1..]
    ensures Step(k, e).srt == k.srt
  {
    StillSrt(k, e);
    hide HandOff, FromNew, DoRequeue, DoIoDone, DoFire, BurstOf, ReadyBursts, DoTouch;
    match e
    case Admit => AdmitOrder(k, q);
    case Requeue => RequeueOrder(k, q);
    case IoDone => IoDoneOrder(k, q);
    case Fire(i, waited) => FireOrder(k, i, waited, q);
    case Touch => TouchOrder(k, q);
    case _ =>
  }

  lemma TouchOrder(k: Kernel, q: Queue)
    requires Enabled(k, Touch) && Steady(k, Touch)
    ensures QueueOf(Step(k, Touch), q) == QueueOf(k, q)
  {
  }

  lemma StillSrt(k: Kernel, e: Event)
    requires Enabled(k, e) && Steady(k, e)
    ensures Step(k, e).srt == k.srt
  {
    StepFramed(k, e, if e.Arrive? then e.size else 0);
    hide Step, Enabled, Steady;
  }

  // ---------------------------------------------------------------- whole runs

  ghost function Joined(k: Kernel, events: seq<Event>, q: Queue): seq<nat>
    requires CanRun(k, events)
    decreases |events|
  {
    hide Step, Enabled, Steady, Joins;
    if events == [] then [] else Joins(k, events[0], q) + Joined(Step(k, events[0]), events[1..], q)
  }

  ghost function Left(k: Kernel, events: seq<Event>, q: Queue): seq<nat>
    requires CanRun(k, events)
    decreases |events|
  {
    hide Step, Enabled, Steady, Leaves;
    if events == [] then [] else Leaves(k, events[0], q) + Left(Step(k, events[0]), events[1..], q)
  }

  /** Whoever left, in that order, and whoever is still in the queue are those who were in it
      and those who joined, in that order. */
  lemma {:induction false} FirstComeFirstServed(k: Kernel, events: seq<Event>, q: Queue)
    requires CanRun(k, events) && (q.Ready? ==> !k.srt)
    ensures QueueOf(k, q) + Joined(k, events, q) == Left(k, events, q) + QueueOf(RunOf(k, events), q)
    decreases |events|
  {
    hide Step, Enabled, Steady, Joins, Leaves, QueueOf;
    if events == [] {
      assert QueueOf(k, q) + [] == [] + QueueOf(k, q);
    } else {
      var e, k' := events[0], Step(k, events[0]);
      StepOrder(k, e, q);
      FirstComeFirstServed(k', events[1..], q);
      var a, j, l, b := QueueOf(k, q), Joins(k, e, q), Leaves(k, e, q), QueueOf(k', q);
      var js, ls, z := Joined(k', events[1..], q), Left(k', events[1..], q), QueueOf(RunOf(k', events[1..]), q);
      assert a + (j + js) == (a + j) + js == (l + b) + js == l + (b + js) == l + (ls + z) == (l + ls) + z;
    }
  }
}
