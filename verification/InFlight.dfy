/** Writes on their way to memory.

    `cpu_escribir_en_memoria` (cpu/src/cpu_mem_client.c, lines 49-57) sends a write and does
    not wait for an answer, so the CPU goes on, and may give the process back, before memory
    has served it.  Memory serves the CPU in order, and the CPU waits for the answer to
    everything else; so only the kernel's requests can overtake a write.  This says exactly
    when one that does makes the write miss its page, and that all others cannot be told
    from writes served at once.
 */
module InFlight {
  import opened Paging
  import opened VirtualMemory
  import opened Addressing
  import opened MemoryProofs
  import opened FlatMemory
  import opened RequestRuns
  import opened Translation
  import opened CpuMemory
  import T = TlbCache

  // ---------------------------------------------------------------- one address

  /** The kernel's requests take frames from the process they suspend or end and give none
      to anybody. */
  lemma KernelOwners(s: State, r: Request, p: Place)
    requires Inv(s) && KernelAsks(r) && Enabled(s, r)
    ensures OwnerAt(Serve(s, r).0, p)
            == var o := OwnerAt(s, p); if o != Nobody && Concerns(r, o.id) then Nobody else o
  {
    match r
    case Create(size) => CreateOwners(s, size, p);
    case Suspend(id) => SuspendOwners(s, id, p);
    case Finish(id) => FinishOwners(s, id, p);
    case _ =>
  }

  lemma CreateOwners(s: State, size: nat, p: Place)
    requires Inv(s)
    ensures OwnerAt(ServeCreate(s, size).0, p) == OwnerAt(s, p)
  {
    if p.slot < |s.slots| && s.slots[p.slot].id == 0 {
      assert SlotOk(s, s.slots[p.slot]);
    }
    hide Inv;
  }

  lemma SuspendOwners(s: State, id: nat, p: Place)
    requires Inv(s) && id in s.swap
    ensures OwnerAt(ServeSuspend(s, id).0, p)
            == var o := OwnerAt(s, p); if o != Nobody && o.id == id then Nobody else o
  {
    if OwnerAt(s, p) != Nobody {
      OwnedActive(s, p);
    }
    if id !in s.suspended {
      ActiveSlot(s, id);
    }
    hide Inv, Good, Vacant, FlushedFile, KnownPages;
  }

  lemma FinishOwners(s: State, id: nat, p: Place)
    requires Inv(s) && id in s.swap
    ensures OwnerAt(ServeFinish(s, id).0, p)
            == var o := OwnerAt(s, p); if o != Nobody && o.id == id then Nobody else o
  {
    if OwnerAt(s, p) != Nobody {
      OwnedActive(s, p);
    }
    if id !in s.suspended {
      ActiveSlot(s, id);
    }
    hide Inv, Good, Vacant;
  }

  /** A write overtaken by any run of kernel requests still finds its byte if and only if none
      of them suspends or ends the process that owns it; otherwise the frame is nobody's. */
  lemma {:induction false} OvertakenIff(s: State, p: Place, rs: seq<Request>)
    requires Inv(s) && Legal(s, rs) && (forall r | r in rs :: KernelAsks(r)) && OwnerAt(s, p) != Nobody
    ensures OwnerAt(Run(s, rs), p)
            == if exists r :: r in rs && Concerns(r, OwnerAt(s, p).id) then Nobody else OwnerAt(s, p)
    decreases |rs|
  {
    hide Inv, OwnerAt, Serve, Enabled;
    if rs != [] {
      var s' := Served(s, rs[0]);
      KernelOwners(s, rs[0], p);
      assert rs[0] in rs;
      assert forall r | r in rs[1..] :: r in rs;
      assert forall r | r in rs :: r == rs[0] || r in rs[1..];
      if Concerns(rs[0], OwnerAt(s, p).id) {
        NobodyStays(s', p, rs[1..]);
      } else {
        OvertakenIff(s', p, rs[1..]);
      }
    }
  }

  lemma {:induction false} NobodyStays(s: State, p: Place, rs: seq<Request>)
    requires Inv(s) && Legal(s, rs) && (forall r | r in rs :: KernelAsks(r)) && OwnerAt(s, p) == Nobody
    ensures OwnerAt(Run(s, rs), p) == Nobody
    decreases |rs|
  {
    hide Inv, OwnerAt, Serve, Enabled;
    if rs != [] {
      KernelOwners(s, rs[0], p);
      NobodyStays(Served(s, rs[0]), p, rs[1..]);
    }
  }

  // ---------------------------------------------------------------- changing the order

  /** A write and a kernel request about somebody else may be served in either order. */
  lemma WriteCommutes(s: State, p: Place, v: seq<Byte>, r: Request)
    requires Inv(s) && Enabled(s, Write(p, v)) && KernelAsks(r) && Enabled(s, r) && !Concerns(r, OwnerAt(s, p).id)
    ensures Enabled(Served(s, Write(p, v)), r) && Enabled(Served(s, r), Write(p, v))
    ensures Serve(Served(s, Write(p, v)), r).0 == Serve(Served(s, r), Write(p, v)).0
  {
    hide Inv, OwnerAt, Serve;
    KernelOwners(s, r, p);
    ServeConfig(s, r);
    WrittenSlot(s, p, v);
    match r
    case Create(size) => CreateCommutes(s, p, v, size);
    case Suspend(id) => SuspendCommutes(s, p, v, id);
    case Finish(id) => FinishCommutes(s, p, v, id);
    case _ =>
  }

  /** A write changes pages and bytes of its slot, and nobody's place. */
  lemma WrittenSlot(s: State, p: Place, v: seq<Byte>)
    requires Inv(s) && Enabled(s, Write(p, v))
    ensures p.slot < |s.slots| && OwnerAt(s, p).id == s.slots[p.slot].id != 0
    ensures s.slots[p.slot].id in s.swap && s.slots[p.slot].id !in s.suspended
    ensures var s' := Served(s, Write(p, v));
            && |s'.slots| == |s.slots| && s' == s.(slots := s.slots[p.slot := s'.slots[p.slot]])
            && s'.slots[p.slot].id == s.slots[p.slot].id
            && forall id :: FindSlot(s'.slots, id, 0) == FindSlot(s.slots, id, 0)
  {
    OwnedActive(s, p);
    hide Inv, Good, FindSlot;
    var s' := Served(s, Write(p, v));
    forall id: nat ensures FindSlot(s'.slots, id, 0) == FindSlot(s.slots, id, 0) {
      FindOther(s.slots, p.slot, s'.slots[p.slot], id, 0);
    }
  }

  lemma CreateCommutes(s: State, p: Place, v: seq<Byte>, size: nat)
    requires Inv(s) && Enabled(s, Write(p, v)) && Enabled(Served(s, Create(size)), Write(p, v))
    ensures Serve(Served(s, Write(p, v)), Create(size)).0 == Serve(Served(s, Create(size)), Write(p, v)).0
  {
    hide Inv, FindSlot, Store, OwnerAt, PageNo;
    WrittenSlot(s, p, v);
    assert ConfigOk(s.c) by { ConfigOf(s); }
    var i := FindSlot(s.slots, 0, 0);
    var s1, s2 := Served(s, Write(p, v)), Served(s, Create(size));
    if size <= s.c.K * s.c.T && HasFree(s) {
      assert i != p.slot;
      assert s1.slots[i := s1.slots[i].(id := s.nextId, size := size)] == s2.slots[p.slot := s1.slots[p.slot]];
    }
  }

  lemma ConfigOf(s: State)
    requires Inv(s)
    ensures ConfigOk(s.c)
  {
  }

  lemma SuspendCommutes(s: State, p: Place, v: seq<Byte>, id: nat)
    requires Inv(s) && Enabled(s, Write(p, v)) && Enabled(s, Suspend(id)) && OwnerAt(s, p).id != id
    requires Enabled(Served(s, Suspend(id)), Write(p, v)) && Enabled(Served(s, Write(p, v)), Suspend(id))
    ensures Serve(Served(s, Write(p, v)), Suspend(id)).0 == Serve(Served(s, Suspend(id)), Write(p, v)).0
  {
    hide Inv, FindSlot, Store, OwnerAt, FlushedFile, KnownPages, Emptied, SlotOk;
    WrittenSlot(s, p, v);
    var s1, s2 := Served(s, Write(p, v)), Served(s, Suspend(id));
    if id !in s.suspended {
      ActiveSlot(s, id);
      var i := FindSlot(s.slots, id, 0);
      assert i != p.slot;
      assert s1.slots[i := s2.slots[i]] == s2.slots[p.slot := s1.slots[p.slot]];
    }
  }

  lemma FinishCommutes(s: State, p: Place, v: seq<Byte>, id: nat)
    requires Inv(s) && Enabled(s, Write(p, v)) && Enabled(s, Finish(id)) && OwnerAt(s, p).id != id
    requires Enabled(Served(s, Finish(id)), Write(p, v)) && Enabled(Served(s, Write(p, v)), Finish(id))
    ensures Serve(Served(s, Write(p, v)), Finish(id)).0 == Serve(Served(s, Finish(id)), Write(p, v)).0
  {
    hide Inv, FindSlot, Store, OwnerAt, Dropped, SlotOk;
    WrittenSlot(s, p, v);
    var s1, s2 := Served(s, Write(p, v)), Served(s, Finish(id));
    if id !in s.suspended {
      ActiveSlot(s, id);
      var i := FindSlot(s.slots, id, 0);
      assert i != p.slot;
      assert s1.slots[i := s2.slots[i]] == s2.slots[p.slot := s1.slots[p.slot]];
    }
  }

  // ---------------------------------------------------------------- the machine

  /** A write the CPU has sent: where to, what, whose byte that was when it was sent, and
      whether that process has been suspended or ended since. */
  datatype Sent = Sent(at: Place, v: seq<Byte>, owner: Owner, overtaken: bool)

  /** CPU and memory, with the writes memory has still to serve, oldest first. */
  datatype Bus = Bus(m: Cpu, sent: seq<Sent>)

  /** A step of CPU and memory as before, `Put` now being the sending; or memory serves the
      oldest write. */
  datatype Move = Act(e: CpuMemory.Event) | Arrive

  /** What the CPU waits for an answer to comes after all its writes. */
  predicate Waits(e: CpuMemory.Event) {
    e.AskTable? || e.AskFrame? || e.Fetch?
  }

  predicate Can(d: Bus, a: Move) {
    match a
    case Act(e) => Possible(d.m, e) && (Waits(e) ==> d.sent == [])
    case Arrive => d.sent != [] && Enabled(d.m.s, Write(d.sent[0].at, d.sent[0].v))
  }

  /** A suspension or an end overtakes the writes of its process. */
  function Overtake(sent: seq<Sent>, r: Request): (q: seq<Sent>)
    ensures |q| == |sent|
  {
    seq(|sent|, i requires 0 <= i < |sent| =>
      sent[i].(overtaken := sent[i].overtaken || (sent[i].owner != Nobody && Concerns(r, sent[i].owner.id))))
  }

  ghost function Next(d: Bus, a: Move): Bus
    requires CpuOk(d.m) && Can(d, a)
  {
    match a
    case Act(e) =>
      (match e
       case Put(v) =>
         var p := Locate(d.m.s.c, d.m.at.address);
         LocatedReady(d.m);
         Bus(d.m.(at := Idle), d.sent + [Sent(p, v, OwnerAt(d.m.s, p), false)])
       case Ask(r) => Bus(Step(d.m, e).0, Overtake(d.sent, r))
       case _ => Bus(Step(d.m, e).0, d.sent))
    case Arrive => Bus(d.m.(s := Served(d.m.s, Write(d.sent[0].at, d.sent[0].v))), d.sent[1..])
  }

  /** A write on its way leads to its owner's byte, or, once overtaken, to nobody's. */
  ghost predicate SentOk(s: State, w: Sent) {
    && |w.v| == WORD && w.at.off + WORD <= s.c.T && w.owner != Nobody
    && OwnerAt(s, w.at) == if w.overtaken then Nobody else w.owner
  }

  ghost predicate AllSent(s: State, sent: seq<Sent>) {
    forall i | 0 <= i < |sent| :: SentOk(s, sent[i])
  }

  ghost predicate BusOk(d: Bus) {
    Safe(d.m) && AllSent(d.m.s, d.sent)
  }

  lemma OkOf(d: Bus)
    requires BusOk(d)
    ensures CpuOk(d.m) && Inv(d.m.s) && ConfigOk(d.m.s.c)
  {
  }

  lemma SameSent(s: State, s': State, sent: seq<Sent>)
    requires AllSent(s, sent) && s'.c == s.c && SameOwners(s, s')
    ensures AllSent(s', sent)
  {
    hide OwnerAt;
  }

  lemma AskSent(s: State, sent: seq<Sent>, r: Request)
    requires AllSent(s, sent) && Inv(s) && KernelAsks(r) && Enabled(s, r)
    ensures AllSent(Serve(s, r).0, Overtake(sent, r))
  {
    hide Inv, OwnerAt, Serve;
    ServeConfig(s, r);
    forall i | 0 <= i < |sent| ensures SentOk(Serve(s, r).0, Overtake(sent, r)[i]) {
      assert SentOk(s, sent[i]);
      KernelOwners(s, r, sent[i].at);
    }
  }

  /** Memory serves a write: translations and the access in hand are as good as before. */
  lemma ArriveKeeps(m: Cpu, p: Place, v: seq<Byte>)
    requires Safe(m) && Enabled(m.s, Write(p, v))
    ensures Safe(m.(s := Served(m.s, Write(p, v)))) && SameOwners(m.s, Served(m.s, Write(p, v)))
  {
    hide Inv, FindSlot, ServeWrite, Enabled, SameOwners, Safe, OwnerAt;
    SafeOk(m);
    InvOf(m);
    AccessOwners(m.s, p, v);
    WrittenSlot(m.s, p, v);
    OwnersKept(m, Served(m.s, Write(p, v)));
  }

  lemma OwnersKept(m: Cpu, s': State)
    requires Safe(m) && Inv(s') && s'.c == m.s.c && SameOwners(m.s, s')
    requires s'.swap == m.s.swap && s'.suspended == m.s.suspended
    requires forall id :: FindSlot(s'.slots, id, 0) == FindSlot(m.s.slots, id, 0)
    ensures Safe(m.(s := s'))
  {
    hide Inv, OwnerAt, Locate, T.Ok, Misses, FindSlot, Coherent, SameOwners;
    ConfigOf(m.s);
    StageKept(m, s');
    if m.id != 0 {
      SameOwnersCoherent(m.s, s', m.id, m.t);
    }
  }

  lemma StageKept(m: Cpu, s': State)
    requires CpuOk(m) && Inv(s') && s'.c == m.s.c && SameOwners(m.s, s')
    requires s'.swap == m.s.swap && s'.suspended == m.s.suspended
    requires forall id :: FindSlot(s'.slots, id, 0) == FindSlot(m.s.slots, id, 0)
    ensures CpuOk(m.(s := s'))
  {
    hide Inv, OwnerAt, Locate, T.Ok, Misses, FindSlot;
  }

  lemma SafeConfig(m: Cpu)
    requires Safe(m)
    ensures m.s.c.T > 0 && m.s.c.M > 0
  {
  }

  /** Sending a write ends the access. */
  lemma SendKeeps(m: Cpu)
    requires Safe(m)
    ensures Safe(m.(at := Idle))
  {
    hide Inv, Coherent;
  }

  lemma PutKeeps(d: Bus, v: seq<Byte>)
    requires BusOk(d) && Can(d, Act(Put(v)))
    ensures CpuOk(d.m) && BusOk(Next(d, Act(Put(v)))) && Next(d, Act(Put(v))).m.s == d.m.s
  {
    hide Safe, CpuOk, Step, OwnerAt, Locate, Inv, PageNo;
    OkOf(d);
    LocatedReady(d.m);
    SendKeeps(d.m);
  }

  /** What an event that is not a write does to memory. */
  lemma EventMemory(m: Cpu, e: CpuMemory.Event)
    requires CpuOk(m) && Possible(m, e) && !e.Put? && !Waits(e)
    ensures Inv(m.s) && (e.Ask? ==> KernelAsks(e.r) && Enabled(m.s, e.r))
    ensures Step(m, e).0.s == if e.Ask? then Serve(m.s, e.r).0 else m.s
  {
    InvOf(m);
    hide CpuOk, Serve, T.Lookup, Enabled, InProcess, T.Flushed;
  }

  lemma MoveKeeps(d: Bus, a: Move)
    requires BusOk(d) && Can(d, a)
    ensures CpuOk(d.m) && BusOk(Next(d, a)) && Next(d, a).m.s.c == d.m.s.c
  {
    hide Safe, CpuOk, Possible, Step, Serve, SentOk, Locate, Inv, Enabled;
    OkOf(d);
    match a
    case Arrive =>
      assert SentOk(d.m.s, d.sent[0]);
      ArriveKeeps(d.m, d.sent[0].at, d.sent[0].v);
      SameSent(d.m.s, Next(d, a).m.s, d.sent[1..]);
    case Act(e) =>
      if e.Put? {
        PutKeeps(d, e.v);
      } else {
        var m' := Follow(d.m, e);
        if !Waits(e) {
          EventMemory(d.m, e);
          if e.Ask? {
            AskSent(d.m.s, d.sent, e.r);
          }
        }
      }
  }

  // ---------------------------------------------------------------- serving at once

  predicate OnTime(sent: seq<Sent>) {
    forall i | 0 <= i < |sent| :: !sent[i].overtaken
  }

  /** Memory once everything sent has been served. */
  ghost function Settled(s: State, sent: seq<Sent>): (s': State)
    requires Inv(s) && AllSent(s, sent) && OnTime(sent)
    ensures Inv(s') && s'.c == s.c && s'.swap == s.swap && s'.suspended == s.suspended && SameOwners(s, s')
    ensures forall id :: FindSlot(s'.slots, id, 0) == FindSlot(s.slots, id, 0)
    decreases |sent|
  {
    hide Inv, OwnerAt, Enabled, Serve, FindSlot;
    if sent == [] then s
    else
      SettleFirst(s, sent);
      Settled(Served(s, Write(sent[0].at, sent[0].v)), sent[1..])
  }

  lemma SettleFirst(s: State, sent: seq<Sent>)
    requires Inv(s) && AllSent(s, sent) && OnTime(sent) && sent != []
    ensures Enabled(s, Write(sent[0].at, sent[0].v))
    ensures var s1 := Served(s, Write(sent[0].at, sent[0].v));
            && AllSent(s1, sent[1..]) && OnTime(sent[1..]) && SameOwners(s, s1)
            && s1.swap == s.swap && s1.suspended == s.suspended
            && forall id :: FindSlot(s1.slots, id, 0) == FindSlot(s.slots, id, 0)
  {
    hide Inv, OwnerAt, ServeWrite, FindSlot, SameOwners;
    assert SentOk(s, sent[0]);
    var w := sent[0];
    AccessOwners(s, w.at, w.v);
    WrittenSlot(s, w.at, w.v);
    SameSent(s, Served(s, Write(w.at, w.v)), sent[1..]);
  }

  lemma {:induction false} SettledAppend(s: State, sent: seq<Sent>, w: Sent)
    requires Inv(s) && AllSent(s, sent) && OnTime(sent) && SentOk(s, w) && !w.overtaken
    ensures AllSent(s, sent + [w]) && OnTime(sent + [w]) && Enabled(Settled(s, sent), Write(w.at, w.v))
    ensures Settled(s, sent + [w]) == Served(Settled(s, sent), Write(w.at, w.v))
    decreases |sent|
  {
    hide Inv, OwnerAt, Serve, FindSlot;
    var all := sent + [w];
    if sent == [] {
      assert all == [w] && all[1..] == [];
    } else {
      SettleFirst(s, sent);
      var s1 := Served(s, Write(sent[0].at, sent[0].v));
      SettledAppend(s1, sent[1..], w);
      assert all[0] == sent[0] && all[1..] == sent[1..] + [w];
    }
  }

  /** Kernel requests about others find the same memory before and after. */
  lemma {:induction false} SettledAsk(s: State, sent: seq<Sent>, r: Request)
    requires Inv(s) && AllSent(s, sent) && OnTime(sent) && KernelAsks(r) && Enabled(s, r)
    requires OnTime(Overtake(sent, r))
    ensures Overtake(sent, r) == sent && Enabled(Settled(s, sent), r)
    ensures AllSent(Served(s, r), sent) && Settled(Served(s, r), sent) == Served(Settled(s, sent), r)
    decreases |sent|
  {
    hide Inv, OwnerAt, Serve, FindSlot;
    assert Overtake(sent, r) == sent;
    AskSent(s, sent, r);
    if sent != [] {
      var w := sent[0];
      assert SentOk(s, w) && !Overtake(sent, r)[0].overtaken;
      SettleFirst(s, sent);
      SettleFirst(Served(s, r), sent);
      WriteCommutes(s, w.at, w.v, r);
      assert Overtake(sent[1..], r) == Overtake(sent, r)[1..];
      SettledAsk(Served(s, Write(w.at, w.v)), sent[1..], r);
    }
  }

  /** The machine in which every write has been served. */
  ghost function AtOnce(d: Bus): (m: Cpu)
    requires BusOk(d) && OnTime(d.sent)
    ensures Safe(m)
  {
    OkOf(d);
    hide CpuOk, Inv, SameOwners, FindSlot, Safe, AllSent;
    OwnersKept(d.m, Settled(d.m.s, d.sent));
    d.m.(s := Settled(d.m.s, d.sent))
  }

  /** Nothing sent: nothing to serve. */
  lemma NothingSent(d: Bus)
    requires BusOk(d) && d.sent == []
    ensures AtOnce(d) == d.m
  {
  }

  lemma ArriveRefines(d: Bus)
    requires BusOk(d) && OnTime(d.sent) && Can(d, Arrive)
    ensures CpuOk(d.m) && BusOk(Next(d, Arrive)) && OnTime(Next(d, Arrive).sent)
    ensures AtOnce(Next(d, Arrive)) == AtOnce(d)
  {
    hide Safe, CpuOk, Inv, Serve, SameOwners, FindSlot, Enabled;
    OkOf(d);
    MoveKeeps(d, Arrive);
  }

  lemma PutRefines(d: Bus, v: seq<Byte>)
    requires BusOk(d) && OnTime(d.sent) && Can(d, Act(Put(v)))
    ensures CpuOk(d.m) && BusOk(Next(d, Act(Put(v)))) && OnTime(Next(d, Act(Put(v))).sent)
    ensures CpuOk(AtOnce(d)) && Possible(AtOnce(d), Put(v))
    ensures Step(AtOnce(d), Put(v)).0 == AtOnce(Next(d, Act(Put(v))))
  {
    hide Safe, CpuOk, Inv, ServeWrite, SameOwners, FindSlot, Enabled, Locate, OwnerAt;
    OkOf(d);
    SafeOk(AtOnce(d));
    PutKeeps(d, v);
    LocatedReady(d.m);
    LocatedReady(AtOnce(d));
    SettledAppend(d.m.s, d.sent, Next(d, Act(Put(v))).sent[|d.sent|]);
    hide AllSent, SentOk;
  }

  lemma AskRefines(d: Bus, r: Request)
    requires CpuOk(d.m) && BusOk(d) && OnTime(d.sent) && Can(d, Act(Ask(r))) && OnTime(Next(d, Act(Ask(r))).sent)
    ensures BusOk(Next(d, Act(Ask(r))))
    ensures CpuOk(AtOnce(d)) && Possible(AtOnce(d), Ask(r))
    ensures Step(AtOnce(d), Ask(r)).0 == AtOnce(Next(d, Act(Ask(r))))
  {
    hide Safe, CpuOk, Inv, SameOwners, FindSlot, OwnerAt, ServeCreate, ServeSuspend, ServeFinish, Enabled;
    OkOf(d);
    SafeOk(AtOnce(d));
    MoveKeeps(d, Act(Ask(r)));
    SettledAsk(d.m.s, d.sent, r);
    hide AllSent;
  }

  /** Looking into the TLB and dispatching do not ask memory. */
  lemma QuietRefines(d: Bus, e: CpuMemory.Event)
    requires BusOk(d) && OnTime(d.sent) && Can(d, Act(e)) && (e.Begin? || e.Dispatch?)
    ensures CpuOk(d.m) && BusOk(Next(d, Act(e)))
    ensures CpuOk(AtOnce(d)) && Possible(AtOnce(d), e) && Step(AtOnce(d), e).0 == AtOnce(Next(d, Act(e)))
  {
    hide Safe, CpuOk, Inv, SameOwners, FindSlot, OwnerAt, AllSent, T.Lookup;
    OkOf(d);
    SafeOk(AtOnce(d));
    MoveKeeps(d, Act(e));
  }

  /** Writes that nothing overtakes cannot be told from writes served when they are sent. */
  lemma MoveRefines(d: Bus, a: Move)
    requires BusOk(d) && OnTime(d.sent) && Can(d, a)
    ensures CpuOk(d.m) && BusOk(Next(d, a))
    ensures OnTime(Next(d, a).sent) ==>
              if a.Arrive? then AtOnce(Next(d, a)) == AtOnce(d)
              else CpuOk(AtOnce(d)) && Possible(AtOnce(d), a.e) && Step(AtOnce(d), a.e).0 == AtOnce(Next(d, a))
  {
    hide Safe, CpuOk, Inv, AllSent, Step, Possible, AtOnce, Serve, Enabled;
    OkOf(d);
    MoveKeeps(d, a);
    match a
    case Arrive => ArriveRefines(d);
    case Act(e) =>
      if e.Put? {
        PutRefines(d, e.v);
      } else if e.Ask? {
        if OnTime(Next(d, a).sent) {
          AskRefines(d, e.r);
        }
      } else if Waits(e) {
        NothingSent(d);
        NothingSent(Next(d, a));
      } else {
        QuietRefines(d, e);
      }
  }

  // ---------------------------------------------------------------- whole runs

  ghost function Moved(d: Bus, a: Move): (d': Bus)
    requires BusOk(d) && Can(d, a)
    ensures CpuOk(d.m) && BusOk(d') && d' == Next(d, a)
  {
    MoveKeeps(d, a);
    hide *;
    Next(d, a)
  }

  /** Every move can be made when it comes. */
  ghost predicate Flows(d: Bus, moves: seq<Move>)
    requires BusOk(d)
    decreases |moves|
  {
    hide Safe, AllSent, Next;
    moves == [] || (Can(d, moves[0]) && Flows(Moved(d, moves[0]), moves[1..]))
  }

  ghost function Arrived(d: Bus, moves: seq<Move>): (d': Bus)
    requires BusOk(d) && Flows(d, moves)
    ensures BusOk(d')
    decreases |moves|
  {
    hide Safe, AllSent, Next, Can;
    if moves == [] then d else Arrived(Moved(d, moves[0]), moves[1..])
  }

  /** No request of the kernel overtakes a write of the process it suspends or ends. */
  ghost predicate NoneOvertaken(d: Bus, moves: seq<Move>)
    requires BusOk(d) && Flows(d, moves)
    decreases |moves|
  {
    hide Safe, AllSent, Next, Can;
    OnTime(d.sent) && (moves == [] || NoneOvertaken(Moved(d, moves[0]), moves[1..]))
  }

  /** What CPU and memory do, a write counting from when it is sent. */
  function Events(moves: seq<Move>): seq<CpuMemory.Event> {
    if moves == [] then []
    else (match moves[0] case Act(e) => [e] case Arrive => []) + Events(moves[1..])
  }

  ghost function Powered(c: Config, entries: nat, policy: T.Policy): (d: Bus)
    requires ConfigOk(c) && entries > 0 && Harmless(c, entries)
    ensures BusOk(d) && d == Bus(Start(c, entries, policy), [])
  {
    hide Trusted;
    Bus(Start(c, entries, policy), [])
  }

  /** In every reachable state, the next write to be served finds its owner's byte if and only
      if no suspension and no end of that process has been served since it was sent; otherwise
      it falls into a frame that is nobody's, where no process can read it. */
  lemma WriteLandsIff(c: Config, entries: nat, policy: T.Policy, moves: seq<Move>)
    requires ConfigOk(c) && entries > 0 && Harmless(c, entries) && Flows(Powered(c, entries, policy), moves)
    ensures var d := Arrived(Powered(c, entries, policy), moves);
            d.sent != [] ==>
              && (Can(d, Arrive) <==> !d.sent[0].overtaken)
              && OwnerAt(d.m.s, d.sent[0].at) == if d.sent[0].overtaken then Nobody else d.sent[0].owner
  {
    hide Safe, Flows, Arrived, Powered, OwnerAt;
    var d := Arrived(Powered(c, entries, policy), moves);
    if d.sent != [] {
      assert SentOk(d.m.s, d.sent[0]);
    }
  }

  /** Runs in which nothing is overtaken are runs with every write served when it is sent. */
  lemma {:induction false} RunRefines(d: Bus, moves: seq<Move>)
    requires BusOk(d) && Flows(d, moves) && NoneOvertaken(d, moves)
    ensures Happens(AtOnce(d), Events(moves)) && OnTime(Arrived(d, moves).sent)
    ensures Reached(AtOnce(d), Events(moves)) == AtOnce(Arrived(d, moves))
    decreases |moves|
  {
    hide Safe, AllSent, Next, Can, CpuOk, Step, Possible, AtOnce, OnTime;
    if moves != [] {
      var a, rest := moves[0], moves[1..];
      var d' := Moved(d, a);
      RunRefines(d', rest);
      MoveRefines(d, a);
      if a.Act? {
        assert Events(moves)[0] == a.e && Events(moves)[1..] == Events(rest);
        assert Follow(AtOnce(d), a.e) == AtOnce(d');
      } else {
        assert Events(moves) == Events(rest);
      }
    }
  }

  /** So a program fetches what the flat array of its process holds, every write counting from
      when it was sent, unless the kernel suspends or ends a process with a write on its way. */
  lemma DelaysAreInvisible(c: Config, entries: nat, policy: T.Policy, moves: seq<Move>)
    requires ConfigOk(c) && entries > 0 && Harmless(c, entries)
    requires Flows(Powered(c, entries, policy), moves) && NoneOvertaken(Powered(c, entries, policy), moves)
    requires Can(Arrived(Powered(c, entries, policy), moves), Act(Fetch))
    ensures var m0 := Start(c, entries, policy);
            var m := Arrived(Powered(c, entries, policy), moves).m;
            && Safe(m0) && Happens(m0, Events(moves)) && Goes(m0, Events(moves)) && CpuOk(m)
            && var reply := Step(m, Fetch).1;
               && reply.Value?
               && Agrees(FlatAfter(m0, map[], Events(moves)), m.id, PageNo(c, m.at.l.e1, m.at.l.e2), m.at.l.off,
                         reply.v)
  {
    hide Safe, Flows, Arrived, Powered, NoneOvertaken, Happens, Reached, Goes, CpuOk, Step, Agrees, FlatAfter, AtOnce;
    hide AllSent, Possible, Start, AllRight;
    var d0 := Powered(c, entries, policy);
    var d := Arrived(d0, moves);
    RunRefines(d0, moves);
    NothingSent(d0);
    NothingSent(d);
    SafeOk(d.m);
    assert Reached(d0.m, Events(moves)) == d.m;
    TlbIsTransparent(c, entries, policy, Events(moves));
  }
}
