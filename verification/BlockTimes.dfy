/** The times of a block in the PCB (kernel/src/pcb.c): set when the process blocks, and
    again by whichever comes first, the I/O device taking it or its timer waking up.
 */
module BlockTimes {

  /** `tiempoInicialBloqueado`, `tiempoFinalBloqueado` and whether the latter is set. */
  datatype Times = Times(start: int, end: int, ended: bool)

  /** The process blocks; the device or a timer asks for the final time; the I/O is over. */
  datatype Call = Blocks(at: int) | Settles(at: int) | Over

  function Apply(t: Times, call: Call): Times {
    match call
    case Blocks(at) => t.(start := at)
    case Settles(at) => if t.ended then t else t.(end := at, ended := true)
    case Over => t.(ended := false)
  }

  function ApplyAll(t: Times, calls: seq<Call>): Times {
    if calls == [] then t else Apply(ApplyAll(t, calls[..|calls| - 1]), calls[|calls| - 1])
  }

  /** Call i is the first to settle the final time since the last I/O was over. */
  predicate FirstToSettle(calls: seq<Call>, i: nat) {
    && i < |calls| && calls[i].Settles?
    && (forall j | i < j < |calls| :: !calls[j].Over?)
    && (forall j | 0 <= j < i && calls[j].Settles? :: exists k :: j < k < i && calls[k].Over?)
  }

  /** Whatever devices and timers call, and however often, the final time is that of the
      first of them since the last I/O was over; and it is set exactly when one has called. */
  lemma {:induction false} EndIsFirstToSettle(t: Times, calls: seq<Call>, i: nat)
    requires !t.ended && FirstToSettle(calls, i)
    ensures ApplyAll(t, calls).ended && ApplyAll(t, calls).end == calls[i].at
    decreases |calls|
  {
    var n := |calls| - 1;
    var before := calls[..n];
    if i < n {
      assert FirstToSettle(before, i) by {
        forall j | 0 <= j < i && before[j].Settles? ensures exists k :: j < k < i && before[k].Over? {
          var k :| j < k < i && calls[k].Over?;
          assert before[k].Over?;
        }
      }
      EndIsFirstToSettle(t, before, i);
    } else {
      NotSettled(t, before);
    }
  }

  /** No call to settle it since the last I/O was over: the final time is open. */
  lemma {:induction false} NotSettled(t: Times, calls: seq<Call>)
    requires !t.ended
    requires forall j | 0 <= j < |calls| && calls[j].Settles? :: exists k :: j < k < |calls| && calls[k].Over?
    ensures !ApplyAll(t, calls).ended
    decreases |calls|
  {
    if calls != [] && !calls[|calls| - 1].Over? {
      var n := |calls| - 1;
      var before := calls[..n];
      assert !calls[n].Settles?;
      forall j | 0 <= j < n && before[j].Settles? ensures exists k :: j < k < n && before[k].Over? {
        var k :| j < k < |calls| && calls[k].Over?;
        assert k < n && before[k].Over?;
      }
      NotSettled(t, before);
    }
  }

  /** The times as the object they are. */
  class BlockClock {
    var start: int
    var end: int
    var ended: bool

    function View(): Times
      reads this
    {
      Times(start, end, ended)
    }

    constructor ()
      ensures !View().ended
    {
      start, end, ended := 0, 0, false;
    }

    /** `pcb_marcar_tiempo_inicial_bloqueado`. */
    method Block(now: int)
      modifies this`start
      ensures View() == Apply(old(View()), Blocks(now))
    {
      start := now;
    }

    /** `pcb_test_and_set_tiempo_final_bloqueado`: only the first caller sets it. */
    method TestAndSet(now: int)
      modifies this`end, this`ended
      ensures View() == Apply(old(View()), Settles(now))
      ensures ended && end == if old(ended) then old(end) else now
    {
      if !ended {
        end := now;
        ended := true;
      }
    }

    /** `pcb_marcar_tiempo_final_como_no_establecido`, when the I/O is over. */
    method Clear()
      modifies this`ended
      ensures View() == Apply(old(View()), Over)
    {
      ended := false;
    }
  }
}
