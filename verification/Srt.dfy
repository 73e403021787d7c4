/** Shortest remaining time: choice of the next process and update of its estimate
    (kernel/src/scheduler.c, lines 77-132 and 267-269).  Doubles are reals.
 */
module Srt {

  /** The PCB fields the algorithm reads: `estimacionActual`, `realAnterior` and
      `realesEjecutadosHastaAhora`. */
  datatype Burst = Burst(pid: nat, estimate: real, previous: real, executed: real)

  // ---------------------------------------------------------------- choice

  /** `calcular_estimacion_restante`. */
  function Remaining(b: Burst): real {
    b.estimate - b.executed
  }

  /** `__menor_rafaga_restante`. */
  function Shorter(a: Burst, b: Burst): Burst {
    if Remaining(a) <= Remaining(b) then a else b
  }

  /** `list_get_minimum` over the first n of the list. */
  function Minimum(q: seq<Burst>, n: nat): Burst
    requires 0 < n <= |q|
  {
    if n == 1 then q[0] else Shorter(Minimum(q, n - 1), q[n - 1])
  }

  /** First position of the process, from i on; `list_get_index` by pid. */
  function PositionOf(q: seq<Burst>, pid: nat, i: nat): (k: nat)
    requires i <= |q|
    ensures i <= k <= |q| && (forall x | i <= x < k :: q[x].pid != pid) && (k < |q| ==> q[k].pid == pid)
    decreases |q| - i
  {
    if i == |q| || q[i].pid == pid then i else PositionOf(q, pid, i + 1)
  }

  /** k is the earliest queued of the least remaining estimate. */
  predicate FirstLeast(q: seq<Burst>, k: nat) {
    && k < |q|
    && (forall i | 0 <= i < |q| :: q[k].estimate - q[k].executed <= q[i].estimate - q[i].executed)
    && (forall i | 0 <= i < k :: q[k].estimate - q[k].executed < q[i].estimate - q[i].executed)
  }

  lemma {:induction false} MinimumIsFirstLeast(q: seq<Burst>, n: nat) returns (k: nat)
    requires 0 < n <= |q|
    ensures k < n && Minimum(q, n) == q[k] && FirstLeast(q[..n], k)
  {
    if n == 1 {
      k := 0;
    } else {
      k := MinimumIsFirstLeast(q, n - 1);
      assert forall i | 0 <= i < n - 1 :: q[..n - 1][i] == q[..n][i];
      if Remaining(q[n - 1]) < Remaining(q[k]) {
        k := n - 1;
      }
    }
  }

  predicate DistinctPids(q: seq<Burst>) {
    forall i, j | 0 <= i < j < |q| :: q[i].pid != q[j].pid
  }

  datatype Choice = Nobody | Chosen(b: Burst, rest: seq<Burst>)

  /** `elegir_pcb_segun_srt` on the list of READY: NULL when it is empty, its only
      process, or the minimum, which is looked for and removed by pid. */
  function Choose(q: seq<Burst>): Choice {
    if |q| == 0 then Nobody
    else if |q| == 1 then Chosen(q[0], q[1..])
    else
      var b := Minimum(q, |q|);
      var k := PositionOf(q, b.pid, 0);
      Chosen(b, if k < |q| then q[..k] + q[k + 1..] else q)
  }

  /** The choice is the earliest queued process of least remaining estimate, taken out of
      the list with the order of the others kept. */
  lemma ChooseTakesFirstLeast(q: seq<Burst>, k: nat)
    requires |q| > 0 && DistinctPids(q)
    ensures k < |q| && Choose(q) == Chosen(q[k], q[..k] + q[k + 1..]) <==>
            && k < |q|
            && (forall i | 0 <= i < |q| :: q[k].estimate - q[k].executed <= q[i].estimate - q[i].executed)
            && (forall i | 0 <= i < k :: q[k].estimate - q[k].executed < q[i].estimate - q[i].executed)
  {
    var m := MinimumIsFirstLeast(q, |q|);
    assert q[..|q|] == q;
    assert PositionOf(q, q[m].pid, 0) == m;
    assert Choose(q) == Chosen(q[m], q[..m] + q[m + 1..]) by {
      if |q| == 1 {
        assert q[..0] + q[1..] == q[1..];
      }
    }
    if k < |q| && Choose(q) == Chosen(q[k], q[..k] + q[k + 1..]) {
      assert q[k].pid == q[m].pid;
    }
  }

  /** `list_get_minimum` as the loop it is. */
  method FindMinimum(q: seq<Burst>) returns (b: Burst)
    requires |q| > 0
    ensures b == Minimum(q, |q|)
  {
    b := q[0];
    var i := 1;
    while i < |q|
      invariant 1 <= i <= |q| && b == Minimum(q, i)
    {
      b := Shorter(b, q[i]);
      i := i + 1;
    }
  }

  // ---------------------------------------------------------------- estimates

  /** `actualizar_pcb_por_desalojo`. */
  function Preempted(b: Burst, ran: real): Burst {
    b.(executed := b.executed + ran)
  }

  /** `__media_exponencial`. */
  function Smooth(alfa: real, last: real, estimate: real): real {
    alfa * last + (1.0 - alfa) * estimate
  }

  /** `actualizar_pcb_por_bloqueo_segun_srt`. */
  function Blocked(b: Burst, ran: real, alfa: real): Burst {
    var total := b.executed + ran;
    b.(previous := total, executed := 0.0, estimate := Smooth(alfa, total, b.estimate))
  }

  /** What happens to a process on the CPU: it runs for a while and is preempted, or runs
      and blocks. */
  datatype Piece = Cut(ran: real) | End(ran: real)

  function Apply(b: Burst, p: Piece, alfa: real): Burst {
    match p
    case Cut(ran) => Preempted(b, ran)
    case End(ran) => Blocked(b, ran, alfa)
  }

  function ApplyAll(b: Burst, ps: seq<Piece>, alfa: real): Burst {
    if ps == [] then b else Apply(ApplyAll(b, ps[..|ps| - 1], alfa), ps[|ps| - 1], alfa)
  }

  /** The running time since the last block, and the finished bursts, of a run. */
  function Open(ps: seq<Piece>): real {
    if ps == [] then 0.0
    else
      var p := ps[|ps| - 1];
      if p.Cut? then Open(ps[..|ps| - 1]) + p.ran else 0.0
  }

  function Bursts(ps: seq<Piece>): seq<real> {
    if ps == [] then []
    else
      var before, p := ps[..|ps| - 1], ps[|ps| - 1];
      if p.Cut? then Bursts(before) else Bursts(before) + [Open(before) + p.ran]
  }

  function Power(x: real, n: nat): real {
    if n == 0 then 1.0 else x * Power(x, n - 1)
  }

  /** The weighted sum of the bursts: the last weighs alfa, each earlier one 1 - alfa
      times the next. */
  function Weighted(alfa: real, bursts: seq<real>): real {
    if bursts == [] then 0.0
    else alfa * bursts[0] * Power(1.0 - alfa, |bursts| - 1) + Weighted(alfa, bursts[1..])
  }

  lemma {:induction false} WeightedNext(alfa: real, bursts: seq<real>, r: real)
    ensures Weighted(alfa, bursts + [r]) == (1.0 - alfa) * Weighted(alfa, bursts) + alfa * r
  {
    if bursts == [] {
      assert ([r])[1..] == [];
    } else {
      var n := |bursts|;
      assert (bursts + [r])[1..] == bursts[1..] + [r];
      WeightedNext(alfa, bursts[1..], r);
      Scale(alfa * bursts[0], Power(1.0 - alfa, n - 1), 1.0 - alfa);
    }
  }

  lemma Scale(a: real, p: real, x: real)
    ensures a * (x * p) == x * (a * p)
  {
  }

  /** The closed form: the initial estimate and the bursts, exponentially weighted. */
  function ExponentialSum(alfa: real, initial: real, bursts: seq<real>): real {
    Power(1.0 - alfa, |bursts|) * initial + Weighted(alfa, bursts)
  }

  lemma ExponentialNext(alfa: real, initial: real, bursts: seq<real>, r: real)
    ensures ExponentialSum(alfa, initial, bursts + [r]) == Smooth(alfa, r, ExponentialSum(alfa, initial, bursts))
  {
    var x := 1.0 - alfa;
    WeightedNext(alfa, bursts, r);
    PowerNext(x, |bursts|);
    SmoothIs(alfa, r, ExponentialSum(alfa, initial, bursts), x);
    hide Weighted, Power, Smooth;
    Combine(x, Power(x, |bursts|), initial, Weighted(alfa, bursts), alfa * r);
  }

  lemma SmoothIs(alfa: real, r: real, e: real, x: real)
    requires x == 1.0 - alfa
    ensures Smooth(alfa, r, e) == alfa * r + x * e
  {
  }

  lemma PowerNext(x: real, n: nat)
    ensures Power(x, n + 1) == x * Power(x, n)
  {
  }

  lemma Combine(x: real, p: real, a: real, w: real, last: real)
    ensures (x * p) * a + (x * w + last) == last + x * (p * a + w)
  {
  }

  /** Over a whole run, however its bursts were cut by preemptions, the estimate is the
      exponential sum of the initial one and the finished bursts. */
  lemma {:induction false} EstimateIsExponentialSum(b: Burst, ps: seq<Piece>, alfa: real)
    requires b.executed == 0.0
    ensures ApplyAll(b, ps, alfa).executed == Open(ps)
    ensures ApplyAll(b, ps, alfa).estimate == ExponentialSum(alfa, b.estimate, Bursts(ps))
  {
    if ps == [] {
      assert Power(1.0 - alfa, 0) == 1.0 && Weighted(alfa, []) == 0.0;
    } else {
      hide Smooth, ExponentialSum;
      var before, p := ps[..|ps| - 1], ps[|ps| - 1];
      EstimateIsExponentialSum(b, before, alfa);
      if p.End? {
        ExponentialNext(alfa, b.estimate, Bursts(before), Open(before) + p.ran);
      }
    }
  }

  /** `realAnterior` is the last finished burst. */
  lemma {:induction false} PreviousIsLastBurst(b: Burst, ps: seq<Piece>, alfa: real)
    requires b.executed == 0.0
    ensures ApplyAll(b, ps, alfa).previous
            == if Bursts(ps) == [] then b.previous else Bursts(ps)[|Bursts(ps)| - 1]
  {
    if ps != [] {
      hide Smooth, ExponentialSum;
      PreviousIsLastBurst(b, ps[..|ps| - 1], alfa);
      EstimateIsExponentialSum(b, ps[..|ps| - 1], alfa);
    }
  }

  /** Cutting a burst into pieces changes nothing: two runs with the same finished bursts
      end with the same estimate and the same last burst. */
  lemma CutsDoNotMatter(b: Burst, ps: seq<Piece>, ps': seq<Piece>, alfa: real)
    requires b.executed == 0.0 && Bursts(ps) == Bursts(ps')
    ensures ApplyAll(b, ps, alfa).estimate == ApplyAll(b, ps', alfa).estimate
  {
    hide ExponentialSum, Smooth, Bursts;
    EstimateIsExponentialSum(b, ps, alfa);
    EstimateIsExponentialSum(b, ps', alfa);
  }

  /** A mean stays between what it is the mean of. */
  lemma SmoothBetween(alfa: real, r: real, e: real, lo: real, hi: real)
    requires 0.0 <= alfa <= 1.0 && lo <= r <= hi && lo <= e <= hi
    ensures lo <= Smooth(alfa, r, e) <= hi
  {
    MixSame(alfa, 1.0 - alfa, lo);
    MixSame(alfa, 1.0 - alfa, hi);
    MixMonotone(alfa, 1.0 - alfa, lo, lo, r, e);
    MixMonotone(alfa, 1.0 - alfa, r, e, hi, hi);
  }

  lemma MixMonotone(x: real, y: real, a: real, b: real, c: real, d: real)
    requires 0.0 <= x && 0.0 <= y && a <= c && b <= d
    ensures x * a + y * b <= x * c + y * d
  {
    Monotone(x, a, c);
    Monotone(y, b, d);
  }

  lemma MixSame(x: real, y: real, a: real)
    requires x + y == 1.0
    ensures x * a + y * a == a
  {
    assert (x + y) * a == a;
  }

  lemma Monotone(x: real, a: real, b: real)
    requires 0.0 <= x && a <= b
    ensures x * a <= x * b
  {
  }

  /** With alfa between 0 and 1 every estimate lies in the range of the initial estimate
      and the real bursts. */
  lemma {:induction false} EstimateInRange(b: Burst, ps: seq<Piece>, alfa: real, lo: real, hi: real)
    requires 0.0 <= alfa <= 1.0 && b.executed == 0.0 && lo <= b.estimate <= hi
    requires forall r | r in Bursts(ps) :: lo <= r <= hi
    ensures lo <= ApplyAll(b, ps, alfa).estimate <= hi
  {
    hide Smooth, ExponentialSum;
    if ps != [] {
      var before, p := ps[..|ps| - 1], ps[|ps| - 1];
      assert forall r | r in Bursts(before) :: r in Bursts(ps);
      EstimateInRange(b, before, alfa, lo, hi);
      EstimateIsExponentialSum(b, before, alfa);
      if p.End? {
        var r := Open(before) + p.ran;
        assert Bursts(ps)[|Bursts(ps)| - 1] == r && r in Bursts(ps);
        SmoothBetween(alfa, r, ApplyAll(b, before, alfa).estimate, lo, hi);
      }
    }
  }
}
