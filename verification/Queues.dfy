/** State queues of the kernel (kernel/src/estado.c): lists of processes appended at the
    end and removed at the front, by position or by process id.
 */
module Queues {

  /** First position from i on that holds p, or |q| (`list_get_index`). */
  function IndexOf(q: seq<nat>, p: nat, i: nat): (k: nat)
    requires i <= |q|
    ensures i <= k <= |q| && (forall x | i <= x < k :: q[x] != p) && (k < |q| ==> q[k] == p)
    decreases |q| - i
  {
    if i == |q| || q[i] == p then i else IndexOf(q, p, i + 1)
  }

  function RemoveAt(q: seq<nat>, i: nat): seq<nat>
    requires i < |q|
  {
    q[..i] + q[i + 1..]
  }

  /** `estado_remover_pcb_de_cola`: without the first p; nothing happens if there is none. */
  function Without(q: seq<nat>, p: nat): seq<nat> {
    var i := IndexOf(q, p, 0);
    if i < |q| then RemoveAt(q, i) else q
  }

  predicate NoDup(q: seq<nat>) {
    forall i, j | 0 <= i < j < |q| :: q[i] != q[j]
  }

  lemma RemoveAtIs(q: seq<nat>, i: nat)
    requires i < |q|
    ensures multiset(RemoveAt(q, i)) + multiset{q[i]} == multiset(q)
    ensures |RemoveAt(q, i)| == |q| - 1
    ensures NoDup(q) ==> NoDup(RemoveAt(q, i)) && q[i] !in RemoveAt(q, i)
    ensures forall x | x in RemoveAt(q, i) :: x in q
    ensures forall x | x in q && x != q[i] :: x in RemoveAt(q, i)
  {
    assert q == q[..i] + [q[i]] + q[i + 1..];
    var r := RemoveAt(q, i);
    forall x | x in q && x != q[i] ensures x in r {
      var k :| 0 <= k < |q| && q[k] == x;
      assert r[if k < i then k else k - 1] == x;
    }
  }

  /** Removal by id takes out p and nothing else. */
  lemma WithoutIs(q: seq<nat>, p: nat)
    requires NoDup(q)
    ensures NoDup(Without(q, p)) && p !in Without(q, p)
    ensures forall x :: x in Without(q, p) <==> x in q && x != p
    ensures |Without(q, p)| == if p in q then |q| - 1 else |q|
  {
    var i := IndexOf(q, p, 0);
    if i < |q| {
      RemoveAtIs(q, i);
    }
  }

  lemma WithoutSub(q: seq<nat>, p: nat)
    ensures forall x | x in Without(q, p) :: x in q
  {
  }

  lemma PushedOnce(q: seq<nat>, p: nat)
    requires NoDup(q) && p !in q
    ensures NoDup(q + [p])
  {
  }

  /** How often p is in q. */
  function Times(q: seq<nat>, p: nat): nat {
    multiset(q)[p]
  }

  lemma TimesPushed(q: seq<nat>, x: nat, p: nat)
    ensures Times(q + [x], p) == Times(q, p) + if x == p then 1 else 0
  {
  }

  lemma TimesPopped(q: seq<nat>, p: nat)
    requires q != []
    ensures Times(q[1..], p) == Times(q, p) - if q[0] == p then 1 else 0
  {
    assert q == [q[0]] + q[1..];
  }

  lemma TimesRemoved(q: seq<nat>, i: nat, p: nat)
    requires i < |q|
    ensures Times(RemoveAt(q, i), p) == Times(q, p) - if q[i] == p then 1 else 0
  {
    RemoveAtIs(q, i);
  }

  lemma TimesIn(q: seq<nat>, p: nat)
    ensures p in q <==> Times(q, p) > 0
    ensures q == [] ==> Times(q, p) == 0
  {
    assert p in q <==> p in multiset(q);
  }

  /** `t_estado`: its list, changed in place under its mutex. */
  class Estado {
    var procesos: seq<nat>

    constructor ()
      ensures procesos == []
    {
      procesos := [];
    }

    /** `estado_encolar_pcb_atomic`. */
    method Enqueue(p: nat)
      modifies this
      ensures procesos == old(procesos) + [p]
    {
      procesos := procesos + [p];
    }

    /** `estado_desencolar_primer_pcb_atomic`. */
    method DequeueFirst() returns (p: nat)
      requires procesos != []
      modifies this
      ensures old(procesos) == [p] + procesos
    {
      p := procesos[0];
      procesos := procesos[1..];
    }

    /** `list_get_index` by process id: -1 when there is none. */
    method Index(p: nat) returns (k: int)
      ensures k == if p in procesos then IndexOf(procesos, p, 0) else -1
    {
      var i := 0;
      while i < |procesos|
        invariant i <= |procesos|
        invariant forall x | 0 <= x < i :: procesos[x] != p
      {
        if procesos[i] == p {
          FirstAt(procesos, p, i);
          return i;
        }
        i := i + 1;
      }
      return -1;
    }

    /** `estado_contiene_pcb_atomic`. */
    method Contains(p: nat) returns (b: bool)
      ensures b <==> p in procesos
    {
      var k := Index(p);
      b := k != -1;
    }

    /** `estado_remover_pcb_de_cola_atomic`: false stands for NULL. */
    method Remove(p: nat) returns (found: bool)
      modifies this
      ensures found <==> p in old(procesos)
      ensures procesos == Without(old(procesos), p)
    {
      var k := Index(p);
      found := k != -1;
      if found {
        procesos := procesos[..k] + procesos[k + 1..];
      }
    }
  }

  lemma FirstAt(q: seq<nat>, p: nat, i: nat)
    requires i < |q| && q[i] == p && forall x | 0 <= x < i :: q[x] != p
    ensures IndexOf(q, p, 0) == i
  {
  }
}
