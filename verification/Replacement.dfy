/** Victim selection of the page replacement algorithms (memoria/src/algoritmos.c).

    Both algorithms work on a scratch table with one row per frame of the
    process, rotated so that the row of the clock pointer comes first.  Here the
    table is a sequence (for the specification) or an array (for the algorithms
    themselves); loading it from and storing it to the page tables is part of
    module Paging.
 */
module Replacement {

  /** `t_entrada_nivel_2_algoritmo`: local page number and the two bits. */
  datatype Row = Row(page: nat, used: bool, modified: bool)

  datatype Algorithm = Clock | ClockM

  /** What a selection leaves behind: the index of the victim and the table with
      the use bits the sweep has cleared. */
  datatype Choice = Choice(victim: nat, rows: seq<Row>)

  // ---------------------------------------------------------------- specification

  /** First index from `from` on whose row has exactly these two bits, or |rows|. */
  function FirstOf(rows: seq<Row>, used: bool, modified: bool, from: nat): (k: nat)
    requires from <= |rows|
    ensures from <= k <= |rows|
    ensures forall i | from <= i < k :: !(rows[i].used == used && rows[i].modified == modified)
    ensures k < |rows| ==> rows[k].used == used && rows[k].modified == modified
    decreases |rows| - from
  {
    if from == |rows| || (rows[from].used == used && rows[from].modified == modified) then from
    else FirstOf(rows, used, modified, from + 1)
  }

  /** First index from `from` on with a clear use bit, or |rows|. */
  function FirstClear(rows: seq<Row>, from: nat): (k: nat)
    requires from <= |rows|
    ensures from <= k <= |rows|
    ensures forall i | from <= i < k :: rows[i].used
    ensures k < |rows| ==> !rows[k].used
    decreases |rows| - from
  {
    if from == |rows| || !rows[from].used then from else FirstClear(rows, from + 1)
  }

  /** The table after the use bits of its first n rows have been cleared. */
  function ClearedUpTo(rows: seq<Row>, n: nat): (r: seq<Row>)
    requires n <= |rows|
    ensures |r| == |rows|
    ensures forall i | 0 <= i < |rows| :: r[i] == if i < n then rows[i].(used := false) else rows[i]
  {
    seq(|rows|, i requires 0 <= i < |rows| => if i < n then rows[i].(used := false) else rows[i])
  }

  /** Clock: the first row with a clear use bit; every bit passed over is cleared.
      When all bits are set a whole sweep clears them and row 0 is taken. */
  function ClockChoice(rows: seq<Row>): (c: Choice)
    requires |rows| > 0
    ensures c.victim < |rows| && |c.rows| == |rows|
    ensures c.rows == ClearedUpTo(rows, if FirstClear(rows, 0) < |rows| then c.victim else |rows|)
  {
    var k := FirstClear(rows, 0);
    if k < |rows| then Choice(k, ClearedUpTo(rows, k)) else Choice(0, ClearedUpTo(rows, |rows|))
  }

  /** Rank of a row for the enhanced clock: (use, modified) read as a binary number. */
  function Class(row: Row): nat {
    (if row.used then 2 else 0) + (if row.modified then 1 else 0)
  }

  /** k is the first row of the least class present. */
  ghost predicate FirstOfLeastClass(rows: seq<Row>, k: nat) {
    && k < |rows|
    && (forall i | 0 <= i < |rows| :: Class(rows[k]) <= Class(rows[i]))
    && (forall i | 0 <= i < k :: Class(rows[k]) < Class(rows[i]))
  }

  /** Enhanced clock: at most four sweeps, for (0,0), (0,1), (0,0) again and (0,1)
      again; the second one clears the use bits it passes over. */
  function ClockMChoice(rows: seq<Row>): (c: Choice)
    requires |rows| > 0
    ensures c.victim < |rows| && |c.rows| == |rows|
  {
    var k0 := FirstOf(rows, false, false, 0);
    if k0 < |rows| then Choice(k0, rows)
    else
      var k1 := FirstOf(rows, false, true, 0);
      if k1 < |rows| then Choice(k1, ClearedUpTo(rows, k1))
      else
        var cleared := ClearedUpTo(rows, |rows|);
        var k2 := FirstOf(cleared, false, false, 0);
        if k2 < |rows| then Choice(k2, cleared) else Choice(0, cleared)
  }

  function Choose(alg: Algorithm, rows: seq<Row>): (c: Choice)
    requires |rows| > 0
    ensures c.victim < |rows| && |c.rows| == |rows|
  {
    match alg
    case Clock => ClockChoice(rows)
    case ClockM => ClockMChoice(rows)
  }

  /** The enhanced clock takes the first row, in cyclic order from the pointer, of
      the least (use, modified) class at entry. */
  lemma ClockMTakesLeastClass(rows: seq<Row>, k: nat)
    requires |rows| > 0
    ensures ClockMChoice(rows).victim == k <==> FirstOfLeastClass(rows, k)
  {
    var v := ClockMChoice(rows).victim;
    assert FirstOfLeastClass(rows, v);
  }

  /** The use bits it clears are those the second sweep passes over: none when a row was
      neither used nor modified, those before the victim when it was modified only, all
      of them otherwise. */
  lemma ClockMClears(rows: seq<Row>)
    requires |rows| > 0
    ensures var c := ClockMChoice(rows);
            c.rows == ClearedUpTo(rows, if Class(rows[c.victim]) == 0 then 0
                                        else if Class(rows[c.victim]) == 1 then c.victim
                                        else |rows|)
  {
    assert ClearedUpTo(rows, 0) == rows;
  }

  /** A selection changes nothing in the table but use bits, and only clears them. */
  lemma ChoiceOnlyClearsUse(alg: Algorithm, rows: seq<Row>, i: nat)
    requires i < |rows|
    ensures var r := Choose(alg, rows).rows[i];
            r.page == rows[i].page && r.modified == rows[i].modified && (r.used ==> rows[i].used)
  {
  }

  // ---------------------------------------------------------------- the loops

  lemma RotateOneMore(s: seq<Row>, i: nat)
    requires i < |s|
    ensures var r := s[i..] + s[..i];
            r[1..] + [r[0]] == s[i + 1..] + s[..i + 1]
  {
    assert s[i..] == [s[i]] + s[i + 1..];
    assert s[..i + 1] == s[..i] + [s[i]];
  }

  /** `__cargar_tabla`, lines 29-35: rotate the table left `times` times, one
      position at a time. */
  method RotateLeft(table: array<Row>, times: nat)
    requires times < table.Length
    modifies table
    ensures table[..] == old(table[times..]) + old(table[..times])
  {
    var n := table.Length;
    ghost var was := table[..];
    var i := 0;
    while i < times
      invariant i <= times
      invariant table[..] == was[i..] + was[..i]
    {
      var temp := table[0];
      ghost var before := table[..];
      var j := 0;
      while j < n - 1
        invariant 0 <= j <= n - 1
        invariant forall k | 0 <= k < j :: table[k] == before[k + 1]
        invariant forall k | j <= k < n :: table[k] == before[k]
      {
        table[j] := table[j + 1];
        j := j + 1;
      }
      table[n - 1] := temp;
      assert table[..] == before[1..] + [before[0]];
      RotateOneMore(was, i);
      i := i + 1;
    }
  }

  /** `seleccionar_victima_clock`, lines 53-68: at most two sweeps over the table.
      The result -1 of the source is never produced. */
  method ClockSweep(table: array<Row>) returns (victim: int)
    requires table.Length > 0
    modifies table
    ensures victim >= 0
    ensures Choice(victim, table[..]) == ClockChoice(old(table[..]))
  {
    var n := table.Length;
    ghost var was := table[..];
    var j := 0;
    while j < 2
      invariant j <= 2
      invariant j == 0 ==> table[..] == was
      invariant j >= 1 ==> FirstClear(was, 0) == n && table[..] == ClearedUpTo(was, n)
      invariant j < 2
    {
      var i := 0;
      while i < n
        invariant i <= n
        invariant j == 0 ==> table[..] == ClearedUpTo(was, i) && forall k | 0 <= k < i :: was[k].used
        invariant j == 1 ==> i == 0 && table[..] == ClearedUpTo(was, n)
      {
        if table[i].used {
          table[i] := table[i].(used := false);
        } else {
          assert table[..] == ClockChoice(was).rows;
          return i;
        }
        i := i + 1;
      }
      j := j + 1;
    }
    return -1;
  }

  /** `seleccionar_victima_clock_modificado`, lines 77-105: two rounds of two sweeps.
      The result -1 of the source is never produced. */
  method ClockMSweep(table: array<Row>) returns (victim: int)
    requires table.Length > 0
    modifies table
    ensures victim >= 0
    ensures Choice(victim, table[..]) == ClockMChoice(old(table[..]))
  {
    var n := table.Length;
    ghost var was := table[..];
    var j := 0;
    while j < 2
      invariant j < 2
      invariant j == 0 ==> table[..] == was
      invariant j == 1 ==> table[..] == ClearedUpTo(was, n)
      invariant j == 1 ==> FirstOf(was, false, false, 0) == n && FirstOf(was, false, true, 0) == n
    {
      var i := 0;
      ghost var before := table[..];
      while i < n
        invariant i <= n
        invariant table[..] == before
        invariant forall k | 0 <= k < i :: before[k].used || before[k].modified
      {
        if !table[i].used && !table[i].modified {
          return i;
        }
        i := i + 1;
      }
      i := 0;
      while i < n
        invariant i <= n
        invariant table[..] == ClearedUpTo(before, i)
        invariant forall k | 0 <= k < i :: before[k].used
      {
        if !table[i].used && table[i].modified {
          return i;
        } else if table[i].used {
          table[i] := table[i].(used := false);
        }
        i := i + 1;
      }
      assert ClearedUpTo(before, n) == ClearedUpTo(was, n);
      j := j + 1;
    }
    return -1;
  }
}
