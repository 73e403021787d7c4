/** The numbers that travel between CPU and memory: logical addresses, level-2 table
    numbers, global page numbers and physical addresses.  Each is a bijection with the
    structured form used by VirtualMemory, and the several computations of the source
    agree with each other.
 */
module Addressing {
  import opened Arith
  import opened VirtualMemory

  // ---------------------------------------------------------------- physical side

  /** Frame j of slot i is frame number i*M + j (tabla_nivel_1.c, lines 35-38). */
  function FrameNumber(c: Config, slot: nat, frame: nat): nat {
    slot * c.M + frame
  }

  function AddressOf(c: Config, p: Place): nat {
    FrameNumber(c, p.slot, p.frame) * c.T + p.off
  }

  function Locate(c: Config, address: nat): Place
    requires c.T > 0 && c.M > 0
  {
    Place(address / c.T / c.M, address / c.T % c.M, address % c.T)
  }

  /** Distinct bytes of any slots have distinct physical addresses, and dividing by the
      page size gives back the frame number. */
  lemma LocateInvertsAddress(c: Config, p: Place)
    requires p.slot < c.P && p.frame < c.M && p.off < c.T
    ensures Locate(c, AddressOf(c, p)) == p
    ensures AddressOf(c, p) / c.T == FrameNumber(c, p.slot, p.frame) < c.P * c.M
    ensures AddressOf(c, p) < c.P * c.M * c.T
  {
    PairBelow(p.slot, p.frame, c.P, c.M);
    PairBelow(FrameNumber(c, p.slot, p.frame), p.off, c.P * c.M, c.T);
    DivUnique(AddressOf(c, p), c.T, FrameNumber(c, p.slot, p.frame), p.off);
    DivUnique(FrameNumber(c, p.slot, p.frame), c.M, p.slot, p.frame);
  }

  lemma AddressInvertsLocate(c: Config, address: nat)
    requires c.T > 0 && c.M > 0 && address < c.P * c.M * c.T
    ensures AddressOf(c, Locate(c, address)) == address
    ensures Locate(c, address).slot < c.P && Locate(c, address).frame < c.M && Locate(c, address).off < c.T
  {
    DivBelow(address, c.P * c.M, c.T);
    DivBelow(address / c.T, c.P, c.M);
  }

  // ---------------------------------------------------------------- logical side

  /** The split of `__cpu_obtener_marco`, with the offset as the source computes it. */
  function Split(c: Config, address: nat): Logical
    requires c.T > 0 && c.E > 0
  {
    var page := address / c.T;
    DivMod(address, c.T);
    Logical(page / c.E, page % c.E, address - page * c.T)
  }

  function Join(c: Config, l: Logical): nat {
    PageNo(c, l.e1, l.e2) * c.T + l.off
  }

  /** The split loses nothing: page number and offset are those of the address, and
      entries and offset are in range exactly for the addresses of a process. */
  lemma SplitInverts(c: Config, address: nat)
    requires c.T > 0 && c.E > 0
    ensures var l := Split(c, address);
            && Join(c, l) == address && PageNo(c, l.e1, l.e2) == address / c.T
            && l.off == address % c.T && l.e2 < c.E && l.off < c.T
            && (l.e1 < c.E <==> address < c.E * c.E * c.T)
  {
    var l := Split(c, address);
    DivMod(address, c.T);
    DivMod(address / c.T, c.E);
    if address < c.E * c.E * c.T {
      DivBelow(address, c.E * c.E, c.T);
      DivBelow(address / c.T, c.E, c.E);
    }
    if l.e1 < c.E {
      PairBelow(l.e1, l.e2, c.E, c.E);
      PairBelow(address / c.T, l.off, c.E * c.E, c.T);
    }
  }

  lemma JoinInverts(c: Config, l: Logical)
    requires l.e2 < c.E && l.off < c.T
    ensures Split(c, Join(c, l)) == l
  {
    DivUnique(Join(c, l), c.T, PageNo(c, l.e1, l.e2), l.off);
    DivUnique(PageNo(c, l.e1, l.e2), c.E, l.e1, l.e2);
  }

  // ---------------------------------------------------------------- tables and pages

  /** Table e1 of slot i is level-2 table number i*E + e1 (tabla_nivel_1.c, 31-34). */
  function TableNumber(c: Config, t: TableRef): nat {
    t.slot * c.E + t.row
  }

  function TableOf(c: Config, number: nat): TableRef
    requires c.E > 0
  {
    TableRef(number / c.E, number % c.E)
  }

  /** `obtener_pagina`: the global number of entry e2 of a table. */
  function GlobalPage(c: Config, table: nat, e2: nat): nat {
    table * c.E + e2
  }

  lemma TableInverts(c: Config, t: TableRef)
    requires t.slot < c.P && t.row < c.E
    ensures TableOf(c, TableNumber(c, t)) == t && TableNumber(c, t) < c.P * c.E
  {
    PairBelow(t.slot, t.row, c.P, c.E);
    DivUnique(TableNumber(c, t), c.E, t.slot, t.row);
  }

  /** The numbering of pages is by slot: the pages of slot i start at i*E*E. */
  lemma GlobalPageBySlot(c: Config, t: TableRef, e2: nat)
    ensures GlobalPage(c, TableNumber(c, t), e2) == t.slot * (c.E * c.E) + PageNo(c, t.row, e2)
  {
    Distribute(t.slot, c.E, t.row);
  }

  lemma Distribute(i: nat, n: nat, a: nat)
    ensures (i * n + a) * n == i * (n * n) + a * n
  {
  }

  /** Every way the source takes a global page number apart gives the table, the entry
      and the local number it was made from: `__obtener_tabla2`, `__obtener_entrada`,
      `obtener_indice` and the two divisions of `obtener_tabla_de_nivel_2_pagina`. */
  lemma GlobalPageInverts(c: Config, t: TableRef, e2: nat)
    requires t.slot < c.P && t.row < c.E && e2 < c.E
    ensures c.E * c.E > 0
    ensures var p := GlobalPage(c, TableNumber(c, t), e2);
            && p / c.E == TableNumber(c, t)
            && p / (c.E * c.E) == t.slot
            && p % (c.E * c.E) == PageNo(c, t.row, e2) < c.E * c.E
            && p % (c.E * c.E) % c.E == e2
            && p % (c.E * c.E) / c.E == t.row
            && p < c.P * (c.E * c.E)
  {
    var p := GlobalPage(c, TableNumber(c, t), e2);
    var q := PageNo(c, t.row, e2);
    PairBelow(t.row, e2, c.E, c.E);
    DivUnique(p, c.E, TableNumber(c, t), e2);
    DivUnique(q, c.E, t.row, e2);
    GlobalPageBySlot(c, t, e2);
    var k := c.E * c.E;
    PairBelow(t.slot, q, c.P, k);
    DivUnique(p, k, t.slot, q);
  }
}
