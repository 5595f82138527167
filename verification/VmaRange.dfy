/**
  mm/internal.h: where a range of page offsets is mapped within a vma, in 64-bit arithmetic.
*/
module VmaRange {

  const PAGE: nat := 4096
  const TWO64: nat := 0x1_0000_0000_0000_0000
  const OFFSETS: nat := 0x10_0000_0000_0000 // page offsets are below 2^52
  const EFAULT: nat := TWO64 - 14            // -EFAULT as an unsigned long

  // A vma with page-aligned bounds whose page offsets exist
  datatype Vma = Vma(start: nat, end: nat, pgoff: nat) {
    predicate Ok() {
      start < end < TWO64 && start % PAGE == 0 && end % PAGE == 0 && pgoff + (end - start) / PAGE <= OFFSETS
    }

    function Pages(): nat
      requires Ok()
    {
      (end - start) / PAGE
    }
  }

  function Wrap(x: int): nat {
    x % TWO64
  }

  function PgoffAddress(pgoff: nat, nr: nat, vma: Vma): nat {
    if pgoff >= vma.pgoff then
      var address := Wrap(vma.start + Wrap((pgoff - vma.pgoff) * PAGE));
      if address < vma.start || address >= vma.end then EFAULT else address
    else if Wrap(pgoff + nr - 1) >= vma.pgoff then vma.start
    else EFAULT
  }

  // address is what PgoffAddress returned
  function AddressEnd(pgoff: nat, nr: nat, address: nat, vma: Vma): nat {
    if nr == 1 then Wrap(address + PAGE)
    else
      var end := Wrap(vma.start + Wrap(Wrap(pgoff + nr - vma.pgoff) * PAGE));
      if end < vma.start || end > vma.end then vma.end else end
  }

  // ----- the intersection of offsets pgoff to pgoff + nr with the vma

  predicate RangeOk(pgoff: nat, nr: nat) {
    nr >= 1 && pgoff + nr <= OFFSETS
  }

  predicate Meets(pgoff: nat, nr: nat, vma: Vma)
    requires vma.Ok()
  {
    pgoff < vma.pgoff + vma.Pages() && vma.pgoff < pgoff + nr
  }

  // The address of an offset of the vma, or of its end
  function AddressOf(offset: nat, vma: Vma): nat
    requires vma.Ok() && vma.pgoff <= offset <= vma.pgoff + vma.Pages()
  {
    vma.start + (offset - vma.pgoff) * PAGE
  }

  function Max(a: nat, b: nat): nat { if a < b then b else a }

  function Min(a: nat, b: nat): nat { if a < b then a else b }

  lemma EndAligned(vma: Vma)
    requires vma.Ok()
    ensures vma.end == vma.start + vma.Pages() * PAGE
  {}

  // The start: -EFAULT exactly when nothing of the range is mapped
  lemma AddressExact(pgoff: nat, nr: nat, vma: Vma)
    requires vma.Ok() && RangeOk(pgoff, nr)
    ensures PgoffAddress(pgoff, nr, vma) == EFAULT <==> !Meets(pgoff, nr, vma)
    ensures Meets(pgoff, nr, vma) ==> PgoffAddress(pgoff, nr, vma) == AddressOf(Max(pgoff, vma.pgoff), vma)
  {
    EndAligned(vma);
    assert EFAULT % PAGE != 0 && vma.start % PAGE == 0;
    if pgoff >= vma.pgoff {
      var k := pgoff - vma.pgoff;
      assert Wrap(k * PAGE) == k * PAGE;
    }
  }

  // The end: right except when the end of the range is 2^52 pages after the vma's first offset; then
  // the shift gives zero and the end comes out as the start of the vma.
  predicate EndOverflows(pgoff: nat, nr: nat, vma: Vma) {
    nr > 1 && pgoff + nr == vma.pgoff + OFFSETS
  }

  lemma EndExact(pgoff: nat, nr: nat, vma: Vma)
    requires vma.Ok() && RangeOk(pgoff, nr) && Meets(pgoff, nr, vma)
    ensures AddressEnd(pgoff, nr, PgoffAddress(pgoff, nr, vma), vma)
              == AddressOf(Min(pgoff + nr, vma.pgoff + vma.Pages()), vma)
       <==> !EndOverflows(pgoff, nr, vma)
  {
    EndAligned(vma);
    AddressExact(pgoff, nr, vma);
    hide PgoffAddress;
    var k := pgoff + nr - vma.pgoff;
    assert Wrap(k) == k;
    EndWrap(vma.start, k);
  }

  // Together they are exactly the intersection: an offset of the vma is in the range if and only if
  // its address lies between them.
  lemma RangeExact(pgoff: nat, nr: nat, vma: Vma, offset: nat)
    requires vma.Ok() && RangeOk(pgoff, nr) && !EndOverflows(pgoff, nr, vma)
    requires vma.pgoff <= offset < vma.pgoff + vma.Pages()
    ensures var from := PgoffAddress(pgoff, nr, vma);
            (pgoff <= offset < pgoff + nr
             <==> from != EFAULT && from <= AddressOf(offset, vma) < AddressEnd(pgoff, nr, from, vma))
  {
    AddressExact(pgoff, nr, vma);
    if Meets(pgoff, nr, vma) { EndExact(pgoff, nr, vma); }
    hide PgoffAddress, AddressEnd;
  }

  lemma EndWrap(start: nat, k: nat)
    requires k <= OFFSETS && start < TWO64
    ensures Wrap(start + Wrap(k * PAGE)) ==
            if k == OFFSETS then start else if start + k * PAGE < TWO64 then start + k * PAGE else start + k * PAGE - TWO64
  {}

  lemma EndExample()
    ensures var vma := Vma(0x1000, 0x3000, 0); var pgoff := OFFSETS - 2;
            vma.Ok() && RangeOk(pgoff, 2) && EndOverflows(pgoff, 2, vma)
    ensures var vma := Vma(0x1000, 0x3000, 0);
            RangeOk(0, OFFSETS) && Meets(0, OFFSETS, vma)
            && AddressEnd(0, OFFSETS, PgoffAddress(0, OFFSETS, vma), vma) == vma.start
  {}
}
