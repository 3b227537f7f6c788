/** The priority bitmap of the ready queues and the search for its lowest bit. */
module Bitmap {
  import opened KernelSpec

  /** PRIMAP_BIT. */
  function Bit(pri: Pri): bv16 {
    1 << pri
  }

  predicate Any(bitmap: bv16, mask: bv16) {
    bitmap & mask != 0
  }

  predicate Has(bitmap: bv16, pri: Pri) {
    Any(bitmap, Bit(pri))
  }

  function Set(bitmap: bv16, pri: Pri): bv16 {
    bitmap | Bit(pri)
  }

  function Clear(bitmap: bv16, pri: Pri): bv16 {
    bitmap & !Bit(pri)
  }

  /** The bits by number. */
  function BitTable(pri: Pri): bv16 {
    if pri < 8 then
      if pri < 4 then if pri == 0 then 1 else if pri == 1 then 2 else if pri == 2 then 4 else 8
      else if pri == 4 then 0x10 else if pri == 5 then 0x20 else if pri == 6 then 0x40 else 0x80
    else
      if pri < 12 then if pri == 8 then 0x100 else if pri == 9 then 0x200 else if pri == 10 then 0x400 else 0x800
      else if pri == 12 then 0x1000 else if pri == 13 then 0x2000 else if pri == 14 then 0x4000 else 0x8000
  }

  lemma BitIs(pri: Pri)
    ensures Bit(pri) == BitTable(pri)
  {
    if pri == 0 { assert (1 as bv16) << 0 == 1; }
    if pri == 1 { assert (1 as bv16) << 1 == 2; }
    if pri == 2 { assert (1 as bv16) << 2 == 4; }
    if pri == 3 { assert (1 as bv16) << 3 == 8; }
    if pri == 4 { assert (1 as bv16) << 4 == 0x10; }
    if pri == 5 { assert (1 as bv16) << 5 == 0x20; }
    if pri == 6 { assert (1 as bv16) << 6 == 0x40; }
    if pri == 7 { assert (1 as bv16) << 7 == 0x80; }
    if pri == 8 { assert (1 as bv16) << 8 == 0x100; }
    if pri == 9 { assert (1 as bv16) << 9 == 0x200; }
    if pri == 10 { assert (1 as bv16) << 10 == 0x400; }
    if pri == 11 { assert (1 as bv16) << 11 == 0x800; }
    if pri == 12 { assert (1 as bv16) << 12 == 0x1000; }
    if pri == 13 { assert (1 as bv16) << 13 == 0x2000; }
    if pri == 14 { assert (1 as bv16) << 14 == 0x4000; }
    if pri == 15 { assert (1 as bv16) << 15 == 0x8000; }
  }

  lemma Disjoint(i: Pri, j: Pri)
    ensures Bit(i) != 0
    ensures i != j ==> Bit(i) & Bit(j) == 0
  {
    hide Bit;
    BitIs(i);
    BitIs(j);
  }

  lemma OrAnd(b: bv16, x: bv16, y: bv16)
    requires x & y == 0
    ensures (b | x) & y == b & y
  {
  }

  lemma AndNot(b: bv16, x: bv16, y: bv16)
    requires x & y == 0
    ensures b & !x & y == b & y
  {
  }

  lemma OrMask(b: bv16, x: bv16, y: bv16)
    requires x & y == 0
    ensures Any(b | x, y) == Any(b, y)
  {
    OrAnd(b, x, y);
  }

  lemma AndMask(b: bv16, x: bv16, y: bv16)
    requires x & y == 0
    ensures Any(b & !x, y) == Any(b, y)
  {
    AndNot(b, x, y);
  }

  lemma SameMask(b: bv16, x: bv16)
    ensures (b | x) & x == x
    ensures b & !x & x == 0
  {
  }

  lemma SetOther(bitmap: bv16, pri: Pri, i: Pri)
    requires i != pri
    ensures Has(Set(bitmap, pri), i) == Has(bitmap, i)
  {
    hide Bit, Any;
    Disjoint(pri, i);
    OrMask(bitmap, Bit(pri), Bit(i));
  }

  lemma ClearOther(bitmap: bv16, pri: Pri, i: Pri)
    requires i != pri
    ensures Has(Clear(bitmap, pri), i) == Has(bitmap, i)
  {
    hide Bit, Any;
    Disjoint(pri, i);
    AndMask(bitmap, Bit(pri), Bit(i));
  }

  lemma SetSame(bitmap: bv16, pri: Pri)
    ensures Has(Set(bitmap, pri), pri) && !Has(Clear(bitmap, pri), pri)
  {
    hide Bit;
    Disjoint(pri, pri);
    SameMask(bitmap, Bit(pri));
  }

  /** Setting one bit changes that bit only. */
  lemma SetBit(bitmap: bv16, pri: Pri)
    ensures forall i: Pri :: Has(Set(bitmap, pri), i) <==> i == pri || Has(bitmap, i)
  {
    hide Has, Set, Clear;
    SetSame(bitmap, pri);
    forall i: Pri | i != pri ensures Has(Set(bitmap, pri), i) == Has(bitmap, i) {
      SetOther(bitmap, pri, i);
    }
  }

  /** Clearing one bit changes that bit only. */
  lemma ClearBit(bitmap: bv16, pri: Pri)
    ensures forall i: Pri :: Has(Clear(bitmap, pri), i) <==> i != pri && Has(bitmap, i)
  {
    hide Has, Set, Clear;
    SetSame(bitmap, pri);
    forall i: Pri | i != pri ensures Has(Clear(bitmap, pri), i) == Has(bitmap, i) {
      ClearOther(bitmap, pri, i);
    }
  }

  lemma NoBits(pri: Pri)
    ensures !Has(0, pri)
  {
  }

  /** The lowest bit set in a nibble, by the table of the C code. */
  const SEARCH_TABLE: seq<Pri> := [0, 1, 0, 2, 0, 1, 0, 3, 0, 1, 0, 2, 0, 1, 0]

  /** bitmap_search: the lowest bit set. */
  method Search(bitmap: bv16) returns (n: Pri)
    requires bitmap != 0
    ensures Has(bitmap, n) && forall i: Pri :: i < n ==> !Has(bitmap, i)
  {
    var b := bitmap;
    n := 0;
    if b & 0xff == 0 {
      b := b >> 8;
      n := n + 8;
    }
    if b & 0xf == 0 {
      b := b >> 4;
      n := n + 4;
    }
    var k := (b & 0xf) as int;
    n := n + SEARCH_TABLE[k - 1];
  }
}
