/** Event flag patterns bit by bit: what the two wait modes and the calls that change a
    pattern mean, apart from the operations on words that compute them. */
module KernelFlags {
  import opened KernelSpec

  /** b has exactly one bit. */
  predicate IsBit(b: bv32) {
    b != 0 && b & (b - 1) == 0
  }

  /** Bit b is set in the pattern. */
  predicate Has(ptn: bv32, b: bv32) {
    ptn & b != 0
  }

  /** TWF_ORW: some bit waited for is set.  TWF_ANDW: no bit waited for is missing. */
  ghost predicate Meets(ptn: bv32, waiptn: bv32, orw: bool) {
    if orw then exists b :: IsBit(b) && Has(ptn, b) && Has(waiptn, b)
    else forall b :: IsBit(b) && Has(waiptn, b) ==> Has(ptn, b)
  }

  /** The bits of now are those of ptn and those of set, and no other. */
  ghost predicate Joined(now: bv32, ptn: bv32, more: bv32) {
    forall b :: IsBit(b) ==> (Has(now, b) <==> Has(ptn, b) || Has(more, b))
  }

  /** The bits of now are those of ptn that the mask keeps. */
  ghost predicate Masked(now: bv32, ptn: bv32, mask: bv32) {
    forall b :: IsBit(b) ==> (Has(now, b) <==> Has(ptn, b) && Has(mask, b))
  }

  /** The lowest bit of a pattern. */
  function Lowest(x: bv32): bv32 {
    x & (!x + 1)
  }

  lemma LowestIs(x: bv32)
    requires x != 0
    ensures IsBit(Lowest(x)) && Has(x, Lowest(x))
  {
  }

  lemma AndHas(x: bv32, y: bv32, b: bv32)
    requires IsBit(b)
    ensures Has(x & y, b) <==> Has(x, b) && Has(y, b)
  {
  }

  lemma OrHas(x: bv32, y: bv32, b: bv32)
    ensures Has(x | y, b) <==> Has(x, b) || Has(y, b)
  {
    OrAnd(x, y, b);
    OrNone(x & b, y & b);
  }

  lemma OrAnd(x: bv32, y: bv32, b: bv32)
    ensures (x | y) & b == (x & b) | (y & b)
  {
  }

  lemma OrNone(x: bv32, y: bv32)
    ensures x | y == 0 <==> x == 0 && y == 0
  {
  }

  /** The bits of w that ptn lacks. */
  function Lack(ptn: bv32, w: bv32): bv32 {
    w & !ptn
  }

  lemma LackAny(ptn: bv32, w: bv32)
    ensures ptn & w != w ==> Lack(ptn, w) != 0
  {
  }

  lemma LackHas(ptn: bv32, w: bv32, b: bv32)
    requires IsBit(b) && Has(Lack(ptn, w), b)
    ensures Has(w, b) && !Has(ptn, b)
  {
    AndHas(w, !ptn, b);
    NotHas(ptn, b);
  }

  lemma NotHas(x: bv32, b: bv32)
    requires IsBit(b) && Has(!x, b)
    ensures !Has(x, b)
  {
  }

  lemma Missing(ptn: bv32, w: bv32)
    ensures ptn & w != w ==> var b := Lowest(Lack(ptn, w)); IsBit(b) && Has(w, b) && !Has(ptn, b)
  {
    hide IsBit, Has, Lowest, Lack;
    LackAny(ptn, w);
    if Lack(ptn, w) != 0 {
      LowestIs(Lack(ptn, w));
      LackHas(ptn, w, Lowest(Lack(ptn, w)));
    }
  }

  lemma NoneMissing(ptn: bv32, w: bv32, b: bv32)
    requires ptn & w == w && Has(w, b)
    ensures Has(ptn, b)
  {
  }

  /** The test of check_flg_cond is this condition, for both modes. */
  lemma CondMeets(ptn: bv32, w: bv32, orw: bool)
    ensures FlgCond(ptn, w, orw) <==> Meets(ptn, w, orw)
  {
    hide IsBit, Has, Lowest, Lack;
    if orw {
      if ptn & w != 0 {
        LowestIs(ptn & w);
        AndHas(ptn, w, Lowest(ptn & w));
      }
      forall b | IsBit(b) && Has(ptn, b) && Has(w, b) ensures ptn & w != 0 {
        AndHas(ptn, w, b);
        HasAny(ptn & w, b);
      }
    } else {
      Missing(ptn, w);
      forall b | ptn & w == w && IsBit(b) && Has(w, b) ensures Has(ptn, b) {
        NoneMissing(ptn, w, b);
      }
    }
  }

  lemma HasAny(x: bv32, b: bv32)
    requires Has(x, b)
    ensures x != 0
  {
  }

  /** set_flg and clr_flg change exactly the bits asked for. */
  lemma BitsJoined(ptn: bv32, more: bv32)
    ensures Joined(SetBits(ptn, more), ptn, more)
  {
    hide IsBit, Has;
    forall b | IsBit(b) ensures Has(SetBits(ptn, more), b) <==> Has(ptn, b) || Has(more, b) {
      OrHas(ptn, more, b);
    }
  }

  lemma BitsMasked(ptn: bv32, mask: bv32)
    ensures Masked(ClearBits(ptn, mask), ptn, mask)
  {
    hide IsBit, Has;
    forall b | IsBit(b) ensures Has(ClearBits(ptn, mask), b) <==> Has(ptn, b) && Has(mask, b) {
      AndHas(ptn, mask, b);
    }
  }

  /** A pattern is its bits. */
  lemma SameBits(x: bv32, y: bv32)
    requires forall b :: IsBit(b) ==> (Has(x, b) <==> Has(y, b))
    ensures x == y
  {
    hide IsBit, Has, Lowest, Lack;
    Missing(x, y);
    Missing(y, x);
    MutualAnd(x, y);
  }

  lemma MutualAnd(x: bv32, y: bv32)
    ensures x & y == y && y & x == x ==> x == y
  {
  }
}
