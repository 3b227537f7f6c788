/** The storage under the data queues and the fixed pools: a ring buffer, a sorted list
    with a free list, and a table of block links, each changed in place and proved to be
    the sequence or the pool that the kernel model keeps. */
module DataArea {
  import opened Arith
  import opened Lists
  import opened KernelSpec
  import opened KernelInv
  import opened KernelData
  import opened Ring
  import S = KernelSpec

  // ---- the ring buffer of a data queue ---------------------------------------------------

  class DataRing {
    const mb: array<Item>
    var count: nat
    var head: nat
    var tail: nat

    /** tail is (head + count) modulo the capacity throughout. */
    ghost predicate Valid()
      reads this
    {
      && count <= mb.Length
      && (mb.Length == 0 ==> head == 0 && tail == 0)
      && (mb.Length > 0 ==> head < mb.Length && tail == Wrap(head + count, mb.Length))
    }

    /** What is stored, oldest first. */
    ghost function Contents(): seq<Item>
      requires Valid()
      reads this, mb
    {
      RingItems(mb[..], head, count)
    }

    constructor (dtqcnt: nat)
      ensures Valid() && mb.Length == dtqcnt && Contents() == [] && fresh(mb)
    {
      mb := new Item[dtqcnt](_ => Item(0, 0));
      count, head, tail := 0, 0, 0;
    }

    /** enqueue_data. */
    method Enqueue(it: Item)
      requires Valid() && count < mb.Length
      modifies this, mb
      ensures Valid() && Contents() == S.AddItem(false, old(Contents()), it)
    {
      hide RingItems;
      RingPush(mb[..], head, count, it);
      mb[tail] := it;
      count := count + 1;
      tail := tail + 1;
      if tail >= mb.Length {
        tail := 0;
      }
    }

    /** force_enqueue_data: when the ring is full only the oldest data is lost. */
    method ForceEnqueue(it: Item)
      requires Valid() && mb.Length > 0
      modifies this, mb
      ensures Valid() && Contents() == S.ForceItem(old(Contents()), mb.Length, it)
    {
      hide RingItems;
      if count < mb.Length {
        RingPush(mb[..], head, count, it);
      } else {
        RingForce(mb[..], head, it);
      }
      mb[tail] := it;
      tail := tail + 1;
      if tail >= mb.Length {
        tail := 0;
      }
      if count < mb.Length {
        count := count + 1;
      } else {
        head := tail;
      }
    }

    /** dequeue_data. */
    method Dequeue() returns (it: Item)
      requires Valid() && count > 0
      modifies this
      ensures Valid() && it == old(Contents()[0]) && Contents() == old(Contents()[1..])
    {
      hide RingItems;
      RingPop(mb[..], head, count);
      assert Contents()[0] == mb[Wrap(head + 0, mb.Length)];
      it := mb[head];
      count := count - 1;
      head := head + 1;
      if head >= mb.Length {
        head := 0;
      }
    }

    /** The part of ini_dtq that empties the ring. */
    method Reset()
      modifies this
      ensures Valid() && Contents() == []
    {
      count, head, tail := 0, 0, 0;
    }
  }

  // ---- the sorted list of a priority data queue -------------------------------------------

  /** A management block; None is the null pointer. */
  datatype Mb = Mb(next: Option<nat>, item: Item)

  /** What points to place i of the list l: the end is a null pointer. */
  function Link(l: seq<nat>, i: nat): Option<nat> {
    if i < |l| then Some(l[i]) else None
  }

  /** Following next from p runs through the list l and ends. */
  ghost predicate Chain(mb: seq<Mb>, p: Option<nat>, l: seq<nat>) {
    && p == Link(l, 0)
    && forall i :: 0 <= i < |l| ==> l[i] < |mb| && mb[l[i]].next == Link(l, i + 1)
  }

  function Items(mb: seq<Mb>, l: seq<nat>): (r: seq<Item>)
    requires forall i :: 0 <= i < |l| ==> l[i] < |mb|
    ensures |r| == |l| && forall i :: 0 <= i < |l| ==> r[i] == mb[l[i]].item
  {
    if l == [] then [] else [mb[l[0]].item] + Items(mb, l[1..])
  }

  /** Blocks outside the list do not matter to it. */
  lemma ChainFrame(mb: seq<Mb>, mb1: seq<Mb>, p: Option<nat>, l: seq<nat>)
    requires Chain(mb, p, l) && |mb1| == |mb|
    requires forall i :: 0 <= i < |l| ==> mb1[l[i]].next == mb[l[i]].next
    ensures Chain(mb1, p, l)
  {
  }

  lemma ChainTail(mb: seq<Mb>, p: Option<nat>, l: seq<nat>)
    requires Chain(mb, p, l) && l != []
    ensures Chain(mb, mb[l[0]].next, l[1..])
  {
    forall i | 0 <= i < |l[1..]| ensures mb[l[1..][i]].next == Link(l[1..], i + 1) {
      assert l[1..][i] == l[i + 1];
    }
  }

  lemma ChainCons(mb: seq<Mb>, p: Option<nat>, l: seq<nat>, n: nat)
    requires Chain(mb, p, l) && n < |mb| && mb[n].next == p
    ensures Chain(mb, Some(n), [n] + l)
  {
    var r := [n] + l;
    forall i | 0 <= i < |r| ensures r[i] < |mb| && mb[r[i]].next == Link(r, i + 1) {
      if i > 0 {
        assert r[i] == l[i - 1];
      }
    }
  }

  /** Splicing block n in after place k - 1. */
  lemma ChainInsert(mb: seq<Mb>, mb1: seq<Mb>, p: Option<nat>, l: seq<nat>, k: nat, n: nat)
    requires Chain(mb, p, l) && 0 < k <= |l| && n < |mb| && n !in l && NoDup(l) && |mb1| == |mb|
    requires mb1[n].next == Link(l, k) && mb1[l[k - 1]].next == Some(n)
    requires forall x :: 0 <= x < |mb| && x != n && x != l[k - 1] ==> mb1[x].next == mb[x].next
    ensures Chain(mb1, p, l[..k] + [n] + l[k..])
  {
    var r := l[..k] + [n] + l[k..];
    forall i | 0 <= i < |r| ensures r[i] < |mb1| && mb1[r[i]].next == Link(r, i + 1) {
      if i < k {
        assert r[i] == l[i];
      } else if i > k {
        assert r[i] == l[i - 1];
      }
    }
  }

  lemma PlaceIn(mb: seq<Mb>, p: Option<nat>, l: seq<nat>, k: nat)
    requires Chain(mb, p, l) && k <= |l|
    ensures p == Link(l, 0) && (k > 0 ==> l[k - 1] < |mb|)
  {
  }

  /** What enqueue_pridata does to the links: block n is in the list at place k, and the
      free list is as it was. */
  lemma SpliceOk(mb: seq<Mb>, mb1: seq<Mb>, p: Option<nat>, p1: Option<nat>, l: seq<nat>, k: nat, n: nat,
                 pf: Option<nat>, f: seq<nat>)
    requires Chain(mb, p, l) && Chain(mb, pf, f) && NoDup(l + f) && n < |mb| && n !in l && n !in f && k <= |l|
    requires |mb1| == |mb| && (k > 0 ==> l[k - 1] < |mb|)
    requires mb1[n].next == Link(l, k)
    requires if k == 0 then p1 == Some(n) else p1 == p && mb1[l[k - 1]].next == Some(n)
    requires forall x :: 0 <= x < |mb| && x != n && (k > 0 ==> x != l[k - 1]) ==> mb1[x].next == mb[x].next
    ensures Chain(mb1, p1, l[..k] + [n] + l[k..]) && Chain(mb1, pf, f) && NoDup(l[..k] + [n] + l[k..] + f)
  {
    NoDupParts(l, f);
    NoDupInsert(l, k, n, f);
    forall i | 0 <= i < |f| ensures mb1[f[i]].next == mb[f[i]].next {
      assert f[i] in f && (k > 0 ==> l[k - 1] in l);
    }
    if k == 0 {
      forall i | 0 <= i < |l| ensures mb1[l[i]].next == mb[l[i]].next {
        assert l[i] in l;
      }
      ChainFrame(mb, mb1, p, l);
      ChainCons(mb1, p, l, n);
      assert [n] + l == l[..0] + [n] + l[0..];
    } else {
      ChainInsert(mb, mb1, p, l, k, n);
    }
  }

  class PriArea {
    const mb: array<Mb>
    var count: nat
    var head: Option<nat>
    var unused: nat
    var freelist: Option<nat>
    ghost var list: seq<nat>
    ghost var free: seq<nat>

    /** The blocks below unused are on exactly one of the list and the free list. */
    ghost predicate Valid()
      reads this, mb
    {
      && Chain(mb[..], head, list) && Chain(mb[..], freelist, free)
      && NoDup(list + free)
      && unused <= mb.Length && count == |list| && count + |free| == unused
      && (forall i :: 0 <= i < |list| ==> list[i] < unused)
      && (forall i :: 0 <= i < |free| ==> free[i] < unused)
    }

    /** What is stored, most urgent first. */
    ghost function Contents(): seq<Item>
      requires Valid()
      reads this, mb
    {
      Items(mb[..], list)
    }

    constructor (pdqcnt: nat)
      ensures Valid() && mb.Length == pdqcnt && Contents() == [] && fresh(mb)
    {
      mb := new Mb[pdqcnt](_ => Mb(None, Item(0, 0)));
      count, head, unused, freelist := 0, None, 0, None;
      list, free := [], [];
    }

    /** The allocation part of enqueue_pridata. */
    method Allocate() returns (n: nat)
      requires Valid() && count < mb.Length
      modifies this`freelist, this`unused, this`free
      ensures n < mb.Length && n !in list && n !in free && NoDup(list + free)
      ensures Chain(mb[..], freelist, free)
      ensures unused <= mb.Length && count + 1 + |free| == unused && n < unused
      ensures forall i :: 0 <= i < |list| ==> list[i] < unused
      ensures forall i :: 0 <= i < |free| ==> free[i] < unused
    {
      hide NoDup, Chain;
      PlaceIn(mb[..], freelist, free, 0);
      if freelist.Some? {
        ChainTail(mb[..], freelist, free);
        n := freelist.value;
        freelist := mb[n].next;
        assert list + free == list + [n] + free[1..];
        free := free[1..];
        NoDupWithout(list, n, free);
      } else {
        n := unused;
        unused := unused + 1;
      }
    }

    /** enqueue_pridata. */
    method Enqueue(it: Item)
      requires Valid() && count < mb.Length
      modifies this, mb
      ensures Valid() && Contents() == S.AddItem(true, old(Contents()), it)
    {
      hide Chain, NoDup, InsertItem, Items;
      ghost var mb0, l := mb[..], list;
      var n := Allocate();
      var prev, p, k := FindPlace(it);
      Splice(n, it, prev, p, k);
      InsertItemAt(Items(mb0, l), it, k);
      count := count + 1;
      ItemsInsert(mb0, mb[..], l, k, n, it);
    }

    /** The search of enqueue_pridata for the first data of lower urgency. */
    method FindPlace(it: Item) returns (prev: Option<nat>, p: Option<nat>, ghost k: nat)
      requires Chain(mb[..], head, list)
      ensures k <= |list| && p == Link(list, k) && prev == if k == 0 then None else Some(list[k - 1])
      ensures forall i :: 0 <= i < k ==> mb[list[i]].item.pri <= it.pri
      ensures k < |list| ==> mb[list[k]].item.pri > it.pri
    {
      ghost var l := list;
      prev := None;
      p := head;
      k := 0;
      while p.Some? && mb[p.value].item.pri <= it.pri
        invariant 0 <= k <= |l| && p == Link(l, k)
        invariant prev == if k == 0 then None else Some(l[k - 1])
        invariant forall i :: 0 <= i < k ==> mb[l[i]].item.pri <= it.pri
        decreases |l| - k
      {
        prev := p;
        p := mb[p.value].next;
        k := k + 1;
      }
    }

    /** *pp_prev_next = p_pdqmb. */
    method Splice(n: nat, it: Item, prev: Option<nat>, p: Option<nat>, ghost k: nat)
      requires Chain(mb[..], head, list) && Chain(mb[..], freelist, free) && NoDup(list + free)
      requires n < mb.Length && n !in list && n !in free && k <= |list|
      requires p == Link(list, k)
      requires prev == if k == 0 then None else Some(list[k - 1])
      modifies this`head, this`list, mb
      ensures list == old(list)[..k] + [n] + old(list)[k..]
      ensures Chain(mb[..], head, list) && Chain(mb[..], freelist, free) && NoDup(list + free)
      ensures mb[n].item == it && forall x :: 0 <= x < mb.Length && x != n ==> mb[x].item == old(mb[x].item)
    {
      hide NoDup, Chain;
      ghost var mb0, l, head0 := mb[..], list, head;
      PlaceIn(mb0, head, l, k);
      mb[n] := Mb(p, it);
      if prev.None? {
        head := Some(n);
      } else {
        mb[prev.value] := mb[prev.value].(next := Some(n));
      }
      list := l[..k] + [n] + l[k..];
      SpliceOk(mb0, mb[..], head0, head, l, k, n, freelist, free);
    }

    /** dequeue_pridata. */
    method Dequeue() returns (it: Item)
      requires Valid() && count > 0
      modifies this, mb
      ensures Valid() && it == old(Contents()[0]) && Contents() == old(Contents()[1..])
    {
      ghost var mb0, l, f := mb[..], list, free;
      NoDupParts(l, f);
      ChainTail(mb0, head, l);
      var n := head.value;
      head := mb[n].next;
      count := count - 1;
      it := mb[n].item;
      mb[n] := mb[n].(next := freelist);
      freelist := Some(n);
      list, free := l[1..], [n] + f;
      assert l == [n] + l[1..];
      NoDupTurn(l, f);
      forall i | 0 <= i < |l[1..]| ensures l[1..][i] != n {
        assert l[1..][i] == l[i + 1];
      }
      ChainFrame(mb0, mb[..], head, l[1..]);
      forall i | 0 <= i < |f| ensures f[i] != n {
        assert f[i] in f && l[0] in l;
      }
      ChainFrame(mb0, mb[..], mb0[n].next, l[1..]);
      FreeLonger(mb0, mb[..], f, n);
    }
  }

  /** The block that held the data just taken goes to the front of the free list. */
  lemma FreeLonger(mb: seq<Mb>, mb1: seq<Mb>, f: seq<nat>, n: nat)
    requires Chain(mb, Link(f, 0), f) && n < |mb| && |mb1| == |mb| && mb1[n].next == Link(f, 0)
    requires forall i :: 0 <= i < |f| ==> mb1[f[i]].next == mb[f[i]].next
    ensures Chain(mb1, Some(n), [n] + f)
  {
    ChainFrame(mb, mb1, Link(f, 0), f);
    ChainCons(mb1, Link(f, 0), f, n);
  }

  lemma NoDupParts(l: seq<nat>, f: seq<nat>)
    requires NoDup(l + f)
    ensures NoDup(l) && NoDup(f) && forall x :: x in l ==> x !in f
  {
    var q := l + f;
    forall i | 0 <= i < |l| ensures l[i] == q[i] {
    }
    forall i | 0 <= i < |f| ensures f[i] == q[|l| + i] {
    }
  }

  lemma NoDupWithout(l: seq<nat>, n: nat, f: seq<nat>)
    requires NoDup(l + [n] + f)
    ensures NoDup(l + f) && n !in l && n !in f
  {
    var q := l + [n] + f;
    assert q[|l|] == n;
    forall i | 0 <= i < |f| ensures f[i] == q[|l| + 1 + i] {
    }
    forall i | 0 <= i < |l| ensures l[i] == q[i] {
    }
  }

  /** r is q with its places renumbered by g, so it has no duplicates either. */
  lemma NoDupMap(q: seq<nat>, r: seq<nat>, g: int -> int)
    requires NoDup(q)
    requires forall i :: 0 <= i < |r| ==> 0 <= g(i) < |q| && r[i] == q[g(i)]
    requires forall i, j :: 0 <= i < j < |r| ==> g(i) != g(j)
    ensures NoDup(r)
  {
    forall i, j | 0 <= i < j < |r| ensures r[i] != r[j] {
      assert g(i) < g(j) || g(j) < g(i);
    }
  }

  lemma NoDupInsert(l: seq<nat>, k: nat, n: nat, f: seq<nat>)
    requires k <= |l| && NoDup(l + f) && n !in l && n !in f
    ensures NoDup(l[..k] + [n] + l[k..] + f)
  {
    var q := [n] + (l + f);
    ConsNoDup(n, l + f);
    NoDupMap(q, l[..k] + [n] + l[k..] + f, i => if i < k then i + 1 else if i == k then 0 else i);
  }

  lemma NoDupTurn(l: seq<nat>, f: seq<nat>)
    requires l != [] && NoDup(l + f)
    ensures NoDup(l[1..] + ([l[0]] + f))
  {
    NoDupMap(l + f, l[1..] + ([l[0]] + f), i => if i < |l| - 1 then i + 1 else if i == |l| - 1 then 0 else i);
  }

  /** InsertItem puts the new data before the first of lower urgency. */
  lemma {:induction false} InsertItemAt(items: seq<Item>, it: Item, k: nat)
    requires k <= |items| && (forall i :: 0 <= i < k ==> items[i].pri <= it.pri)
    requires k < |items| ==> items[k].pri > it.pri
    ensures InsertItem(items, it) == items[..k] + [it] + items[k..]
    decreases k
  {
    if k > 0 {
      InsertItemAt(items[1..], it, k - 1);
    }
  }

  lemma ItemsInsert(mb: seq<Mb>, mb1: seq<Mb>, l: seq<nat>, k: nat, n: nat, it: Item)
    requires |mb1| == |mb| && n < |mb| && k <= |l| && n !in l && forall i :: 0 <= i < |l| ==> l[i] < |mb|
    requires mb1[n].item == it && forall x :: 0 <= x < |mb| && x != n ==> mb1[x].item == mb[x].item
    ensures forall i :: 0 <= i <= |l| ==> (l[..k] + [n] + l[k..])[i] < |mb1|
    ensures Items(mb1, l[..k] + [n] + l[k..]) == Items(mb, l)[..k] + [it] + Items(mb, l)[k..]
  {
  }

  // ---- the blocks of a fixed pool ---------------------------------------------------------

  /** The index that stands before place i of the list l: end marks the end. */
  function Mark(l: seq<nat>, i: nat, end: nat): nat {
    if i < |l| then l[i] else end
  }

  /** Following the next indices from i runs through the list l and ends at end. */
  ghost predicate Linked(next: seq<nat>, i: nat, l: seq<nat>, end: nat) {
    && i == Mark(l, 0, end)
    && forall k :: 0 <= k < |l| ==> l[k] < |next| && next[l[k]] == Mark(l, k + 1, end)
  }

  lemma LinkedCons(next: seq<nat>, next1: seq<nat>, i: nat, l: seq<nat>, end: nat, b: nat)
    requires Linked(next, i, l, end) && |next1| == |next| && b < |next| && b !in l && next1 == next[b := i]
    ensures Linked(next1, b, [b] + l, end)
  {
    var r := [b] + l;
    forall k | 0 <= k < |r| ensures r[k] < |next1| && next1[r[k]] == Mark(r, k + 1, end) {
      if k > 0 {
        assert r[k] == l[k - 1] && l[k - 1] in l;
      }
    }
  }

  lemma LinkBelow(next: seq<nat>, i: nat, l: seq<nat>, end: nat)
    requires Linked(next, i, l, end)
    ensures i < |next| || i == end
  {
  }

  lemma LinkedTail(next: seq<nat>, l: seq<nat>, end: nat)
    requires l != [] && Linked(next, l[0], l, end)
    ensures Linked(next, next[l[0]], l[1..], end)
  {
    forall k | 0 <= k < |l[1..]| ensures next[l[1..][k]] == Mark(l[1..], k + 1, end) {
      assert l[1..][k] == l[k + 1];
    }
  }

  lemma LinkedFrame(next: seq<nat>, next1: seq<nat>, i: nat, l: seq<nat>, end: nat)
    requires Linked(next, i, l, end) && |next1| == |next|
    requires forall k :: 0 <= k < |l| ==> next1[l[k]] == next[l[k]]
    ensures Linked(next1, i, l, end)
  {
  }

  class MemPool {
    const word: nat         // number of values of an unsigned int and of an address
    const blksz: nat
    const mpf: nat          // address of the pool
    const next: array<nat>  // p_mpfmb[i].next
    var fblkcnt: nat
    var unused: nat
    var freelist: nat
    ghost var free: seq<nat>
    ghost var alloc: set<nat>

    function IndexNull(): nat
      requires word >= 2
    {
      word - 1
    }

    function IndexAlloc(): nat
      requires word >= 2
    {
      word - 2
    }

    /** The pool lies in the address space, and the two marks are not block numbers. */
    ghost predicate Fixed() {
      && word >= 2 && blksz > 0
      && next.Length <= word - 2 && mpf + blksz * next.Length <= word
    }

    ghost function View(): Pool
      reads this
    {
      Pool(fblkcnt, unused, free, alloc)
    }

    /** The free list holds the free blocks, and exactly the allocated blocks carry the
        mark INDEX_ALLOC. */
    ghost predicate Valid()
      reads this, next
    {
      && Fixed() && PoolOk(View(), next.Length)
      && Linked(next[..], freelist, free, IndexNull())
      && (forall b :: 0 <= b < unused ==> (b in alloc <==> next[b] == IndexAlloc()))
    }

    constructor (width: nat, blkcnt: nat, size: nat, addr: nat)
      requires width >= 2 && size > 0 && blkcnt <= width - 2 && addr + size * blkcnt <= width
      ensures Valid() && View() == NewPool(blkcnt) && next.Length == blkcnt && blksz == size && mpf == addr
    {
      word, blksz, mpf := width, size, addr;
      next := new nat[blkcnt](_ => 0);
      fblkcnt, unused, freelist := blkcnt, 0, width - 1;
      free, alloc := [], {};
    }

    /** get_mpf_block: the address of a block that was not allocated. */
    method GetBlock() returns (blk: nat)
      requires Valid() && fblkcnt > 0
      modifies this, next
      ensures Valid() && View() == S.GetBlock(old(View()))
      ensures var b := NextBlock(old(View())); b !in old(alloc) && b < next.Length && blk == mpf + blksz * b
    {
      hide PoolOk, Linked;
      ghost var next0 := next[..];
      PickOk(View(), next.Length);
      var blkidx := TakeIndex();
      blk := mpf + blksz * blkidx;
      fblkcnt := fblkcnt - 1;
      next[blkidx] := IndexAlloc();
      alloc := alloc + {blkidx};
      LinkedFrame(next0, next[..], freelist, free, IndexNull());
    }

    /** The choice of a block: the free list first, then the unused tail. */
    method TakeIndex() returns (blkidx: nat)
      requires Fixed() && PoolOk(View(), next.Length) && fblkcnt > 0
      requires Linked(next[..], freelist, free, IndexNull())
      modifies this`freelist, this`unused, this`free
      ensures blkidx == NextBlock(old(View())) && blkidx < next.Length
      ensures free == S.GetBlock(old(View())).free && unused == S.GetBlock(old(View())).unused
      ensures Linked(next[..], freelist, free, IndexNull())
      ensures forall k :: 0 <= k < |free| ==> free[k] != blkidx
    {
      hide PoolOk;
      ghost var p0 := View();
      PickOk(p0, next.Length);
      if freelist != IndexNull() {
        blkidx := freelist;
        LinkedTail(next[..], free, IndexNull());
        freelist := next[blkidx];
        free := free[1..];
      } else {
        blkidx := unused;
        unused := unused + 1;
      }
      forall k | 0 <= k < |free| ensures free[k] != blkidx {
        assert free[k] in S.GetBlock(p0).free;
      }
    }

    /** The checks of rel_mpf on the address of a block: it is accepted exactly when it is
        the start of a block that is allocated now. */
    method CheckBlock(blk: nat) returns (ok: bool, blkidx: nat)
      requires Valid() && blk < word
      ensures ok <==> exists b :: b in alloc && blk == mpf + blksz * b
      ensures ok ==> blkidx in alloc && blk == mpf + blksz * blkidx
    {
      hide PoolOk, Linked;
      AllocBelow(View(), next.Length);
      BlockStarts(mpf, blksz, blk);
      if mpf <= blk {
        DivLess(blk - mpf, blksz);
        Small(blk - mpf, word);
        Small((blk - mpf) / blksz, word);
      }
      var blkoffset := (blk as int - mpf) % word;
      blkidx := (blkoffset / blksz) % word;
      if !(mpf <= blk) || blkoffset % blksz != 0 || !(blkoffset / blksz < unused)
         || next[blkidx] != IndexAlloc()
      {
        ok := false;
      } else {
        ok := true;
      }
    }

    /** The release of block blkidx when no task waits for a block. */
    method RelBlock(blkidx: nat)
      requires Valid() && blkidx in alloc
      modifies this, next
      ensures Valid() && View() == S.RelBlock(old(View()), blkidx)
    {
      hide PoolOk, Linked;
      ghost var next0, l := next[..], free;
      AllocBelow(View(), next.Length);
      RelBlockOk(View(), next.Length, blkidx);
      fblkcnt := fblkcnt + 1;
      next[blkidx] := freelist;
      LinkedCons(next0, next[..], freelist, l, IndexNull(), blkidx);
      LinkBelow(next0, freelist, l, IndexNull());
      freelist := blkidx;
      free := [blkidx] + free;
      alloc := alloc - {blkidx};
    }

    /** The part of ini_mpf that frees every block. */
    method Reset()
      requires Valid()
      modifies this
      ensures Valid() && View() == NewPool(next.Length)
    {
      fblkcnt := next.Length;
      unused := 0;
      freelist := IndexNull();
      free, alloc := [], {};
    }
  }

  /** The block the pool hands out next was free, and is off the free list afterwards. */
  lemma PickOk(p: Pool, blkcnt: nat)
    requires PoolOk(p, blkcnt) && p.fblkcnt > 0
    ensures PoolOk(S.GetBlock(p), blkcnt)
    ensures var b := NextBlock(p); b < blkcnt && b !in p.alloc && b !in S.GetBlock(p).free
    ensures p.unused <= blkcnt && forall b :: b in p.free ==> b < p.unused && b !in p.alloc
    ensures forall k :: 0 <= k < |p.free| ==> p.free[k] < p.unused
  {
    forall k | 0 <= k < |p.free| ensures p.free[k] < p.unused {
      assert p.free[k] in p.free;
    }
    if p.free != [] {
      assert p.free == [p.free[0]] + p.free[1..];
      assert p.free[0] in p.free;
    }
  }

  lemma AllocBelow(p: Pool, blkcnt: nat)
    requires PoolOk(p, blkcnt)
    ensures p.unused <= blkcnt && forall b :: b in p.alloc ==> b < p.unused && b !in p.free
  {
  }

  /** The addresses at which blocks start. */
  lemma BlockStarts(mpf: nat, blksz: nat, blk: nat)
    requires blksz > 0
    ensures mpf <= blk && (blk - mpf) % blksz == 0 ==> blk == mpf + blksz * ((blk - mpf) / blksz)
    ensures forall b: nat :: blk == mpf + blksz * b ==>
      mpf <= blk && (blk - mpf) % blksz == 0 && (blk - mpf) / blksz == b
  {
    forall b: nat | blk == mpf + blksz * b
      ensures mpf <= blk && (blk - mpf) % blksz == 0 && (blk - mpf) / blksz == b
    {
      MultipleOf(blksz, b);
    }
  }

}
