/** The doubly linked intrusive ring: pointer operations proved to be the insertions
    and removals on sequences that the kernel model uses. */
module Queue {
  import opened Lists
  import opened KernelSpec
  import opened KernelInv

  /** A ring entry, or a ring header.  owner and priority stand for the control block
      the entry is the first field of. */
  class Node {
    var next: Node
    var prev: Node
    var owner: nat
    var priority: int

    /** queue_initialize. */
    constructor (id: nat, pri: int)
      ensures Ring(this, []) && owner == id && priority == pri
    {
      next := this;
      prev := this;
      owner := id;
      priority := pri;
    }
  }

  /** Entry i of the ring read from its header: 0 and |q| + 1 are the header. */
  ghost function At(head: Node, q: seq<Node>, i: int): (n: Node)
    requires 0 <= i <= |q| + 1
    ensures n == head || n in q
  {
    if 1 <= i <= |q| then q[i - 1] else head
  }

  ghost predicate Distinct(head: Node, q: seq<Node>) {
    head !in q && forall i, j :: 0 <= i < j < |q| ==> q[i] != q[j]
  }

  /** Following p_next from the header gives q and comes back to the header, and
      p_prev is its inverse. */
  ghost predicate Ring(head: Node, q: seq<Node>)
    reads head, q
  {
    && Distinct(head, q)
    && (forall i :: 0 <= i <= |q| ==> At(head, q, i).next == At(head, q, i + 1))
    && (forall i :: 1 <= i <= |q| + 1 ==> At(head, q, i).prev == At(head, q, i - 1))
  }

  ghost function InsertAt(q: seq<Node>, k: nat, e: Node): seq<Node>
    requires k <= |q|
  {
    q[..k] + [e] + q[k..]
  }

  ghost function DeleteAt(q: seq<Node>, k: nat): seq<Node>
    requires k < |q|
  {
    q[..k] + q[k + 1..]
  }

  lemma InsertedAt(head: Node, q: seq<Node>, k: nat, e: Node)
    requires k <= |q| && Distinct(head, q) && e != head && e !in q
    ensures var r := InsertAt(q, k, e);
      && |r| == |q| + 1 && Distinct(head, r)
      && (forall i :: 0 <= i <= |r| + 1 ==>
            At(head, r, i) == if i <= k then At(head, q, i) else if i == k + 1 then e else At(head, q, i - 1))
  {
  }

  lemma DeletedAt(head: Node, q: seq<Node>, k: nat)
    requires k < |q| && Distinct(head, q)
    ensures var r := DeleteAt(q, k);
      && |r| == |q| - 1 && Distinct(head, r) && q[k] !in r
      && (forall i :: 0 <= i <= |r| + 1 ==>
            At(head, r, i) == if i <= k then At(head, q, i) else At(head, q, i + 1))
  {
  }

  /** Different places of the ring are different nodes, but for the header at both ends. */
  lemma Apart(head: Node, q: seq<Node>, i: int, j: int)
    requires Distinct(head, q) && 0 <= i <= |q| + 1 && 0 <= j <= |q| + 1 && i != j
    requires (i <= |q| && j <= |q|) || (i >= 1 && j >= 1)
    ensures At(head, q, i) != At(head, q, j)
  {
  }

  /** Every link but the one between places k and k + 1 is as in the ring q. */
  ghost predicate RestLinked(head: Node, q: seq<Node>, k: nat, width: nat)
    requires k + width <= |q| + 1
    reads head, q
  {
    && Distinct(head, q)
    && (forall i :: 0 <= i < k || k + width <= i <= |q| ==> At(head, q, i).next == At(head, q, i + 1))
    && (forall i :: 1 <= i <= k || k + width < i <= |q| + 1 ==> At(head, q, i).prev == At(head, q, i - 1))
  }

  lemma Linked(head: Node, q: seq<Node>, k: nat, entry: Node)
    requires k <= |q| && RestLinked(head, q, k, 1) && entry != head && entry !in q
    requires At(head, q, k).next == entry && entry.prev == At(head, q, k)
    requires entry.next == At(head, q, k + 1) && At(head, q, k + 1).prev == entry
    ensures Ring(head, InsertAt(q, k, entry))
  {
    InsertedAt(head, q, k, entry);
    var r := InsertAt(q, k, entry);
    forall i | 0 <= i <= |r| ensures At(head, r, i).next == At(head, r, i + 1) {
      if i < k {
        assert At(head, q, i).next == At(head, q, i + 1);
      } else if i == k {
        assert At(head, r, i + 1) == entry;
      } else if i == k + 1 {
        assert At(head, r, i + 1) == At(head, q, k + 1);
      } else {
        assert At(head, q, i - 1).next == At(head, q, i);
      }
    }
    forall i | 1 <= i <= |r| + 1 ensures At(head, r, i).prev == At(head, r, i - 1) {
      if i <= k {
        assert At(head, q, i).prev == At(head, q, i - 1);
      } else if i == k + 1 {
        assert At(head, r, i - 1) == At(head, q, k);
      } else if i == k + 2 {
        assert At(head, r, i - 1) == entry;
      } else {
        assert At(head, q, i - 1).prev == At(head, q, i - 2);
      }
    }
  }

  lemma Unlinked(head: Node, q: seq<Node>, k: nat)
    requires k < |q| && RestLinked(head, q, k, 2)
    requires At(head, q, k).next == At(head, q, k + 2) && At(head, q, k + 2).prev == At(head, q, k)
    ensures Ring(head, DeleteAt(q, k))
  {
    DeletedAt(head, q, k);
    var r := DeleteAt(q, k);
    forall i | 0 <= i <= |r| ensures At(head, r, i).next == At(head, r, i + 1) {
      if i < k {
        assert At(head, q, i).next == At(head, q, i + 1);
      } else if i == k {
        assert At(head, r, i + 1) == At(head, q, k + 2);
      } else {
        assert At(head, q, i + 1).next == At(head, q, i + 2);
      }
    }
    forall i | 1 <= i <= |r| + 1 ensures At(head, r, i).prev == At(head, r, i - 1) {
      if i <= k {
        assert At(head, q, i).prev == At(head, q, i - 1);
      } else if i == k + 1 {
        assert At(head, r, i - 1) == At(head, q, k);
      } else {
        assert At(head, q, i + 1).prev == At(head, q, i);
      }
    }
  }

  lemma SameRest(head: Node, q: seq<Node>, k: nat)
    requires Distinct(head, q) && k <= |q|
    ensures forall i :: 0 <= i <= |q| && i != k ==> At(head, q, i) != At(head, q, k)
    ensures forall i :: 1 <= i <= |q| + 1 && i != k + 1 ==> At(head, q, i) != At(head, q, k + 1)
  {
  }

  /** queue_insert_prev at any place of a ring; k tells which. */
  method InsertPrev(queue: Node, entry: Node, ghost head: Node, ghost q: seq<Node>, ghost k: nat)
    requires Ring(head, q) && k <= |q| && queue == At(head, q, k + 1)
    requires entry != head && entry !in q
    modifies entry`next, entry`prev, queue`prev, queue.prev`next
    ensures Ring(head, InsertAt(q, k, entry))
  {
    SameRest(head, q, k);
    entry.prev := queue.prev;
    entry.next := queue;
    queue.prev.next := entry;
    queue.prev := entry;
    Linked(head, q, k, entry);
  }

  /** queue_insert_next at any place of a ring; k tells which. */
  method InsertNext(queue: Node, entry: Node, ghost head: Node, ghost q: seq<Node>, ghost k: nat)
    requires Ring(head, q) && k <= |q| && queue == At(head, q, k)
    requires entry != head && entry !in q
    modifies entry`next, entry`prev, queue`next, queue.next`prev
    ensures Ring(head, InsertAt(q, k, entry))
  {
    SameRest(head, q, k);
    assert At(head, q, k).next == At(head, q, k + 1);
    entry.prev := queue;
    entry.next := queue.next;
    queue.next.prev := entry;
    queue.next := entry;
    Linked(head, q, k, entry);
  }

  /** queue_delete. */
  method Delete(entry: Node, ghost head: Node, ghost q: seq<Node>, ghost k: nat)
    requires Ring(head, q) && k < |q| && q[k] == entry
    modifies entry.prev`next, entry.next`prev
    ensures Ring(head, DeleteAt(q, k))
    ensures Ascending(Priorities(q)) ==> Ascending(Priorities(DeleteAt(q, k)))
  {
    ghost var a, b := entry.prev, entry.next;
    assert a == At(head, q, k) && b == At(head, q, k + 2) by {
      assert At(head, q, k + 1) == entry;
    }
    Apart(head, q, k, k + 1);
    Apart(head, q, k + 1, k + 2);
    entry.prev.next := entry.next;
    entry.next.prev := entry.prev;
    Unlinked(head, q, k);
    if Ascending(Priorities(q)) {
      DeleteOrder(q, k);
    }
  }

  /** queue_delete_next on the header of a ring that is not empty. */
  method DeleteNext(queue: Node, ghost q: seq<Node>) returns (entry: Node)
    requires Ring(queue, q) && q != []
    modifies queue`next, queue.next.next`prev
    ensures entry == q[0] && Ring(queue, q[1..])
  {
    assert At(queue, q, 0) == queue && At(queue, q, 1) == q[0];
    Apart(queue, q, 0, 1);
    Apart(queue, q, 1, 2);
    entry := queue.next;
    queue.next := entry.next;
    entry.next.prev := queue;
    Unlinked(queue, q, 0);
    assert DeleteAt(q, 0) == q[1..];
  }

  /** queue_empty; the assertion in it holds. */
  method Empty(queue: Node, ghost q: seq<Node>) returns (empty: bool)
    requires Ring(queue, q)
    ensures empty <==> q == []
  {
    assert At(queue, q, 0) == queue && At(queue, q, |q| + 1) == queue;
    assert At(queue, q, 0).next == At(queue, q, 1);
    assert At(queue, q, |q| + 1).prev == At(queue, q, |q|);
    if queue.next == queue {
      assert queue.prev == queue;
      return true;
    }
    return false;
  }

  // ---- insertion by priority ----------------------------------------------------------

  ghost function Priorities(q: seq<Node>): (r: seq<int>)
    reads q`priority
    ensures |r| == |q|
  {
    if q == [] then [] else [q[0].priority] + Priorities(q[1..])
  }

  lemma {:induction false} PrioritiesAt(q: seq<Node>)
    ensures forall i :: 0 <= i < |q| ==> Priorities(q)[i] == q[i].priority
  {
    if q != [] {
      PrioritiesAt(q[1..]);
      forall i | 0 <= i < |q| ensures Priorities(q)[i] == q[i].priority {
        if i > 0 {
          assert Priorities(q)[i] == Priorities(q[1..])[i - 1] && q[i] == q[1..][i - 1];
        }
      }
    }
  }

  /** Where an entry of priority pri goes: before the first of lower priority. */
  function Rank(ps: seq<int>, pri: int): (k: nat)
    ensures k <= |ps|
    ensures forall i :: 0 <= i < k ==> ps[i] <= pri
    ensures k < |ps| ==> pri < ps[k]
  {
    if ps == [] || pri < ps[0] then 0 else 1 + Rank(ps[1..], pri)
  }

  ghost predicate Ascending(ps: seq<int>) {
    forall i, j :: 0 <= i < j < |ps| ==> ps[i] <= ps[j]
  }

  /** The list stays in priority order, the new entry going after its equals: all of
      them stand before it, and only entries of lower priority after it. */
  lemma RankKeepsOrder(ps: seq<int>, pri: int)
    requires Ascending(ps)
    ensures var k := Rank(ps, pri);
      && Ascending(ps[..k] + [pri] + ps[k..])
      && (forall i :: 0 <= i < |ps| ==> (i < k <==> ps[i] <= pri))
  {
  }

  lemma DeleteKeepsOrder(ps: seq<int>, k: nat)
    requires Ascending(ps) && k < |ps|
    ensures Ascending(ps[..k] + ps[k + 1..])
  {
  }

  lemma {:induction false} PrioritiesAppend(q: seq<Node>, r: seq<Node>)
    ensures Priorities(q + r) == Priorities(q) + Priorities(r)
  {
    if q == [] {
      assert q + r == r;
    } else {
      PrioritiesAppend(q[1..], r);
      assert (q + r)[1..] == q[1..] + r;
    }
  }

  lemma PrioritiesInsert(q: seq<Node>, k: nat, e: Node)
    requires k <= |q|
    ensures Priorities(InsertAt(q, k, e)) == Priorities(q)[..k] + [e.priority] + Priorities(q)[k..]
  {
    PrioritiesAppend(q[..k] + [e], q[k..]);
    PrioritiesAppend(q[..k], [e]);
    PrioritiesAppend(q[..k], q[k..]);
    assert q[..k] + q[k..] == q;
    assert Priorities([e]) == [e.priority];
  }

  lemma PrioritiesDelete(q: seq<Node>, k: nat)
    requires k < |q|
    ensures Priorities(DeleteAt(q, k)) == Priorities(q)[..k] + Priorities(q)[k + 1..]
  {
    hide Priorities, InsertAt, DeleteAt;
    PutBack(q, k);
    PrioritiesInsert(DeleteAt(q, k), k, q[k]);
    CutOut(Priorities(DeleteAt(q, k)), k, q[k].priority);
  }

  lemma PutBack(q: seq<Node>, k: nat)
    requires k < |q|
    ensures |DeleteAt(q, k)| == |q| - 1 && InsertAt(DeleteAt(q, k), k, q[k]) == q
  {
  }

  lemma CutOut(ps: seq<int>, k: nat, x: int)
    requires k <= |ps|
    ensures var all := ps[..k] + [x] + ps[k..]; all[..k] + all[k + 1..] == ps
  {
  }

  /** The ring after an insertion by priority is in priority order, the new entry standing
      after all entries of the same or higher priority and before all others. */
  lemma InsertOrder(q: seq<Node>, e: Node)
    requires Ascending(Priorities(q))
    ensures var k := Rank(Priorities(q), e.priority);
      && Ascending(Priorities(InsertAt(q, k, e)))
      && (forall i :: 0 <= i < |q| ==> (i < k <==> q[i].priority <= e.priority))
  {
    hide Priorities, Rank;
    PrioritiesAt(q);
    var k := Rank(Priorities(q), e.priority);
    RankKeepsOrder(Priorities(q), e.priority);
    PrioritiesInsert(q, k, e);
    forall i | 0 <= i < |q| ensures i < k <==> q[i].priority <= e.priority {
      assert Priorities(q)[i] == q[i].priority;
    }
  }

  lemma DeleteOrder(q: seq<Node>, k: nat)
    requires k < |q| && Ascending(Priorities(q))
    ensures Ascending(Priorities(DeleteAt(q, k)))
  {
    hide Priorities;
    PrioritiesDelete(q, k);
    DeleteKeepsOrder(Priorities(q), k);
  }

  /** queue_insert_tpri, and enqueue_isr, which has the same loop. */
  method InsertByPriority(queue: Node, entry: Node, ghost q: seq<Node>)
    requires Ring(queue, q) && entry != queue && entry !in q
    modifies entry`next, entry`prev, queue`next, queue`prev, q`next, q`prev
    ensures Ring(queue, InsertAt(q, Rank(Priorities(q), entry.priority), entry))
    ensures Ascending(Priorities(q)) ==> Ascending(Priorities(InsertAt(q, Rank(Priorities(q), entry.priority), entry)))
  {
    hide Priorities, Rank, Ascending;
    var pri := entry.priority;
    var e := queue.next;
    ghost var k := 0;
    PrioritiesAt(q);
    assert At(queue, q, 0) == queue;
    while e != queue && pri >= e.priority
      invariant 0 <= k <= |q| && e == At(queue, q, k + 1)
      invariant forall i :: 0 <= i < k ==> q[i].priority <= pri
      decreases |q| - k
    {
      assert At(queue, q, k + 1).next == At(queue, q, k + 2);
      e := e.next;
      k := k + 1;
    }
    RankIs(Priorities(q), pri, k);
    assert At(queue, q, k + 1).prev == At(queue, q, k);
    InsertPrev(e, entry, queue, q, k);
    if Ascending(Priorities(q)) {
      InsertOrder(q, entry);
    }
  }

  lemma RankIs(ps: seq<int>, pri: int, k: nat)
    requires k <= |ps| && (forall i :: 0 <= i < k ==> ps[i] <= pri) && (k < |ps| ==> pri < ps[k])
    ensures Rank(ps, pri) == k
  {
  }

  /** wobj_change_priority: out of the ring and in again by the new priority, which the entry
      already has.  The ring is in order afterwards if the others were. */
  method ChangePriority(queue: Node, entry: Node, ghost q: seq<Node>, ghost k: nat)
    requires Ring(queue, q) && k < |q| && q[k] == entry
    modifies queue`next, queue`prev, q`next, q`prev
    ensures var r := DeleteAt(q, k); Ring(queue, InsertAt(r, Rank(Priorities(r), entry.priority), entry))
    ensures var r := DeleteAt(q, k);
      Ascending(Priorities(r)) ==> Ascending(Priorities(InsertAt(r, Rank(Priorities(r), entry.priority), entry)))
  {
    DeletedAt(queue, q, k);
    assert At(queue, q, k + 1) == entry;
    assert At(queue, q, k + 1).prev == At(queue, q, k);
    assert At(queue, q, k + 1).next == At(queue, q, k + 2);
    Delete(entry, queue, q, k);
    InsertByPriority(queue, entry, DeleteAt(q, k));
  }

  // ---- the ring operations are the list operations of the kernel model ---------------

  ghost function Owners(q: seq<Node>): (r: seq<Tid>)
    reads q`owner
    ensures |r| == |q| && forall i :: 0 <= i < |q| ==> r[i] == q[i].owner
  {
    if q == [] then [] else [q[0].owner] + Owners(q[1..])
  }

  /** Every entry is the task_queue of the control block tcb[owner]. */
  ghost predicate Linking(q: seq<Node>, tcb: seq<Tcb>)
    reads q`owner, q`priority
  {
    forall i :: 0 <= i < |q| ==> q[i].owner < |tcb| && tcb[q[i].owner].pri == q[i].priority
  }

  lemma {:induction false} RankIsTpri(q: seq<Node>, pri: Pri, tcb: seq<Tcb>)
    requires Linking(q, tcb)
    ensures Rank(Priorities(q), pri) == TpriPos(Owners(q), pri, tcb)
  {
    if q != [] && q[0].priority <= pri {
      RankIsTpri(q[1..], pri, tcb);
      assert Owners(q)[1..] == Owners(q[1..]);
      assert Priorities(q)[1..] == Priorities(q[1..]);
    }
  }

  /** Insertion by priority on the ring is InsertTpri on the list of task numbers. */
  lemma RingInsertIsTpri(q: seq<Node>, e: Node, tcb: seq<Tcb>)
    requires Linking(q, tcb) && e.owner < |tcb| && tcb[e.owner].pri == e.priority
    ensures Owners(InsertAt(q, Rank(Priorities(q), e.priority), e)) == InsertTpri(Owners(q), e.owner, tcb[e.owner].pri, tcb)
  {
    hide Owners, Priorities, Rank, InsertTpri, TpriPos, InsertAt;
    RankIsTpri(q, tcb[e.owner].pri, tcb);
    InsertTpriSplit(Owners(q), e.owner, tcb[e.owner].pri, tcb);
    OwnersInsert(q, Rank(Priorities(q), e.priority), e);
  }

  lemma OwnersAppend(q: seq<Node>, r: seq<Node>)
    ensures Owners(q + r) == Owners(q) + Owners(r)
  {
    hide Owners;
    forall i | 0 <= i < |q + r| ensures Owners(q + r)[i] == (Owners(q) + Owners(r))[i] {
      assert (q + r)[i] == if i < |q| then q[i] else r[i - |q|];
    }
  }

  lemma OwnersInsert(q: seq<Node>, k: nat, e: Node)
    requires k <= |q|
    ensures Owners(InsertAt(q, k, e)) == Owners(q)[..k] + [e.owner] + Owners(q)[k..]
  {
    OwnersAppend(q[..k] + [e], q[k..]);
    OwnersAppend(q[..k], [e]);
    OwnersAppend(q[..k], q[k..]);
    assert q[..k] + q[k..] == q;
    assert Owners([e]) == [e.owner];
  }

  /** Deletion from the ring is Remove on the list of task numbers. */
  lemma RingDeleteIsRemove(q: seq<Node>, k: nat)
    requires k < |q| && NoDup(Owners(q))
    ensures Owners(DeleteAt(q, k)) == Remove(Owners(q), q[k].owner)
  {
    hide Owners, Remove, NoDup;
    RemoveAt(Owners(q), k);
    OwnersDelete(q, k);
  }

  lemma OwnersDelete(q: seq<Node>, k: nat)
    requires k < |q|
    ensures Owners(DeleteAt(q, k)) == Owners(q)[..k] + Owners(q)[k + 1..]
  {
    hide Owners;
    var r, os := DeleteAt(q, k), Owners(q);
    var rs := os[..k] + os[k + 1..];
    assert |r| == |rs|;
    forall i | 0 <= i < |r| ensures Owners(r)[i] == rs[i] {
      assert r[i] == if i < k then q[i] else q[i + 1];
    }
  }

  lemma {:induction false} RemoveAt(q: seq<Tid>, k: nat)
    requires k < |q| && NoDup(q)
    ensures Remove(q, q[k]) == q[..k] + q[k + 1..]
  {
    if k > 0 {
      RemoveAt(q[1..], k - 1);
      assert q[..k] + q[k + 1..] == [q[0]] + (q[1..][..k - 1] + q[1..][k..]);
    }
  }
}
