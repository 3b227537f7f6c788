/** The event heap in place: the array, the positions kept in the event blocks, and the
    node moves of the C code, proved to insert, delete and keep exactly the right events. */
module EventHeap {
  import opened Lists
  import opened TimeHeap

  class EventHeap {
    const w: nat            // event times are of a type with w values
    const heap: array<Node> // TMEVT_NODE(i) is heap[i]
    const index: array<nat> // the index field of each event block
    var lastIndex: nat
    var minTime: nat

    ghost predicate Shaped()
      reads this
    {
      w > 0 && heap.Length == index.Length + 1 && lastIndex < heap.Length
    }

    ghost predicate Valid()
      reads this, heap, index
    {
      && Shaped()
      && Ordered(heap[..], lastIndex, 0, w, minTime)
      && Indexed(heap[..], index[..], lastIndex, 0)
    }

    /** The event time of block b, when it is registered. */
    ghost function When(b: nat): Option<nat>
      reads this, heap, index
    {
      Due(heap[..], index[..], lastIndex, 0, b)
    }

    ghost function WhenBut(hole: nat, b: nat): Option<nat>
      reads this, heap, index
    {
      Due(heap[..], index[..], lastIndex, hole, b)
    }

    constructor (width: nat, blocks: nat)
      requires width > 0
      ensures Valid() && w == width && index.Length == blocks && minTime == 0 && lastIndex == 0
      ensures forall b: nat :: When(b) == None
      ensures fresh(heap) && fresh(index)
    {
      w := width;
      heap := new Node[blocks + 1](_ => Node(0, 0));
      index := new nat[blocks](_ => 0);
      lastIndex := 0;
      minTime := 0;
    }

    /** tmevt_up: the hole moves up to where a node of the given time belongs. */
    method Up(start: nat, time: nat) returns (i: nat)
      requires Shaped() && 1 <= start <= lastIndex
      requires Indexed(heap[..], index[..], lastIndex, start)
      requires Rising(heap[..], lastIndex, start, w, minTime, time)
      modifies heap, index
      ensures 1 <= i <= lastIndex && Indexed(heap[..], index[..], lastIndex, i)
      ensures Rising(heap[..], lastIndex, i, w, minTime, time)
      ensures i > 1 ==> Le(w, minTime, heap[i / 2].time, time)
      ensures forall b: nat :: WhenBut(i, b) == old(WhenBut(start, b))
      ensures forall k :: lastIndex < k < heap.Length ==> heap[k] == old(heap[k])
    {
      hide Rel, Indexed, Rising, Due;
      i := start;
      while i > 1
        invariant 1 <= i <= lastIndex && Indexed(heap[..], index[..], lastIndex, i)
        invariant Rising(heap[..], lastIndex, i, w, minTime, time)
        invariant forall b: nat :: WhenBut(i, b) == old(WhenBut(start, b))
        invariant forall k :: lastIndex < k < heap.Length ==> heap[k] == old(heap[k])
      {
        var parent := i / 2;
        if Le(w, minTime, heap[parent].time, time) {
          break;
        }
        StepUp(heap[..], lastIndex, i, w, minTime, time);
        MoveNode(i, parent);
        i := parent;
      }
    }

    /** One node moves into the hole. */
    method MoveNode(hole: nat, src: nat)
      requires Shaped() && 1 <= hole <= lastIndex && 1 <= src <= lastIndex && src != hole
      requires Indexed(heap[..], index[..], lastIndex, hole)
      modifies heap, index
      ensures heap[..] == old(heap[..])[hole := old(heap[src])]
      ensures Indexed(heap[..], index[..], lastIndex, src)
      ensures forall b: nat :: WhenBut(src, b) == old(WhenBut(hole, b))
    {
      Move(heap[..], index[..], lastIndex, hole, src);
      heap[hole] := heap[src];
      index[heap[hole].blk] := hole;
    }

    /** tmevt_down: the hole moves down to where a node of the given time belongs. */
    method Down(start: nat, time: nat) returns (i: nat)
      requires Shaped() && 1 <= start <= lastIndex + 1
      requires Indexed(heap[..], index[..], lastIndex, start)
      requires Sinking(heap[..], lastIndex, start, w, minTime, time)
      modifies heap, index
      ensures 1 <= i <= lastIndex + 1 && Indexed(heap[..], index[..], lastIndex, i)
      ensures start == lastIndex + 1 ==> i == start
      ensures start <= lastIndex ==> i <= lastIndex
      ensures Sinking(heap[..], lastIndex, i, w, minTime, time)
      ensures forall c :: 2 <= c <= lastIndex && c / 2 == i ==> Le(w, minTime, time, heap[c].time)
      ensures forall b: nat :: WhenBut(i, b) == old(WhenBut(start, b))
      ensures forall k :: lastIndex < k < heap.Length ==> heap[k] == old(heap[k])
      ensures start > lastIndex ==> heap[..] == old(heap[..]) && index[..] == old(index[..])
    {
      hide Rel, Indexed, Sinking, Due;
      i := start;
      while 2 * i <= lastIndex
        invariant 1 <= i <= lastIndex + 1 && Indexed(heap[..], index[..], lastIndex, i)
        invariant start == lastIndex + 1 ==> i == start
        invariant start <= lastIndex ==> i <= lastIndex
        invariant Sinking(heap[..], lastIndex, i, w, minTime, time)
        invariant forall b: nat :: WhenBut(i, b) == old(WhenBut(start, b))
        invariant forall k :: lastIndex < k < heap.Length ==> heap[k] == old(heap[k])
        invariant start > lastIndex ==> heap[..] == old(heap[..]) && index[..] == old(index[..])
        decreases lastIndex - i
      {
        var child := 2 * i;
        if child + 1 <= lastIndex && !Le(w, minTime, heap[child].time, heap[child + 1].time) {
          child := child + 1;
        }
        assert forall c :: 2 <= c <= lastIndex && c / 2 == i ==> c == 2 * i || c == 2 * i + 1;
        if Le(w, minTime, time, heap[child].time) {
          break;
        }
        StepDown(heap[..], lastIndex, i, w, minTime, time, child);
        MoveNode(i, child);
        i := child;
      }
    }

    /** tmevtb_insert. */
    method Insert(blk: nat, time: nat)
      requires Valid() && blk < index.Length && When(blk) == None
      modifies this`lastIndex, heap, index
      ensures Valid() && lastIndex == old(lastIndex) + 1
      ensures forall b: nat :: When(b) == if b == blk then Some(time) else old(When(b))
    {
      hide Rel, Rising, Due;
      Room(heap[..], index[..], lastIndex, blk);
      Grow(heap[..], index[..], lastIndex, w, minTime, time);
      lastIndex := lastIndex + 1;
      assert forall b: nat :: WhenBut(lastIndex, b) == old(When(b));
      var i := Up(lastIndex, time);
      assert WhenBut(i, blk) == None;
      EndUp(heap[..], lastIndex, i, w, minTime, Node(time, blk));
      Fill(heap[..], index[..], lastIndex, i, Node(time, blk));
      heap[i] := Node(time, blk);
      index[blk] := i;
    }

    /** tmevtb_delete. */
    method Delete(blk: nat)
      requires Valid() && When(blk).Some?
      modifies this`lastIndex, heap, index
      ensures Valid() && lastIndex == old(lastIndex) - 1
      ensures forall b: nat :: When(b) == if b == blk then None else old(When(b))
    {
      hide Rel, Rising, Sinking, Due, Ordered;
      Shrink(heap[..], index[..], lastIndex, w, minTime, blk);
      var i := index[blk];
      var n := heap[lastIndex];
      lastIndex := lastIndex - 1;
      assert forall b: nat :: WhenBut(i, b) == if b == blk || b == n.blk then None else old(When(b));
      if lastIndex == 0 {
        NoneLeft(heap[..], index[..], w, minTime);
        return;
      }
      i := FindPlace(i, n);
      PutBack(i, n);
    }

    /** The hole left by tmevtb_delete moves up or down to where the last node belongs. */
    method FindPlace(start: nat, n: Node) returns (i: nat)
      requires Shaped() && 1 <= start <= lastIndex + 1 < heap.Length && lastIndex > 0 && heap[lastIndex + 1] == n
      requires Indexed(heap[..], index[..], lastIndex, start)
      requires if start > 1 && !Le(w, minTime, heap[start / 2].time, n.time)
        then start <= lastIndex && Rising(heap[..], lastIndex, start, w, minTime, n.time)
        else Sinking(heap[..], lastIndex, start, w, minTime, n.time)
      requires start == lastIndex + 1 ==> Ordered(heap[..], lastIndex, 0, w, minTime)
      modifies heap, index
      ensures 1 <= i <= lastIndex + 1 && (i == lastIndex + 1 <==> start == lastIndex + 1)
      ensures Indexed(heap[..], index[..], lastIndex, i) && heap[lastIndex + 1] == n
      ensures Ordered(heap[..][i := n], lastIndex, 0, w, minTime)
      ensures forall b: nat :: WhenBut(i, b) == old(WhenBut(start, b))
      ensures start == lastIndex + 1 ==> index[..] == old(index[..])
    {
      hide Rel, Rising, Sinking, Due, Indexed, Ordered;
      i := start;
      if i > 1 && !Le(w, minTime, heap[i / 2].time, n.time) {
        var parent := i / 2;
        StepUp(heap[..], lastIndex, i, w, minTime, n.time);
        MoveNode(i, parent);
        i := Up(parent, n.time);
        EndUp(heap[..], lastIndex, i, w, minTime, n);
      } else {
        i := Down(i, n.time);
        if i <= lastIndex {
          EndDown(heap[..], lastIndex, i, w, minTime, n);
        } else {
          assert heap[..][i := n] == heap[..];
        }
      }
    }

    /** The last node, no longer counted, goes where the hole stopped. */
    method PutBack(i: nat, ghost n: Node)
      requires Shaped() && 1 <= i <= lastIndex + 1 < heap.Length && heap[lastIndex + 1] == n
      requires n.blk < index.Length && Indexed(heap[..], index[..], lastIndex, i)
      requires if i <= lastIndex then WhenBut(i, n.blk) == None else index[n.blk] == i
      requires Ordered(heap[..][i := n], lastIndex, 0, w, minTime)
      modifies heap, index
      ensures Valid()
      ensures forall b: nat :: When(b) == if b == n.blk && i <= lastIndex then Some(n.time) else old(WhenBut(i, b))
    {
      hide Rel, Ordered, Due;
      if i <= lastIndex {
        Fill(heap[..], index[..], lastIndex, i, n);
      } else {
        NoFill(heap[..], index[..], lastIndex, n);
      }
      heap[i] := heap[lastIndex + 1];
      index[heap[i].blk] := i;
    }

    /** tmevtb_delete_top. */
    method DeleteTop()
      requires Valid() && lastIndex > 0
      modifies this`lastIndex, heap, index
      ensures Valid() && lastIndex == old(lastIndex) - 1
      ensures forall b: nat :: When(b) == if b == old(heap[1].blk) then None else old(When(b))
    {
      hide Rel, Rising, Sinking, Due;
      var n := heap[lastIndex];
      DueAt(heap[..], index[..], lastIndex, 0, 1);
      Shrink(heap[..], index[..], lastIndex, w, minTime, heap[1].blk);
      lastIndex := lastIndex - 1;
      assert forall b: nat :: WhenBut(1, b) == if b == old(heap[1].blk) || b == n.blk then None else old(When(b));
      if lastIndex == 0 {
        NoneLeft(heap[..], index[..], w, minTime);
        return;
      }
      var i := Down(1, n.time);
      EndDown(heap[..], lastIndex, i, w, minTime, n);
      PutBack(i, n);
    }

    /** The root holds an event, and none is earlier. */
    lemma TopFirst(b: nat)
      requires Valid() && When(b).Some?
      ensures lastIndex > 0 && When(heap[1].blk) == Some(heap[1].time)
      ensures Le(w, minTime, heap[1].time, When(b).value)
    {
      RootFirst(heap[..], lastIndex, w, minTime, index[b]);
      DueAt(heap[..], index[..], lastIndex, 0, 1);
    }

    /** The heap holds exactly one node for each registered block: the array, with one
        place for each event block, never overflows. */
    lemma Fits()
      requires Valid()
      ensures lastIndex == |set b | 0 <= b < index.Length && When(b).Some?| <= index.Length < heap.Length
    {
      CountIs(heap[..], index[..], lastIndex);
      assert Registered(heap[..], index[..], lastIndex) == set b | 0 <= b < index.Length && When(b).Some?;
    }

    /** min_time moves to a time no event is before: the heap stays a heap. */
    method Slide(newMin: nat)
      requires Valid()
      requires forall b: nat :: When(b).Some? ==> Le(w, minTime, newMin, When(b).value)
      modifies this`minTime
      ensures Valid() && minTime == newMin && lastIndex == old(lastIndex)
      ensures forall b: nat :: When(b) == old(When(b))
    {
      forall b: nat | Due(heap[..], index[..], lastIndex, 0, b).Some?
        ensures Le(w, minTime, newMin, Due(heap[..], index[..], lastIndex, 0, b).value)
      {
        assert When(b).Some?;
      }
      SlideOrdered(heap[..], index[..], lastIndex, w, minTime, newMin);
      minTime := newMin;
    }
  }

  /** One more position, empty, at the end. */
  lemma Grow(h: seq<Node>, idx: seq<nat>, last: nat, w: nat, min: nat, time: nat)
    requires w > 0 && last + 1 < |h| && Ordered(h, last, 0, w, min) && Indexed(h, idx, last, 0)
    ensures Indexed(h, idx, last + 1, last + 1) && Rising(h, last + 1, last + 1, w, min, time)
    ensures forall b: nat :: Due(h, idx, last + 1, last + 1, b) == Due(h, idx, last, 0, b)
  {
  }

  /** The last node leaves the heap and the place of block blk becomes the hole. */
  lemma Shrink(h: seq<Node>, idx: seq<nat>, last: nat, w: nat, min: nat, blk: nat)
    requires w > 0 && last < |h| && Ordered(h, last, 0, w, min) && Indexed(h, idx, last, 0)
    requires Due(h, idx, last, 0, blk).Some?
    ensures last >= 1 && blk < |idx| && 1 <= idx[blk] <= last && h[last].blk < |idx|
    ensures var i := idx[blk]; var n := h[last]; var l1 := last - 1;
      && Indexed(h, idx, l1, i)
      && (forall b: nat :: Due(h, idx, l1, i, b) == if b == blk || b == n.blk then None else Due(h, idx, last, 0, b))
      && (i <= l1 ==> n.blk != blk && Due(h, idx, last, 0, n.blk) == Some(n.time))
      && (i == last ==> n.blk == blk && h[i] == n && Ordered(h, l1, 0, w, min))
      && (if i > 1 && !Le(w, min, h[i / 2].time, n.time) then i <= l1 && Rising(h, l1, i, w, min, n.time)
          else Sinking(h, l1, i, w, min, n.time))
  {
    hide Rel;
  }

  /** Writing the last node back to its own place, out of the heap, changes nothing. */
  lemma NoFill(h: seq<Node>, idx: seq<nat>, last: nat, n: Node)
    requires last + 1 < |h| && h[last + 1] == n && n.blk < |idx| && idx[n.blk] == last + 1
    requires Indexed(h, idx, last, last + 1)
    ensures h[last + 1 := n] == h && idx[n.blk := last + 1] == idx && Indexed(h, idx, last, 0)
    ensures forall b: nat :: Due(h, idx, last, 0, b) == Due(h, idx, last, last + 1, b)
  {
  }

  lemma NoneLeft(h: seq<Node>, idx: seq<nat>, w: nat, min: nat)
    requires w > 0 && |h| > 0
    ensures Ordered(h, 0, 0, w, min) && Indexed(h, idx, 0, 0)
    ensures forall hole, b: nat :: Due(h, idx, 0, hole, b) == None
  {
  }

  lemma SlideOrdered(h: seq<Node>, idx: seq<nat>, last: nat, w: nat, min: nat, min1: nat)
    requires w > 0 && last < |h| && Ordered(h, last, 0, w, min) && Indexed(h, idx, last, 0)
    requires forall b: nat :: Due(h, idx, last, 0, b).Some? ==> Le(w, min, min1, Due(h, idx, last, 0, b).value)
    ensures Ordered(h, last, 0, w, min1)
  {
    hide Rel;
    forall i | 1 <= i <= last ensures Rel(w, min1, h[i].time) == Rel(w, min, h[i].time) - Rel(w, min, min1) {
      DueAt(h, idx, last, 0, i);
      RelSlide(w, min, min1, h[i].time);
    }
  }
}
