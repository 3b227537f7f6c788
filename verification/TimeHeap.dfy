/** The event heap on values: a binary heap in positions 1 to last (position i is
    TMEVT_NODE(i); position 0 is not used), with event times of
    a word width W compared relative to min_time, an index kept in every event block,
    and one position that may be empty (the hole) while a node is on its way. */
module TimeHeap {
  import opened Arith
  import opened Lists

  /** A heap node: the event time and the number of the event block. */
  datatype Node = Node(time: nat, blk: nat)

  // ---- times --------------------------------------------------------------------------

  /** t - min_time in unsigned arithmetic of width w. */
  function Rel(w: nat, min: nat, t: nat): (r: nat)
    requires w > 0
    ensures r < w
  {
    (t as int - min as int) % w
  }

  /** EVTTIM_LE. */
  predicate Le(w: nat, min: nat, t1: nat, t2: nat)
    requires w > 0
  {
    Rel(w, min, t1) <= Rel(w, min, t2)
  }

  /** A time in the window of width w from min is as far from min as it looks. */
  lemma RelOf(w: nat, min: nat, t: nat)
    requires w > 0 && min <= t < min + w
    ensures Rel(w, min % w, t % w) == t - min
  {
    ModDiff(w, min, t);
    Small(t - min, w);
  }

  lemma ModDiff(w: nat, a: nat, b: nat)
    requires w > 0
    ensures (b % w - a % w) % w == (b - a) % w
  {
    var qa, qb := a / w, b / w;
    assert b - a == (b % w - a % w) + w * (qb - qa);
    AddMultiple(b % w - a % w, qb - qa, w);
  }

  /** min_time slides forward to a time that is not past any of the events: all their
      distances shrink by the same amount, so their order stays, whatever wraps. */
  lemma RelSlide(w: nat, min: nat, min1: nat, t: nat)
    requires w > 0 && Rel(w, min, min1) <= Rel(w, min, t)
    ensures Rel(w, min1, t) == Rel(w, min, t) - Rel(w, min, min1)
  {
    var a, b := Rel(w, min, t), Rel(w, min, min1);
    var qa, qb := (t as int - min) / w, (min1 as int - min) / w;
    assert t as int - min1 == (a - b) + w * (qa - qb);
    AddMultiple(a - b, qa - qb, w);
    Small(a - b, w);
  }

  // ---- the heap -----------------------------------------------------------------------

  /** Parents are not later than their children, apart from the hole. */
  ghost predicate Ordered(h: seq<Node>, last: nat, hole: nat, w: nat, min: nat)
    requires w > 0 && last < |h|
  {
    forall i :: 2 <= i <= last && i != hole && i / 2 != hole ==> Le(w, min, h[i / 2].time, h[i].time)
  }

  /** The parent of the hole is not later than the children of the hole. */
  ghost predicate Bridged(h: seq<Node>, last: nat, hole: nat, w: nat, min: nat)
    requires w > 0 && last < |h|
  {
    forall c :: 4 <= c <= last && c / 2 == hole && hole / 2 < |h| ==>
      Le(w, min, h[hole / 2].time, h[c].time)
  }

  /** Every block in the heap knows its position. */
  ghost predicate Indexed(h: seq<Node>, idx: seq<nat>, last: nat, hole: nat) {
    && last < |h|
    && forall i :: 1 <= i <= last && i != hole ==> h[i].blk < |idx| && idx[h[i].blk] == i
  }

  /** The time at which block b is registered. */
  ghost function Due(h: seq<Node>, idx: seq<nat>, last: nat, hole: nat, b: nat): Option<nat> {
    if b < |idx| && 1 <= idx[b] <= last && idx[b] < |h| && idx[b] != hole && h[idx[b]].blk == b
    then Some(h[idx[b]].time) else None
  }

  /** Every position in use holds a registered block. */
  lemma DueAt(h: seq<Node>, idx: seq<nat>, last: nat, hole: nat, i: nat)
    requires Indexed(h, idx, last, hole) && 1 <= i <= last && i != hole
    ensures Due(h, idx, last, hole, h[i].blk) == Some(h[i].time)
  {
  }

  /** Moving a node into the hole makes its old place the hole, and registers the same
      blocks at the same times. */
  lemma Move(h: seq<Node>, idx: seq<nat>, last: nat, hole: nat, src: nat)
    requires Indexed(h, idx, last, hole) && 1 <= hole < |h| && 1 <= src <= last && src != hole
    requires hole <= last
    ensures var h1 := h[hole := h[src]]; var idx1 := idx[h[src].blk := hole];
      && Indexed(h1, idx1, last, src)
      && forall b: nat :: Due(h1, idx1, last, src, b) == Due(h, idx, last, hole, b)
  {
  }

  /** Filling the hole registers one more block. */
  lemma Fill(h: seq<Node>, idx: seq<nat>, last: nat, hole: nat, n: Node)
    requires Indexed(h, idx, last, hole) && 1 <= hole <= last && n.blk < |idx|
    requires Due(h, idx, last, hole, n.blk) == None
    ensures var h1 := h[hole := n]; var idx1 := idx[n.blk := hole];
      && Indexed(h1, idx1, last, 0)
      && forall b: nat :: Due(h1, idx1, last, 0, b) == if b == n.blk then Some(n.time) else Due(h, idx, last, hole, b)
  {
  }

  /** In a heap no event is earlier than the one at the root. */
  lemma {:induction false} RootFirst(h: seq<Node>, last: nat, w: nat, min: nat, i: nat)
    requires w > 0 && last < |h| && Ordered(h, last, 0, w, min) && 1 <= i <= last
    ensures Le(w, min, h[1].time, h[i].time)
    decreases i
  {
    if i > 1 {
      RootFirst(h, last, w, min, i / 2);
    }
  }

  ghost function Registered(h: seq<Node>, idx: seq<nat>, last: nat): set<nat> {
    set b | 0 <= b < |idx| && Due(h, idx, last, 0, b).Some?
  }

  /** last_index is the number of registered event blocks, so it never passes the number
      of event blocks there are. */
  lemma {:induction false} CountIs(h: seq<Node>, idx: seq<nat>, last: nat)
    requires Indexed(h, idx, last, 0)
    ensures |Registered(h, idx, last)| == last <= |idx|
    decreases last
  {
    if last == 0 {
      assert Registered(h, idx, 0) == {};
    } else {
      var b := h[last].blk;
      CountIs(h, idx, last - 1);
      assert Registered(h, idx, last) == Registered(h, idx, last - 1) + {b};
      assert b !in Registered(h, idx, last - 1);
    }
    Below(Registered(h, idx, last), |idx|);
  }

  /** A block that is not registered leaves room in the heap for it. */
  lemma Room(h: seq<Node>, idx: seq<nat>, last: nat, blk: nat)
    requires Indexed(h, idx, last, 0) && blk < |idx| && Due(h, idx, last, 0, blk) == None
    ensures last < |idx|
  {
    CountIs(h, idx, last);
    var s := Registered(h, idx, last) + {blk};
    Below(s, |idx|);
  }

  lemma {:induction false} Below(s: set<nat>, n: nat)
    requires forall b :: b in s ==> b < n
    ensures |s| <= n
  {
    if n == 0 {
      assert s == {};
    } else {
      Below(s - {n - 1}, n - 1);
    }
  }

  // ---- the steps of the hole ----------------------------------------------------------

  /** The time on its way up is not later than the children of the hole. */
  ghost predicate Rising(h: seq<Node>, last: nat, hole: nat, w: nat, min: nat, time: nat)
    requires w > 0 && last < |h|
  {
    && Ordered(h, last, hole, w, min) && Bridged(h, last, hole, w, min)
    && forall c :: 2 <= c <= last && c / 2 == hole ==> Le(w, min, time, h[c].time)
  }

  /** The time on its way down is not earlier than the parent of the hole. */
  ghost predicate Sinking(h: seq<Node>, last: nat, hole: nat, w: nat, min: nat, time: nat)
    requires w > 0 && last < |h|
  {
    && Ordered(h, last, hole, w, min) && Bridged(h, last, hole, w, min)
    && (2 <= hole <= last + 1 ==> Le(w, min, h[hole / 2].time, time))
  }

  lemma StepUp(h: seq<Node>, last: nat, hole: nat, w: nat, min: nat, time: nat)
    requires w > 0 && last < |h| && 2 <= hole <= last && Rising(h, last, hole, w, min, time)
    requires !Le(w, min, h[hole / 2].time, time)
    ensures Rising(h[hole := h[hole / 2]], last, hole / 2, w, min, time)
  {
    hide Rel;
  }

  lemma EndUp(h: seq<Node>, last: nat, hole: nat, w: nat, min: nat, n: Node)
    requires w > 0 && last < |h| && 1 <= hole <= last && Rising(h, last, hole, w, min, n.time)
    requires hole > 1 ==> Le(w, min, h[hole / 2].time, n.time)
    ensures Ordered(h[hole := n], last, 0, w, min)
  {
    hide Rel;
  }

  lemma StepDown(h: seq<Node>, last: nat, hole: nat, w: nat, min: nat, time: nat, child: nat)
    requires w > 0 && last < |h| && 1 <= hole <= last && Sinking(h, last, hole, w, min, time)
    requires child / 2 == hole && 2 <= child <= last && !Le(w, min, time, h[child].time)
    requires forall c :: 2 <= c <= last && c / 2 == hole ==> Le(w, min, h[child].time, h[c].time)
    ensures Sinking(h[hole := h[child]], last, child, w, min, time)
  {
    hide Rel;
  }

  lemma EndDown(h: seq<Node>, last: nat, hole: nat, w: nat, min: nat, n: Node)
    requires w > 0 && last < |h| && 1 <= hole <= last && Sinking(h, last, hole, w, min, n.time)
    requires forall c :: 2 <= c <= last && c / 2 == hole ==> Le(w, min, n.time, h[c].time)
    ensures Ordered(h[hole := n], last, 0, w, min)
  {
    hide Rel;
  }
}
