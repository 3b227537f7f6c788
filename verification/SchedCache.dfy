/** What the scheduler caches: the bitmap of the ready queues and the task to run.
    Each lemma says how the C code's cheap update keeps both right. */
module SchedCache {
  import opened Lists
  import opened KernelSpec
  import opened Bitmap

  /** The bitmap tells which queues hold a task, and schedtsk is the head of the
      highest of them. */
  ghost predicate Cached(ready: seq<seq<Tid>>, primap: bv16, schedtsk: Option<Tid>) {
    && |ready| == 16
    && (forall p: Pri :: Has(primap, p) <==> ready[p] != [])
    && schedtsk == Top(ready)
  }

  /** Every queued task is in the queue of its current priority, once. */
  ghost predicate Placed(tcb: seq<Tcb>, ready: seq<seq<Tid>>) {
    && |ready| == 16
    && (forall p :: 0 <= p < 16 ==> NoDup(ready[p]))
    && (forall p, t {:trigger t in ready[p]} :: 0 <= p < 16 && t in ready[p] ==> t < |tcb| && tcb[t].pri == p)
  }

  ghost predicate Idle(ready: seq<seq<Tid>>, t: Tid) {
    forall p :: 0 <= p < |ready| ==> t !in ready[p]
  }

  /** The head of the highest queue, with the number of the queue. */
  lemma TopAt(ready: seq<seq<Tid>>) returns (p: nat)
    requires Top(ready).Some?
    ensures p < |ready| && ready[p] != [] && Top(ready) == Some(ready[p][0]) && ready[p][0] in ready[p]
    ensures forall r :: 0 <= r < p ==> ready[r] == []
  {
    p := TopFromInv(ready, 0);
  }

  lemma TopSome(ready: seq<seq<Tid>>, p: nat)
    requires p < |ready| && ready[p] != []
    ensures Top(ready).Some?
  {
    if Top(ready).None? {
      TopFromEmpty(ready, 0);
    }
  }

  lemma TopNone(ready: seq<seq<Tid>>)
    requires forall p :: 0 <= p < |ready| ==> ready[p] == []
    ensures Top(ready) == None
  {
    TopFromNone(ready, 0);
  }

  /** make_runnable. */
  lemma JoinCached(tcb: seq<Tcb>, ready: seq<seq<Tid>>, primap: bv16, schedtsk: Option<Tid>, t: Tid)
    requires Cached(ready, primap, schedtsk) && Placed(tcb, ready) && t < |tcb| && Idle(ready, t)
    ensures schedtsk.Some? ==> schedtsk.value < |tcb| && schedtsk.value != t
    ensures var p := tcb[t].pri; var r1 := ready[p := ready[p] + [t]];
      && Placed(tcb, r1)
      && Cached(r1, Set(primap, p),
                if schedtsk.None? || p < tcb[schedtsk.value].pri then Some(t) else schedtsk)
  {
    hide Has, Set, Clear;
    var p := tcb[t].pri;
    var r1 := ready[p := ready[p] + [t]];
    SetBit(primap, p);
    SnocNoDup(ready[p], t);
    if schedtsk.None? {
      TopFromEmpty(ready, 0);
      TopIs(r1, p);
    } else {
      var k := TopAt(ready);
      TopIs(r1, if p < k then p else k);
    }
  }

  /** make_non_runnable. */
  lemma LeaveCached(tcb: seq<Tcb>, ready: seq<seq<Tid>>, primap: bv16, schedtsk: Option<Tid>, t: Tid)
    requires Cached(ready, primap, schedtsk) && Placed(tcb, ready) && t < |tcb| && t in ready[tcb[t].pri]
    ensures var p := tcb[t].pri; var q := Remove(ready[p], t); var r1 := ready[p := q];
      var m1 := if q == [] then Clear(primap, p) else primap;
      && Placed(tcb, r1) && Idle(r1, t)
      && Cached(r1, m1, Top(r1))
      && (schedtsk != Some(t) ==> Top(r1) == schedtsk)
      && (schedtsk == Some(t) && q != [] ==> Top(r1) == Some(q[0]))
      && Top(r1) != Some(t)
  {
    hide Has, Set, Clear;
    var p := tcb[t].pri;
    var q := Remove(ready[p], t);
    var r1 := ready[p := q];
    RemoveSpec(ready[p], t);
    ClearBit(primap, p);
    TopSome(ready, p);
    var k := TopAt(ready);
    if k < p {
      TopIs(r1, k);
    } else {
      assert k == p;
      if ready[p][0] == t {
        if q != [] {
          TopIs(r1, p);
        }
      } else {
        TopIs(r1, p);
      }
    }
    if Top(r1).Some? {
      var k1 := TopAt(r1);
    }
  }

  /** search_schedtsk looks in the queue the bitmap search finds. */
  lemma SearchCached(ready: seq<seq<Tid>>, primap: bv16, n: Pri)
    requires Cached(ready, primap, Top(ready)) && Has(primap, n) && forall i: Pri :: i < n ==> !Has(primap, i)
    ensures ready[n] != [] && Top(ready) == Some(ready[n][0])
  {
    hide Has, Set, Clear;
    TopIs(ready, n);
  }

  lemma EmptyCached(ready: seq<seq<Tid>>, primap: bv16, schedtsk: Option<Tid>)
    requires Cached(ready, primap, schedtsk)
    ensures primap == 0 ==> Top(ready) == None
  {
    if primap == 0 {
      forall p: Pri ensures ready[p] == [] {
        NoBits(p);
      }
      TopNone(ready);
    }
  }

  /** change_priority of a runnable task: what the new head of the queues can be. */
  lemma MoveCached(tcb: seq<Tcb>, ready: seq<seq<Tid>>, primap: bv16, schedtsk: Option<Tid>, t: Tid, newpri: Pri, first: bool)
    requires Cached(ready, primap, schedtsk) && Placed(tcb, ready) && t < |tcb| && t in ready[tcb[t].pri]
    ensures var p := tcb[t].pri; var q := Remove(ready[p], t);
      var r0 := ready[p := q]; var m0 := if q == [] then Clear(primap, p) else primap;
      var r1 := r0[newpri := if first then [t] + r0[newpri] else r0[newpri] + [t]];
      && Placed(tcb[t := tcb[t].(pri := newpri)], r1)
      && Cached(r1, Set(m0, newpri), Top(r1))
      && schedtsk.Some? && schedtsk.value < |tcb|
      && (schedtsk == Some(t) && newpri < p ==> Top(r1) == Some(t))
      && (schedtsk != Some(t) ==>
            Top(r1) == if (if first then newpri <= tcb[schedtsk.value].pri else newpri < tcb[schedtsk.value].pri)
                       then Some(t) else schedtsk)
  {
    hide Has, Set, Clear, Remove, Top, TopFrom, NoDup;
    var p := tcb[t].pri;
    var q := Remove(ready[p], t);
    var r0 := ready[p := q];
    var m0 := if q == [] then Clear(primap, p) else primap;
    var r1 := r0[newpri := if first then [t] + r0[newpri] else r0[newpri] + [t]];
    LeaveCached(tcb, ready, primap, schedtsk, t);
    MovePlaced(tcb, r0, t, newpri, first);
    PutTop(tcb, r0, newpri, r1[newpri]);
    MoveBelow(tcb, ready, t);
    SetBit(m0, newpri);
  }

  /** Where the queue of priority n gets a new, non-empty content. */
  lemma PutTop(tcb: seq<Tcb>, ready: seq<seq<Tid>>, n: Pri, q1: seq<Tid>)
    requires Placed(tcb, ready) && q1 != []
    ensures Top(ready).Some? ==> Top(ready).value < |tcb|
    ensures Top(ready[n := q1]) ==
      if Top(ready).None? || n <= tcb[Top(ready).value].pri then Some(q1[0]) else Top(ready)
    ensures Top(ready).None? || n < tcb[Top(ready).value].pri ==> ready[n] == []
    ensures Top(ready).Some? && n == tcb[Top(ready).value].pri ==> ready[n] != [] && ready[n][0] == Top(ready).value
  {
    if Top(ready).None? {
      TopFromEmpty(ready, 0);
      TopIs(ready[n := q1], n);
    } else {
      var k := TopAt(ready);
      TopIs(ready[n := q1], if n < k then n else k);
    }
  }

  /** When the first task t leaves, the next is not of higher priority. */
  lemma MoveBelow(tcb: seq<Tcb>, ready: seq<seq<Tid>>, t: Tid)
    requires Placed(tcb, ready) && t < |tcb| && t in ready[tcb[t].pri]
    ensures Top(ready).Some? && Top(ready).value < |tcb|
    ensures var p := tcb[t].pri; var r0 := ready[p := Remove(ready[p], t)];
      Top(ready) == Some(t) && Top(r0).Some? ==> Top(r0).value < |tcb| && p <= tcb[Top(r0).value].pri
  {
    var p := tcb[t].pri;
    TopSome(ready, p);
    var k := TopAt(ready);
    var r0 := ready[p := Remove(ready[p], t)];
    if Top(r0).Some? {
      var k0 := TopAt(r0);
      RemoveSpec(ready[p], t);
      assert ready[k0] != [];
    }
  }

  lemma MovePlaced(tcb: seq<Tcb>, ready: seq<seq<Tid>>, t: Tid, newpri: Pri, first: bool)
    requires Placed(tcb, ready) && t < |tcb| && Idle(ready, t)
    ensures Placed(tcb[t := tcb[t].(pri := newpri)],
                   ready[newpri := if first then [t] + ready[newpri] else ready[newpri] + [t]])
  {
    if first {
      ConsNoDup(t, ready[newpri]);
    } else {
      SnocNoDup(ready[newpri], t);
    }
  }

  /** rotate_ready_queue. */
  lemma RotateCached(tcb: seq<Tcb>, ready: seq<seq<Tid>>, primap: bv16, schedtsk: Option<Tid>, p: Pri)
    requires Cached(ready, primap, schedtsk) && Placed(tcb, ready) && |ready[p]| > 1
    ensures var h := ready[p][0]; var q1 := ready[p][1..] + [h]; var r1 := ready[p := q1];
      && Placed(tcb, r1) && q1[0] != h
      && Cached(r1, primap, if schedtsk == Some(h) then Some(q1[0]) else schedtsk)
  {
    var q := ready[p];
    var q1 := q[1..] + [q[0]];
    var r1 := ready[p := q1];
    assert forall x :: x in q1 <==> x in q by {
      assert q == [q[0]] + q[1..];
    }
    TopSome(ready, p);
    var k := TopAt(ready);
    assert tcb[ready[k][0]].pri == k;
    assert q[0] in q && tcb[q[0]].pri == p;
    TopIs(r1, k);
  }
}
