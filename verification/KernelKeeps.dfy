/** What the pieces a service call is made of do to the invariant. */
module KernelKeeps {
  import opened Lists
  import opened KernelSpec
  import opened KernelInv

  /** Links, the free list and the mutex part: all but the object counters. */
  ghost predicate Good(s: State, ex: set<Tid>, mx: set<nat>) {
    Links(s, ex) && FreeOk(s) && MtxOk(s, ex, mx)
  }

  // ---- frames -----------------------------------------------------------------

  /** The mutex part depends on priorities, held lists and owners only. */
  lemma SameMtx(s: State, s1: State, ex: set<Tid>, mx: set<nat>)
    requires MtxOk(s, ex, mx) && Keeps(s, s1)
    requires forall t :: 0 <= t < |s.tcb| ==>
      s1.tcb[t].held == s.tcb[t].held && s1.tcb[t].bpri == s.tcb[t].bpri && s1.tcb[t].pri == s.tcb[t].pri
    requires forall t :: 0 <= t < |s.tcb| && t !in ex && s1.tcb[t].tstat.Waiting? && s1.tcb[t].tstat.on.Wobj? ==>
      CeilOk(s.inib, s.tcb[t].bpri, s1.tcb[t].tstat.on.q)
    requires forall t :: 0 <= t < |s.tcb| && t !in ex && s1.tcb[t].tstat.Dormant? ==> s.tcb[t].held == []
    requires forall m :: 0 <= m < |s.inib| && IsMtx(s, m) ==> s1.objs[m] == s.objs[m]
    ensures MtxOk(s1, ex, mx)
  {
    assert OwnOk(s1, mx);
  }

  lemma FlagsMtx(s: State, s1: State)
    requires MtxOk(s, {}, {}) && s1.tcb == s.tcb && s1.objs == s.objs && s1.inib == s.inib && Shape(s1)
    ensures MtxOk(s1, {}, {})
  {
  }

  /** Waiting tasks only went away from object o, and nothing else changed on it. */
  ghost predicate Shrunk(s: State, s1: State, o: nat)
    requires SameTables(s, s1) && o < |s.inib| && Shape(s)
  {
    && s1.objs[o] == s.objs[o]
    && |s1.wq[o]| <= |s.wq[o]| && |s1.wq[RcvQ(s, o)]| <= |s.wq[RcvQ(s, o)]|
    && (forall t :: t in s1.wq[o] ==> t in s.wq[o])
    && (forall t :: t in s1.wq[o] && t < |s.tcb| ==>
          s1.tcb[t].waiptn == s.tcb[t].waiptn && s1.tcb[t].orw == s.tcb[t].orw)
  }

  lemma ShrunkOk(s: State, s1: State, o: nat)
    requires Shape(s) && SameTables(s, s1) && o < |s.inib| && Shrunk(s, s1, o) && ObjOk(s, o)
    ensures ObjOk(s1, o)
  {
  }

  /** The objects stay in order when tasks only leave queues. */
  lemma FewerWaiters(s: State, s1: State)
    requires ObjsOk(s) && SameTables(s, s1) && s1.objs == s.objs
    requires forall q :: 0 <= q < |s.wq| ==> |s1.wq[q]| <= |s.wq[q]|
    requires forall q, u {:trigger u in s1.wq[q]} :: 0 <= q < |s.wq| && u in s1.wq[q] ==> u in s.wq[q]
    requires forall u :: 0 <= u < |s.tcb| ==>
      s1.tcb[u].waiptn == s.tcb[u].waiptn && s1.tcb[u].orw == s.tcb[u].orw
    ensures ObjsOk(s1)
  {
    forall o | 0 <= o < |s.inib| ensures ObjOk(s1, o) {
      ShrunkOk(s, s1, o);
    }
  }

  // ---- ending a wait ------------------------------------------------------------

  lemma LeaveEffect(s: State, t: Tid)
    requires Shape(s) && t < |s.tcb| && s.tcb[t].tstat.Waiting?
    requires forall q :: 0 <= q < |s.wq| ==> NoDup(s.wq[q])
    ensures var s1 := LeaveWaiting(s, t);
      && (forall q :: 0 <= q < |s.wq| ==> |s1.wq[q]| <= |s.wq[q]|)
      && (forall q, u {:trigger u in s1.wq[q]} {:trigger u in s.wq[q]} :: 0 <= q < |s.wq| ==>
            (u in s1.wq[q] <==> u in s.wq[q] && !(u == t && WaitsOn(s.tcb[t], q))))
  {
    var on := s.tcb[t].tstat.on;
    if on.Wobj? && on.q < |s.wq| {
      RemoveSpec(s.wq[on.q], t);
    }
  }

  /** Exactly what ending a wait changes. */
  lemma WakeEffect(s: State, t: Tid, er: Er, ex: set<Tid>)
    requires Links(s, ex) && t < |s.tcb| && s.tcb[t].tstat.Waiting?
    ensures var s1 := Wake(s, t, er); var v := s.tcb[t];
      && s1 == s.(tcb := s1.tcb, ready := s1.ready, wq := s1.wq, evts := s1.evts)
      && s1.tcb == s.tcb[t := Woken(v, er)]
      && (forall q :: 0 <= q < |s.wq| ==> |s1.wq[q]| <= |s.wq[q]|)
      && (forall q, u {:trigger u in s1.wq[q]} {:trigger u in s.wq[q]} :: 0 <= q < |s.wq| ==>
            (u in s1.wq[q] <==> u in s.wq[q] && !(u == t && WaitsOn(v, q))))
      && s1.ready == if v.tstat.susp then s.ready else s.ready[v.pri := s.ready[v.pri] + [t]]
  {
    LeaveEffect(s, t);
  }

  /** The tasks that stay keep their order, and an event block goes only with its task. */
  lemma WakeOthers(s: State, t: Tid, er: Er, q: nat, a: Tid, b: Tid)
    requires Shape(s) && t < |s.tcb| && s.tcb[t].tstat.Waiting? && q < |s.wq| && NoDup(s.wq[q]) && a != t && b != t
    ensures var s1 := Wake(s, t, er);
      && (Before(s1.wq[q], a, b) <==> Before(s.wq[q], a, b))
      && s1.evts == if s.tcb[t].tmo then s.evts - {t} else s.evts
  {
    RemoveBefore(s.wq[q], t, a, b);
  }

  lemma WakeLinks(s: State, t: Tid, er: Er, ex: set<Tid>)
    requires Links(s, ex) && t < |s.tcb| && t !in ex && s.tcb[t].tstat.Waiting?
    ensures Links(Wake(s, t, er), ex)
  {
    LeaveWait(s, t, ex);
    Arrive(LeaveWaiting(s, t), t, Woken(s.tcb[t], er), ex);
  }

  /** A task in transit, rewritten to v, goes where the end of its wait sends it. */
  lemma Arrive(s: State, t: Tid, v: Tcb, ex: set<Tid>)
    requires Links(s, ex + {t}) && t < |s.tcb| && t !in ex
    requires v.tstat.Suspended? || v.tstat.Runnable?
    ensures var s1 := s.(tcb := s.tcb[t := v]);
      Links(if v.tstat.Suspended? then s1 else s1.(ready := s1.ready[v.pri := s1.ready[v.pri] + [t]]), ex)
  {
    assert ex + {t} - {t} == ex;
    SameLinks(s, s.tcb[t := v], ex + {t});
    var s1 := s.(tcb := s.tcb[t := v]);
    if v.tstat.Suspended? {
      EnterIdle(s1, t, ex + {t});
    } else {
      EnterReadyLast(s1, t, ex + {t});
    }
  }

  lemma WakeGood(s: State, t: Tid, er: Er, ex: set<Tid>, mx: set<nat>)
    requires Good(s, ex, mx) && t < |s.tcb| && t !in ex && s.tcb[t].tstat.Waiting?
    ensures Good(Wake(s, t, er), ex, mx)
  {
    WakeLinks(s, t, er, ex);

    SameMtx(s, Wake(s, t, er), ex, mx);
  }

  lemma WakeObjs(s: State, t: Tid, er: Er, ex: set<Tid>)
    requires Links(s, ex) && t < |s.tcb| && s.tcb[t].tstat.Waiting? && ObjsOk(s)
    ensures ObjsOk(Wake(s, t, er))
  {
    WakeEffect(s, t, er, ex);
    FewerWaiters(s, Wake(s, t, er));
  }

  // ---- releasing a whole queue -----------------------------------------------------

  ghost predicate AllWaiting(s: State, ts: seq<Tid>, ex: set<Tid>) {
    NoDup(ts) && forall t :: t in ts ==> t < |s.tcb| && t !in ex && s.tcb[t].tstat.Waiting?
  }

  lemma {:induction false} WakeAllGood(s: State, ts: seq<Tid>, ex: set<Tid>, mx: set<nat>)
    requires Good(s, ex, mx) && AllWaiting(s, ts, ex)
    ensures Good(WakeAll(s, ts), ex, mx)
    ensures WakeAll(s, ts).objs == s.objs
    ensures ObjsOk(s) ==> ObjsOk(WakeAll(s, ts))
    decreases |ts|
  {
    if ts != [] {
      var t := ts[0];
      assert t in ts;
      WakeGood(s, t, E_DLT, ex, mx);
      WakeEffect(s, t, E_DLT, ex);
      if ObjsOk(s) {
        WakeObjs(s, t, E_DLT, ex);
      }
      var s1 := Wake(s, t, E_DLT);
      forall u | u in ts[1..] ensures u in ts && u != t && s1.tcb[u] == s.tcb[u] {
        var i :| 0 <= i < |ts[1..]| && ts[1..][i] == u;
        assert ts[i + 1] == u;
      }
      WakeAllGood(s1, ts[1..], ex, mx);
    }
  }

  /** What releasing the tasks of a list leaves alone, and that a queue made of the
      list is empty afterwards. */
  lemma {:induction false} WakeAllEffect(s: State, ts: seq<Tid>, ex: set<Tid>)
    requires Links(s, ex) && AllWaiting(s, ts, ex)
    ensures var s1 := WakeAll(s, ts);
      && s1 == s.(tcb := s1.tcb, ready := s1.ready, wq := s1.wq, evts := s1.evts)
      && (forall u :: 0 <= u < |s.tcb| ==>
            s1.tcb[u] == s.tcb[u].(wercd := s1.tcb[u].wercd, tstat := s1.tcb[u].tstat))
      && (forall u :: 0 <= u < |s.tcb| && u !in ts ==> s1.tcb[u] == s.tcb[u])
      && (forall u :: 0 <= u < |s.tcb| && u in ts ==>
            s1.tcb[u] == Woken(s.tcb[u], E_DLT))
      && (forall u :: u in s1.evts <==> u in s.evts && !(u < |s.tcb| && u in ts && s.tcb[u].tmo))
      && (forall q, u {:trigger u in s1.wq[q]} {:trigger u in s.wq[q]} :: 0 <= q < |s.wq| ==>
            (u in s1.wq[q] <==> u in s.wq[q] && u !in ts))
    decreases |ts|
  {
    if ts != [] {
      var t := ts[0];
      assert t in ts;
      WakeLinks(s, t, E_DLT, ex);
      WakeEffect(s, t, E_DLT, ex);
      var s1 := Wake(s, t, E_DLT);
      forall u | u in ts[1..] ensures u in ts && u != t && s1.tcb[u] == s.tcb[u] {
        var i :| 0 <= i < |ts[1..]| && ts[1..][i] == u;
        assert ts[i + 1] == u;
      }
      WakeAllEffect(s1, ts[1..], ex);
      assert forall u :: u in ts <==> u == t || u in ts[1..];
    }
  }

  lemma QueueWaiting(s: State, q: nat, ex: set<Tid>)
    requires Links(s, ex) && q < |s.wq|
    ensures AllWaiting(s, s.wq[q], ex)
    ensures WakeAll(s, s.wq[q]).wq[q] == []
  {
    InQueueWaiting(s.tcb, s.wq, q, ex);
    WakeAllEffect(s, s.wq[q], ex);
    NoMembers(WakeAll(s, s.wq[q]).wq[q]);
  }

  lemma InQueueWaiting(tcb: seq<Tcb>, wq: seq<seq<Tid>>, q: nat, ex: set<Tid>)
    requires WaitOk(tcb, wq, ex) && q < |wq|
    ensures forall t :: t in wq[q] ==> t < |tcb| && t !in ex && tcb[t].tstat.Waiting?
  {
  }

  lemma HeadWaits(s: State, q: nat)
    requires Links(s, {}) && q < |s.wq| && s.wq[q] != []
    ensures s.wq[q][0] < |s.tcb| && WaitsOn(s.tcb[s.wq[q][0]], q)
  {
    assert s.wq[q][0] in s.wq[q];
  }

  // ---- starting a wait -----------------------------------------------------------------

  lemma WaitLinks(s: State, r: Tid, on: WaitOn, tmo: bool)
    requires Links(s, {}) && r < |s.tcb| && s.tcb[r].tstat.Runnable? && !on.Wobj?
    ensures Links(MakeWait(s, r, on, tmo), {})
  {
    LeaveReady(s, r, {});
    var s1 := MakeNonRunnable(s, r);
    var s2 := MakeWait(s, r, on, tmo);
    SameLinks(s1, s2.tcb, {} + {r});
    assert ReadyOk(s2.tcb, s2.ready, {});
    assert WaitOk(s2.tcb, s2.wq, {});
    assert EvtOk(s2.tcb, s2.evts, {});
  }

  lemma WobjWaitLinks(s: State, r: Tid, q: nat, tmo: bool)
    requires Links(s, {}) && r < |s.tcb| && s.tcb[r].tstat.Runnable? && q < |s.wq|
    ensures Links(WobjMakeWait(s, r, q, tmo), {})
  {
    LeaveReady(s, r, {});
    var s1 := MakeNonRunnable(s, r);
    var s2 := MakeWait(s, r, Wobj(q), tmo);
    SameLinks(s1, s2.tcb, {} + {r});
    var s3 := s1.(tcb := s2.tcb);
    EnterWait(s3, r, q, {});
    assert WobjMakeWait(s, r, q, tmo)
        == Enqueue(s3, q, r).(evts := if s3.tcb[r].tmo then s3.evts + {r} else s3.evts);
  }

  /** The queue after a task joined it. */
  lemma JoinEffect(s: State, r: Tid, q: nat, tmo: bool)
    requires Links(s, {}) && r < |s.tcb| && s.tcb[r].tstat.Runnable? && q < |s.wq|
    ensures var s1 := WobjMakeWait(s, r, q, tmo);
      && s1 == s.(tcb := s1.tcb, ready := s1.ready, wq := s1.wq, evts := s1.evts)
      && s1.tcb == s.tcb[r := s.tcb[r].(tstat := Waiting(false, Wobj(q)), tmo := tmo)]
      && (forall q1 :: 0 <= q1 < |s.wq| && q1 != q ==> s1.wq[q1] == s.wq[q1])
      && (forall u :: u in s1.wq[q] <==> u in s.wq[q] || u == r)
      && |s1.wq[q]| == |s.wq[q]| + 1
      && s1.ready == MakeNonRunnable(s, r).ready
  {
    var s2 := MakeWait(s, r, Wobj(q), tmo);
    if TpriQueue(s, q) {
      SortedFrame(s.tcb, s2.tcb, s.wq[q]);
      var k := InsertTpriSpec(s.wq[q], r, s.tcb[r].pri, s2.tcb);
      InsertAt(s.wq[q], k, r);
    }
  }

  /** Where the task stands in the queue, and that its event block is registered when the
      wait has a time limit. */
  lemma JoinPlace(s: State, r: Tid, q: nat, tmo: bool)
    requires Links(s, {}) && r < |s.tcb| && s.tcb[r].tstat.Runnable? && q < |s.wq|
    ensures var s1 := WobjMakeWait(s, r, q, tmo);
      && (forall t :: t in s1.evts <==> t in s.evts || (t == r && tmo))
      && (!TpriQueue(s, q) ==> s1.wq[q] == s.wq[q] + [r])
      && (TpriQueue(s, q) ==> exists k :: 0 <= k <= |s.wq[q]| && GoesAt(s, r, s.wq[q], s1.wq[q], k))
  {
    var s2 := MakeWait(s, r, Wobj(q), tmo);
    if TpriQueue(s, q) {
      SortedFrame(s.tcb, s2.tcb, s.wq[q]);
      var k := InsertTpriSpec(s.wq[q], r, s.tcb[r].pri, s2.tcb);
      forall i | 0 <= i < |s.wq[q]| ensures s2.tcb[s.wq[q][i]].pri == s.tcb[s.wq[q][i]].pri {
        assert s.wq[q][i] in s.wq[q];
      }
      assert GoesAt(s, r, s.wq[q], WobjMakeWait(s, r, q, tmo).wq[q], k);
    }
  }

  /** r goes in at place k: after all of the same or higher priority, before all others. */
  ghost predicate GoesAt(s: State, r: Tid, q: seq<Tid>, q1: seq<Tid>, k: nat) {
    && k <= |q| && q1 == q[..k] + [r] + q[k..] && r < |s.tcb|
    && (forall i :: 0 <= i < |q| ==> q[i] < |s.tcb| && (i < k <==> s.tcb[q[i]].pri <= s.tcb[r].pri))
  }

  lemma WobjWaitGood(s: State, r: Tid, q: nat, tmo: bool)
    requires Good(s, {}, {}) && r < |s.tcb| && s.tcb[r].tstat.Runnable? && q < |s.wq|
    requires CeilOk(s.inib, s.tcb[r].bpri, q)
    ensures Good(WobjMakeWait(s, r, q, tmo), {}, {})
  {
    WobjWaitLinks(s, r, q, tmo);
    JoinEffect(s, r, q, tmo);
    SameMtx(s, WobjMakeWait(s, r, q, tmo), {}, {});
  }

  lemma WobjWaitObj(s: State, r: Tid, q: nat, tmo: bool, o: nat)
    requires Links(s, {}) && r < |s.tcb| && s.tcb[r].tstat.Runnable? && q < |s.wq|
    requires o < |s.inib| && ObjOk(s, o) && q != o && q != RcvQ(s, o)
    ensures ObjOk(WobjMakeWait(s, r, q, tmo), o)
  {
    JoinEffect(s, r, q, tmo);
    ShrunkOk(s, WobjMakeWait(s, r, q, tmo), o);
  }

  // ---- changing a priority ----------------------------------------------------------------

  function WithPri(tcb: seq<Tcb>, t: Tid, newpri: Pri): seq<Tcb>
    requires t < |tcb|
  {
    tcb[t := tcb[t].(pri := newpri)]
  }

  /** A priority that no wait queue depends on. */
  lemma FreePriority(tcb: seq<Tcb>, wq: seq<seq<Tid>>, inib: seq<Inib>, t: Tid, newpri: Pri, ex: set<Tid>)
    requires WaitOk(tcb, wq, ex) && OrderOk(tcb, wq, inib) && t < |tcb|
    requires forall q :: 0 <= q < |wq| && q < |inib| && ByPriority(inib[q]) ==> t !in wq[q]
    ensures WaitOk(WithPri(tcb, t, newpri), wq, ex) && OrderOk(WithPri(tcb, t, newpri), wq, inib)
  {
    var tcb1 := WithPri(tcb, t, newpri);
    forall q | 0 <= q < |wq| && q < |inib| && ByPriority(inib[q]) ensures Sorted(tcb1, wq[q]) {
      SortedFrame(tcb, tcb1, wq[q]);
    }
  }

  /** A runnable task moves to the queue q1 of its new priority. */
  lemma MoveReady(tcb: seq<Tcb>, ready: seq<seq<Tid>>, t: Tid, newpri: Pri, q1: seq<Tid>, ex: set<Tid>)
    requires ReadyOk(tcb, ready, ex) && t < |tcb| && t !in ex && tcb[t].tstat.Runnable?
    requires var r := ready[tcb[t].pri := Remove(ready[tcb[t].pri], t)];
      q1 == [t] + r[newpri] || q1 == r[newpri] + [t]
    ensures var r := ready[tcb[t].pri := Remove(ready[tcb[t].pri], t)];
      ReadyOk(WithPri(tcb, t, newpri), r[newpri := q1], ex)
  {
    var p := tcb[t].pri;
    var r := ready[p := Remove(ready[p], t)];
    RemoveSpec(ready[p], t);
    assert ReadyOk(tcb, r, ex + {t});
    assert ReadyOk(WithPri(tcb, t, newpri), r, ex + {t});
    ConsNoDup(t, r[newpri]);
    SnocNoDup(r[newpri], t);
    EnterQueue(WithPri(tcb, t, newpri), r, q1, t, ex + {t});
    assert ex + {t} - {t} == ex;
  }

  /** A waiting task moves within its priority-ordered queue. */
  lemma MoveWaiting(tcb: seq<Tcb>, wq: seq<seq<Tid>>, inib: seq<Inib>, t: Tid, q: nat, newpri: Pri, ex: set<Tid>)
    requires WaitOk(tcb, wq, ex) && OrderOk(tcb, wq, inib) && t < |tcb| && t !in ex
    requires q < |wq| && q < |inib| && ByPriority(inib[q]) && WaitsOn(tcb[t], q)
    ensures var tcb1 := WithPri(tcb, t, newpri);
      var q1 := InsertTpri(Remove(wq[q], t), t, newpri, tcb1);
      && WaitOk(tcb1, wq[q := q1], ex) && OrderOk(tcb1, wq[q := q1], inib)
      && |q1| == |wq[q]| && forall u :: u in q1 <==> u in wq[q]
  {
    var tcb1 := WithPri(tcb, t, newpri);
    var q0 := Remove(wq[q], t);
    RemoveSpec(wq[q], t);
    RemoveSorted(tcb, wq[q], t);
    RemoveLen(wq[q], t);
    SortedFrame(tcb, tcb1, q0);
    var k := InsertTpriSpec(q0, t, newpri, tcb1);
    InsertAt(q0, k, t);
    var q1 := InsertTpri(q0, t, newpri, tcb1);
    SwapQueue(tcb, tcb1, wq, q, q1, ex);
    forall q2 | 0 <= q2 < |wq| && q2 < |inib| && ByPriority(inib[q2]) && q2 != q ensures Sorted(tcb1, wq[q2]) {
      SortedFrame(tcb, tcb1, wq[q2]);
    }
  }

  lemma SwapQueue(tcb: seq<Tcb>, tcb1: seq<Tcb>, wq: seq<seq<Tid>>, q: nat, q1: seq<Tid>, ex: set<Tid>)
    requires WaitOk(tcb, wq, ex) && q < |wq| && |tcb1| == |tcb|
    requires forall t :: 0 <= t < |tcb| ==> tcb1[t].tstat == tcb[t].tstat
    requires NoDup(q1) && forall u :: u in q1 <==> u in wq[q]
    ensures WaitOk(tcb1, wq[q := q1], ex)
  {
  }

  lemma ChangeForm(s: State, t: Tid, newpri: Pri, mtxmode: bool)
    requires Shape(s) && t < |s.tcb|
    ensures var v := s.tcb[t]; var s1 := ChangePriority(s, t, newpri, mtxmode);
      && s1 == s.(tcb := WithPri(s.tcb, t, newpri), ready := s1.ready, wq := s1.wq)
      && s1.ready == (if v.tstat.Runnable? then
             var r := s.ready[v.pri := Remove(s.ready[v.pri], t)];
             r[newpri := if mtxmode then [t] + r[newpri] else r[newpri] + [t]]
           else s.ready)
      && (if !v.tstat.Runnable? && v.tstat.Waiting? && v.tstat.on.Wobj? && TpriQueue(s, v.tstat.on.q) then
            s1.wq == s.wq[v.tstat.on.q :=
              InsertTpri(Remove(s.wq[v.tstat.on.q], t), t, newpri, WithPri(s.tcb, t, newpri))]
          else s1.wq == s.wq)
  {
  }

  lemma ChangePriorityLinks(s: State, t: Tid, newpri: Pri, mtxmode: bool, ex: set<Tid>)
    requires Links(s, ex) && t < |s.tcb| && t !in ex
    ensures Links(ChangePriority(s, t, newpri, mtxmode), ex)
  {
    var v := s.tcb[t];
    var s1 := ChangePriority(s, t, newpri, mtxmode);
    ChangeForm(s, t, newpri, mtxmode);
    if v.tstat.Runnable? {
      MoveReady(s.tcb, s.ready, t, newpri, s1.ready[newpri], ex);
      FreePriority(s.tcb, s.wq, s.inib, t, newpri, ex);
    } else if v.tstat.Waiting? && v.tstat.on.Wobj? && TpriQueue(s, v.tstat.on.q) {
      MoveWaiting(s.tcb, s.wq, s.inib, t, v.tstat.on.q, newpri, ex);
      assert ReadyOk(s1.tcb, s1.ready, ex);
    } else {
      FreePriority(s.tcb, s.wq, s.inib, t, newpri, ex);
      assert ReadyOk(s1.tcb, s1.ready, ex);
    }
    assert EvtOk(s1.tcb, s1.evts, ex);
  }

  /** Nothing but the priority of t and the order of its queue changes. */
  lemma ChangePriorityEffect(s: State, t: Tid, newpri: Pri, mtxmode: bool, ex: set<Tid>)
    requires Links(s, ex) && t < |s.tcb| && t !in ex
    ensures var s1 := ChangePriority(s, t, newpri, mtxmode);
      && s1 == s.(tcb := WithPri(s.tcb, t, newpri), ready := s1.ready, wq := s1.wq)
      && (forall q, u {:trigger u in s1.wq[q]} {:trigger u in s.wq[q]} :: 0 <= q < |s.wq| ==>
            (u in s1.wq[q] <==> u in s.wq[q]))
      && (forall q :: 0 <= q < |s.wq| ==> |s1.wq[q]| == |s.wq[q]|)
  {
    var v := s.tcb[t];
    ChangeForm(s, t, newpri, mtxmode);
    if v.tstat.Waiting? && v.tstat.on.Wobj? && TpriQueue(s, v.tstat.on.q) {
      MoveWaiting(s.tcb, s.wq, s.inib, t, v.tstat.on.q, newpri, ex);
    }
  }

  lemma {:induction false} RemoveLen(q: seq<Tid>, t: Tid)
    requires t in q
    ensures |Remove(q, t)| == |q| - 1
  {
    if q[0] != t {
      RemoveLen(q[1..], t);
    }
  }
}
